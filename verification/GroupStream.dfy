/** Unsubscribe racing with a join or a rejoin (ironflow/consumer_group_stream.go).

    One goroutine opens streams and reads the current one; Unsubscribe runs beside it.  Each
    critical section, channel operation and stream call is one step; the server joins and ends
    streams when it likes. */
module GroupStream {
  import opened Optional

  datatype Stream = Stream(joined: bool, halfClosed: bool, cancelled: bool, serverEnded: bool)

  /** The goroutine that calls open and read. */
  datatype Opener =
    | Backoff
    | Opening(i: nat)    // join sent, waiting for the first frame
    | Joined(i: nat)     // joined received, about to take the lock
    | Refusing(i: nat)   // about to cancel the stream it opened
    | Reading(i: nat)
    | Finishing(i: nat)  // read is over, about to cancel its stream
    | Done

  datatype Unsubscriber =
    | NotCalled
    | StopClosed
    | HasCurrent(cur: Option<nat>)
    | HalfClosed         // the watcher waits for run to end, or two seconds
    | Forced

  datatype Group = Group(
    streams: map<nat, Stream>,
    cur: Option<nat>,
    stopped: bool,
    ctxDone: bool,
    opener: Opener,
    unsub: Unsubscriber)

  datatype Step =
    | Open(i: nat)
    | ServerJoins(i: nat)
    | ServerEnds(i: nat)
    | ReceiveJoined
    | ReceiveFails
    | Install
    | CancelRefused(again: bool)
    | EndRead
    | FinishRead(again: bool)
    | GiveUp
    | EndContext          // the join context ended, or run returned
    | CloseStop
    | ReadCurrent
    | HalfClose
    | Force

  // --------------------------------------------------------------------- steps

  predicate Enabled(g: Group, s: Step) {
    match s
    case Open(i) => g.opener.Backoff? && i !in g.streams
    case ServerJoins(i) => i in g.streams && !g.streams[i].cancelled
    case ServerEnds(i) => i in g.streams
    case ReceiveJoined => g.opener.Opening? && g.opener.i in g.streams && g.streams[g.opener.i].joined
    case ReceiveFails => g.opener.Opening?
    case Install => g.opener.Joined?
    case CancelRefused(_) => g.opener.Refusing? && g.opener.i in g.streams
    case EndRead => g.opener.Reading?
    case FinishRead(_) => g.opener.Finishing? && g.opener.i in g.streams
    case GiveUp => g.opener.Backoff?
    case EndContext => true
    case CloseStop => g.unsub.NotCalled?
    case ReadCurrent => g.unsub.StopClosed?
    case HalfClose => g.unsub.HasCurrent? && (g.unsub.cur.Some? ==> g.unsub.cur.value in g.streams)
    case Force => g.unsub.HalfClosed?
  }

  function CancelAll(g: Group): Group {
    g.(ctxDone := true, streams := map i | i in g.streams :: g.streams[i].(cancelled := true))
  }

  function Cancel(g: Group, i: nat): Group
    requires i in g.streams
  {
    g.(streams := g.streams[i := g.streams[i].(cancelled := true)])
  }

  /** run returns once it is stopped or its context is done. */
  function Onward(g: Group, again: bool): Opener {
    if g.stopped || g.ctxDone || !again then Done else Backoff
  }

  function Next(g: Group, s: Step): Group
    requires Enabled(g, s)
  {
    match s
    case Open(i) => g.(streams := g.streams[i := Stream(false, false, g.ctxDone, false)], opener := Opening(i))
    case ServerJoins(i) => g.(streams := g.streams[i := g.streams[i].(joined := true)])
    case ServerEnds(i) => g.(streams := g.streams[i := g.streams[i].(serverEnded := true)])
    case ReceiveJoined => g.(opener := Joined(g.opener.i))
    case ReceiveFails => g.(opener := Refusing(g.opener.i))
    case Install =>
      if g.stopped then g.(opener := Refusing(g.opener.i))
      else g.(cur := Some(g.opener.i), opener := Reading(g.opener.i))
    case CancelRefused(again) => Cancel(g, g.opener.i).(opener := Onward(g, again))
    case EndRead => g.(opener := Finishing(g.opener.i))
    case FinishRead(again) => Cancel(g, g.opener.i).(opener := Onward(g, again))
    case GiveUp => g.(opener := Done)
    case EndContext => CancelAll(g)
    case CloseStop => g.(stopped := true, unsub := StopClosed)
    case ReadCurrent => g.(unsub := HasCurrent(g.cur))
    case HalfClose =>
      if g.unsub.cur.None? then g.(unsub := HalfClosed)
      else
        var i := g.unsub.cur.value;
        g.(streams := g.streams[i := g.streams[i].(halfClosed := true)], unsub := HalfClosed)
    case Force => CancelAll(g).(unsub := Forced)
  }

  predicate Init(g: Group) {
    && g.streams == map[] && g.cur == None && !g.stopped && !g.ctxDone && g.opener == Backoff
    && g.unsub == NotCalled
  }

  // ------------------------------------------------------------------ invariant

  /** The server sees the stream go, and the member leaves the group. */
  predicate Over(t: Stream) {
    t.halfClosed || t.cancelled || t.serverEnded
  }

  predicate Holds(o: Opener, i: nat) {
    !o.Backoff? && !o.Done? && o.i == i
  }

  /** Every stream the opener has let go of is cancelled. */
  predicate LetGoIsCancelled(g: Group) {
    && (forall i | i in g.streams && !Holds(g.opener, i) :: g.streams[i].cancelled)
    && (!g.opener.Backoff? && !g.opener.Done? ==> g.opener.i in g.streams)
    && (g.ctxDone ==> forall i | i in g.streams :: g.streams[i].cancelled)
  }

  /** What is read is the current stream, and the current stream was read. */
  predicate ReadsCurrent(g: Group) {
    && (g.opener.Reading? || g.opener.Finishing? ==> g.cur == Some(g.opener.i))
    && (g.cur.Some? ==> g.cur.value in g.streams)
    && (g.opener.Opening? || g.opener.Joined? || g.opener.Refusing? ==> g.cur != Some(g.opener.i))
  }

  /** Unsubscribe closes stopCh first, so what it reads stays current, and is then half-closed. */
  predicate StopsCurrent(g: Group) {
    && (g.stopped <==> !g.unsub.NotCalled?)
    && (g.unsub.HasCurrent? ==> g.unsub.cur == g.cur)
    && (g.unsub.HalfClosed? && g.cur.Some? ==> g.cur.value in g.streams && g.streams[g.cur.value].halfClosed)
    && (g.unsub.Forced? ==> g.ctxDone)
  }

  predicate Inv(g: Group) {
    LetGoIsCancelled(g) && ReadsCurrent(g) && StopsCurrent(g)
  }

  lemma NextKeeps(g: Group, s: Step)
    requires Inv(g) && Enabled(g, s)
    ensures Inv(Next(g, s))
    ensures g.stopped ==> Next(g, s).stopped && Next(g, s).cur == g.cur
  {
  }

  // ---------------------------------------------------------------- main results

  ghost predicate IsRun(gs: seq<Group>, steps: seq<Step>) {
    && |gs| == |steps| + 1 && Init(gs[0])
    && forall k | 0 <= k < |steps| :: Enabled(gs[k], steps[k]) && gs[k + 1] == Next(gs[k], steps[k])
  }

  lemma {:induction false} RunKeeps(gs: seq<Group>, steps: seq<Step>, n: nat)
    requires IsRun(gs, steps) && n <= |steps|
    ensures Inv(gs[n])
  {
    if n > 0 {
      RunKeeps(gs, steps, n - 1);
      var m := n - 1;
      assert gs[m + 1] == Next(gs[m], steps[m]);
      NextKeeps(gs[m], steps[m]);
    }
  }

  /** At most one joined stream is live at any time: the one in the opener's hands. */
  lemma AtMostOneMember(gs: seq<Group>, steps: seq<Step>, n: nat, i: nat, j: nat)
    requires IsRun(gs, steps) && n <= |steps| && i in gs[n].streams && j in gs[n].streams
    requires !Over(gs[n].streams[i]) && !Over(gs[n].streams[j])
    ensures i == j && Holds(gs[n].opener, i)
  {
    RunKeeps(gs, steps, n);
  }

  lemma StopStep(gs: seq<Group>, steps: seq<Step>, k: nat)
    requires IsRun(gs, steps) && k < |steps|
    ensures gs[k].stopped ==> gs[k + 1].stopped && gs[k + 1].cur == gs[k].cur
  {
    RunKeeps(gs, steps, k);
    assert gs[k + 1] == Next(gs[k], steps[k]);
    NextKeeps(gs[k], steps[k]);
  }

  /** The current stream never changes again once stopCh is closed, whatever joins land. */
  lemma {:induction false} NoJoinAfterStop(gs: seq<Group>, steps: seq<Step>, m: nat, n: nat)
    requires IsRun(gs, steps) && m <= n <= |steps| && gs[m].stopped
    ensures gs[n].stopped && gs[n].cur == gs[m].cur
    decreases n
  {
    if m < n {
      NoJoinAfterStop(gs, steps, m, n - 1);
      StopStep(gs, steps, n - 1);
    }
  }

  /** The opener holds a stream it has not installed. */
  predicate InHand(o: Opener, i: nat) {
    (o.Opening? || o.Joined? || o.Refusing?) && o.i == i
  }

  /** No member outlives Unsubscribe: once it has half-closed, every joined stream is over, or is
      one join still in the opener's hands; and once it has forced the teardown, all are over. */
  lemma NoMemberOutlivesUnsubscribe(gs: seq<Group>, steps: seq<Step>, n: nat, i: nat)
    requires IsRun(gs, steps) && n <= |steps| && i in gs[n].streams && gs[n].streams[i].joined
    requires gs[n].unsub.HalfClosed? || gs[n].unsub.Forced?
    ensures Over(gs[n].streams[i]) || InHand(gs[n].opener, i)
    ensures gs[n].unsub.Forced? || gs[n].opener.Done? ==> Over(gs[n].streams[i])
  {
    RunKeeps(gs, steps, n);
  }

  predicate RefusedOrInHand(g: Group, i: nat) {
    i in g.streams && (InHand(g.opener, i) || g.streams[i].cancelled)
  }

  lemma StepRefuses(g: Group, s: Step, i: nat)
    requires Inv(g) && Enabled(g, s) && g.stopped && RefusedOrInHand(g, i)
    ensures RefusedOrInHand(Next(g, s), i)
  {
  }

  /** Over whole runs: a join in hand when stopCh closes is never installed, and leaves the
      opener's hands only cancelled. */
  lemma {:induction false} LateJoinIsRefused(gs: seq<Group>, steps: seq<Step>, m: nat, n: nat, i: nat)
    requires IsRun(gs, steps) && m <= n <= |steps| && gs[m].stopped && InHand(gs[m].opener, i)
    ensures RefusedOrInHand(gs[n], i) && gs[n].cur != Some(i)
    decreases n
  {
    RunKeeps(gs, steps, m);
    NoJoinAfterStop(gs, steps, m, n);
    if m < n {
      var k := n - 1;
      LateJoinIsRefused(gs, steps, m, k, i);
      NoJoinAfterStop(gs, steps, m, k);
      RunKeeps(gs, steps, k);
      assert gs[k + 1] == Next(gs[k], steps[k]);
      StepRefuses(gs[k], steps[k], i);
    }
  }

  // ------------------------------------------------------------------- progress

  /** A step of the goroutine that opens and reads. */
  predicate ByOpener(s: Step) {
    || s.Open? || s.ReceiveJoined? || s.ReceiveFails? || s.Install? || s.CancelRefused? || s.EndRead?
    || s.FinishRead? || s.GiveUp?
  }

  /** How many more steps the opener can take once stopCh is closed. */
  function Rank(o: Opener): nat {
    match o
    case Backoff => 5
    case Opening(_) => 4
    case Joined(_) => 3
    case Refusing(_) => 2
    case Reading(_) => 2
    case Finishing(_) => 1
    case Done => 0
  }

  lemma StoppedRank(g: Group, s: Step)
    requires Inv(g) && Enabled(g, s) && g.stopped
    ensures ByOpener(s) ==> Rank(Next(g, s).opener) < Rank(g.opener)
    ensures !ByOpener(s) ==> Next(g, s).opener == g.opener
  {
  }

  function OpenerSteps(steps: seq<Step>): nat {
    if steps == [] then 0
    else OpenerSteps(steps[..|steps| - 1]) + if ByOpener(steps[|steps| - 1]) then 1 else 0
  }

  /** However the rest interleaves, after stopCh is closed the opener takes at most as many more
      steps as its rank, five at most; a join or rejoin under way is among them. */
  lemma {:induction false} OpenerStopsSoon(gs: seq<Group>, steps: seq<Step>, m: nat, n: nat)
    requires IsRun(gs, steps) && m <= n <= |steps| && gs[m].stopped
    ensures OpenerSteps(steps[m..n]) + Rank(gs[n].opener) <= Rank(gs[m].opener)
    decreases n
  {
    if m < n {
      var k := n - 1;
      OpenerStopsSoon(gs, steps, m, k);
      NoJoinAfterStop(gs, steps, m, k);
      RunKeeps(gs, steps, k);
      assert Enabled(gs[k], steps[k]) && gs[k + 1] == Next(gs[k], steps[k]);
      StoppedRank(gs[k], steps[k]);
      assert steps[m..n][..n - m - 1] == steps[m..k];
    }
  }

  /** The step the opener takes when nothing more arrives from the server. */
  function Mover(o: Opener): Step {
    match o
    case Backoff => GiveUp
    case Opening(_) => ReceiveFails
    case Joined(_) => Install
    case Refusing(_) => CancelRefused(false)
    case Reading(_) => EndRead
    case Finishing(_) => FinishRead(false)
    case Done => EndContext
  }

  /** It can always take one, and when it has taken its last every joined stream is over: a join in
      hand is refused and cancelled, and the stream it was reading is cancelled too. */
  lemma OpenerCanStop(gs: seq<Group>, steps: seq<Step>, n: nat, i: nat)
    requires IsRun(gs, steps) && n <= |steps| && gs[n].stopped && i in gs[n].streams
    ensures gs[n].opener.Done? ==> Over(gs[n].streams[i]) && gs[n].streams[i].cancelled
    ensures !gs[n].opener.Done? ==>
              && Enabled(gs[n], Mover(gs[n].opener))
              && Rank(Next(gs[n], Mover(gs[n].opener)).opener) < Rank(gs[n].opener)
  {
    RunKeeps(gs, steps, n);
    if !gs[n].opener.Done? { StoppedRank(gs[n], Mover(gs[n].opener)); }
  }
  // ------------------------------------------------------------ joining and rejoining

  /** In every run, a join that takes the lock is installed if and only if stopCh is still open. */
  lemma InstalledIff(gs: seq<Group>, steps: seq<Step>, n: nat)
    requires IsRun(gs, steps) && n < |steps| && steps[n] == Install
    ensures gs[n].opener.Joined?
    ensures var i := gs[n].opener.i;
            && (gs[n + 1].cur == Some(i) <==> !gs[n].stopped)
            && gs[n + 1].opener == (if gs[n].stopped then Refusing(i) else Reading(i))
            && (gs[n].stopped ==> gs[n + 1].cur == gs[n].cur)
  {
    RunKeeps(gs, steps, n);
    assert Enabled(gs[n], steps[n]) && gs[n + 1] == Next(gs[n], steps[n]);
  }

  /** A read that is over, or a join that was let go, is followed by another attempt if and only if the
      error permits it and neither Unsubscribe nor the context has ended the subscription. */
  lemma GoesOnIff(gs: seq<Group>, steps: seq<Step>, n: nat)
    requires IsRun(gs, steps) && n < |steps| && (steps[n].FinishRead? || steps[n].CancelRefused?)
    ensures gs[n + 1].opener.Backoff? <==> steps[n].again && !gs[n].stopped && !gs[n].ctxDone
    ensures gs[n + 1].opener.Backoff? || gs[n + 1].opener.Done?
    ensures gs[n].opener.i in gs[n + 1].streams && gs[n + 1].streams[gs[n].opener.i].cancelled
  {
    assert Enabled(gs[n], steps[n]) && gs[n + 1] == Next(gs[n], steps[n]);
  }

  /** And an attempt that nothing disturbs joins: from every reachable state in which the opener is about
      to open, the server's joined frame makes the new stream the current one, live and being read. */
  lemma UndisturbedJoin(gs: seq<Group>, steps: seq<Step>, n: nat, i: nat)
    requires IsRun(gs, steps) && n <= |steps| && gs[n].opener.Backoff? && !gs[n].stopped && !gs[n].ctxDone
    requires i !in gs[n].streams
    ensures var g1 := Next(gs[n], Open(i));
            && Enabled(g1, ServerJoins(i))
            && var g2 := Next(g1, ServerJoins(i));
               && Enabled(g2, ReceiveJoined)
               && var g3 := Next(g2, ReceiveJoined);
                  && Enabled(g3, Install)
                  && var g4 := Next(g3, Install);
                     && g4.cur == Some(i) && g4.opener == Reading(i)
                     && i in g4.streams && g4.streams[i].joined && !Over(g4.streams[i])
  {
  }
  /** When the join context ends, every stream opened so far is cancelled, and so is every later one. */
  lemma {:induction false} ContextEndsStreams(gs: seq<Group>, steps: seq<Step>, m: nat, n: nat, i: nat)
    requires IsRun(gs, steps) && m < n <= |steps| && steps[m] == EndContext
    ensures gs[n].ctxDone && (i in gs[n].streams ==> gs[n].streams[i].cancelled)
    decreases n
  {
    var k := n - 1;
    if m < k { ContextEndsStreams(gs, steps, m, k, i); }
    RunKeeps(gs, steps, n);
    assert Enabled(gs[k], steps[k]) && gs[k + 1] == Next(gs[k], steps[k]);
  }
}
