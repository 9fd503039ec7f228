/** Command deduplication (ironflow/command_dedup.go).

    Any number of callers claim one command id through a key-value entry with conditional
    create.  Creates, puts and deletes are atomic at the store, and their replies may be lost. */
module CommandDedup {
  import opened Optional

  const CLAIM_ATTEMPTS: nat := 3

  /** The stored entry: whose claim it is, and whether it is the finalized result. */
  datatype Entry = Entry(owner: nat, final: bool, value: int)

  /** Where a caller stands. */
  datatype Caller =
    | Trying(round: nat)     // about to create
    | Reading(round: nat)    // lost a create, about to read
    | Won                    // TryClaim returned (nil, nil)
    | Finalizing(value: int) // Finalize was called and reported an error
    | Finalized(value: int)
    | Released
    | Prior(entry: Entry)    // TryClaim returned an entry
    | Raced                  // COMMAND_DEDUP_RACE
    | Failed                 // TryClaim returned another error

  datatype CreateReply = Created | PreconditionFailed | CreateError
  datatype GetReply = Found(entry: Entry) | NotFound | GetError

  // ------------------------------------------------------------------ the caller

  function AfterCreate(round: nat, reply: CreateReply): Caller {
    match reply
    case Created => Won
    case PreconditionFailed => Reading(round)
    case CreateError => Failed
  }

  function AfterGet(round: nat, reply: GetReply): Caller {
    match reply
    case Found(e) => Prior(e)
    case NotFound => if round + 1 < CLAIM_ATTEMPTS then Trying(round + 1) else Raced
    case GetError => Failed
  }

  /** A caller driven to the end of TryClaim by the replies it gets in each round. */
  ghost function Drive(c: Caller, creates: seq<CreateReply>, gets: seq<GetReply>): Caller
    requires |creates| == |gets| == CLAIM_ATTEMPTS
    requires c.Trying? || c.Reading? ==> c.round < CLAIM_ATTEMPTS
    decreases match c
              case Trying(n) => 2 * (CLAIM_ATTEMPTS - n) + 1
              case Reading(n) => 2 * (CLAIM_ATTEMPTS - n)
              case _ => 0
  {
    match c
    case Trying(n) => Drive(AfterCreate(n, creates[n]), creates, gets)
    case Reading(n) => Drive(AfterGet(n, gets[n]), creates, gets)
    case _ => c
  }

  /** In this round the create was refused and the entry was gone by the read. */
  predicate Lost(creates: seq<CreateReply>, gets: seq<GetReply>, i: nat)
    requires i < |creates| == |gets|
  {
    creates[i] == PreconditionFailed && gets[i] == NotFound
  }

  /** The first round that is not lost. */
  ghost predicate Decisive(creates: seq<CreateReply>, gets: seq<GetReply>, i: nat)
    requires i < |creates| == |gets|
  {
    !Lost(creates, gets, i) && forall j | 0 <= j < i :: Lost(creates, gets, j)
  }

  /** TryClaim's loop, for every sequence of replies: the first round that is not lost decides. */
  method TryClaim(creates: seq<CreateReply>, gets: seq<GetReply>) returns (r: Caller)
    requires |creates| == |gets| == CLAIM_ATTEMPTS
    ensures r == Drive(Trying(0), creates, gets)
    ensures r.Won? || r.Prior? || r.Raced? || r.Failed?
    ensures r.Raced? <==> forall i | 0 <= i < CLAIM_ATTEMPTS :: Lost(creates, gets, i)
    ensures forall i | 0 <= i < CLAIM_ATTEMPTS && Decisive(creates, gets, i) ::
              r == if creates[i] == Created then Won
                   else if creates[i] == PreconditionFailed && gets[i].Found? then Prior(gets[i].entry)
                   else Failed
  {
    for round := 0 to CLAIM_ATTEMPTS
      invariant Drive(Trying(0), creates, gets) ==
                  Drive(if round < CLAIM_ATTEMPTS then Trying(round) else Raced, creates, gets)
      invariant forall i | 0 <= i < round :: Lost(creates, gets, i)
    {
      assert Lost(creates, gets, round) <==> creates[round] == PreconditionFailed && gets[round] == NotFound;
      if creates[round] == Created { return Won; }
      if creates[round] != PreconditionFailed { return Failed; }
      assert Drive(Trying(round), creates, gets) == Drive(Reading(round), creates, gets);
      match gets[round] {
        case NotFound =>
        case GetError =>
          assert Drive(Reading(round), creates, gets) == Failed;
          return Failed;
        case Found(entry) =>
          assert Drive(Reading(round), creates, gets) == Prior(entry);
          return Prior(entry);
      }
    }
    return Raced;
  }

  // ------------------------------------------------------------------ the system

  datatype System = System(entry: Option<Entry>, callers: map<nat, Caller>)

  /** What becomes of a request: applied and answered, applied with its reply lost, or lost
      before it was applied. */
  datatype Net = Applied | ReplyLost | NotSent

  datatype Step =
    | Start(c: nat)
    | Create(c: nat, claim: int, net: Net)
    | Get(c: nat, lost: bool)
    | Finalize(c: nat, value: int, net: Net)
    | Release(c: nat, net: Net)

  function CallerOf(s: System, c: nat): Caller {
    if c in s.callers then s.callers[c] else Released
  }

  /** The discipline the documentation asks for: only a claim winner releases or finalizes,
      never a release after a finalize, and each release is attempted once. */
  predicate Enabled(s: System, step: Step) {
    match step
    case Start(c) => c !in s.callers
    case Create(c, _, _) => CallerOf(s, c).Trying?
    case Get(c, _) => CallerOf(s, c).Reading?
    case Finalize(c, v, _) => CallerOf(s, c).Won? || CallerOf(s, c) == Finalizing(v)
    case Release(c, _) => CallerOf(s, c).Won?
  }

  /** Create is If-None-Match: * (section 13.1.2 of RFC 9110). */
  function Next(s: System, step: Step): System {
    match step
    case Start(c) => s.(callers := s.callers[c := Trying(0)])
    case Create(c, claim, net) =>
      var round := if CallerOf(s, c).Trying? then CallerOf(s, c).round else 0;
      if net == NotSent then s.(callers := s.callers[c := AfterCreate(round, CreateError)])
      else if s.entry.Some? then
        s.(callers := s.callers[c := AfterCreate(round, if net == Applied then PreconditionFailed else CreateError)])
      else
        System(Some(Entry(c, false, claim)),
               s.callers[c := AfterCreate(round, if net == Applied then Created else CreateError)])
    case Get(c, lost) =>
      var round := if CallerOf(s, c).Reading? then CallerOf(s, c).round else 0;
      var reply := if lost then GetError else if s.entry.Some? then Found(s.entry.value) else NotFound;
      s.(callers := s.callers[c := AfterGet(round, reply)])
    case Finalize(c, v, net) =>
      System(if net == NotSent then s.entry else Some(Entry(c, true, v)),
             s.callers[c := if net == Applied then Finalized(v) else Finalizing(v)])
    case Release(c, net) =>
      System(if net == NotSent then s.entry else None, s.callers[c := Released])
  }

  const INITIAL := System(None, map[])

  ghost predicate IsRun(ss: seq<System>, steps: seq<Step>) {
    && |ss| == |steps| + 1 && ss[0] == INITIAL
    && forall i | 0 <= i < |steps| :: Enabled(ss[i], steps[i]) && ss[i + 1] == Next(ss[i], steps[i])
  }

  /** A caller that may act as the one executor of the command. */
  predicate IsWinner(c: Caller) {
    c.Won? || c.Finalizing? || c.Finalized?
  }

  ghost predicate Inv(s: System) {
    && (forall c | c in s.callers && IsWinner(s.callers[c]) :: s.entry.Some? && s.entry.value.owner == c)
    && (forall c | c in s.callers && s.callers[c].Won? :: !s.entry.value.final)
    && (forall c | c in s.callers && s.callers[c].Finalized? :: s.entry == Some(Entry(c, true, s.callers[c].value)))
    && (s.entry.Some? && s.entry.value.final ==>
          var o := s.entry.value.owner;
          && o in s.callers
          && (s.callers[o] == Finalized(s.entry.value.value) || s.callers[o] == Finalizing(s.entry.value.value)))
  }

  lemma NextKeeps(s: System, step: Step)
    requires Inv(s) && Enabled(s, step)
    ensures Inv(Next(s, step))
    ensures s.entry.Some? && s.entry.value.final ==> Next(s, step).entry == s.entry
  {
    var s' := Next(s, step);
    forall c | c in s'.callers && IsWinner(s'.callers[c]) ensures s'.entry.Some? && s'.entry.value.owner == c {
      if c != step.c { assert c in s.callers && IsWinner(s.callers[c]); }
      assert step.c in s.callers && IsWinner(s.callers[step.c]) ==> s.entry.value.owner == step.c;
    }
  }

  lemma {:induction false} RunKeeps(ss: seq<System>, steps: seq<Step>, n: nat)
    requires IsRun(ss, steps) && n <= |steps|
    ensures Inv(ss[n])
  {
    if n > 0 {
      RunKeeps(ss, steps, n - 1);
      var m := n - 1;
      assert ss[m + 1] == Next(ss[m], steps[m]);
      NextKeeps(ss[m], steps[m]);
    }
  }

  // ---------------------------------------------------------------- main results

  /** At most one winner of a command id is live, for any number of callers, lost races and
      lost replies. */
  lemma AtMostOneWinner(ss: seq<System>, steps: seq<Step>, n: nat, c: nat, d: nat)
    requires IsRun(ss, steps) && n <= |steps|
    requires c in ss[n].callers && d in ss[n].callers && IsWinner(ss[n].callers[c]) && IsWinner(ss[n].callers[d])
    ensures c == d
  {
    RunKeeps(ss, steps, n);
  }

  lemma {:induction false} FinalEntryStays(ss: seq<System>, steps: seq<Step>, m: nat, n: nat)
    requires IsRun(ss, steps) && m <= n <= |steps|
    requires ss[m].entry.Some? && ss[m].entry.value.final
    ensures ss[n].entry == ss[m].entry
    decreases n
  {
    if m < n {
      FinalEntryStays(ss, steps, m, n - 1);
      RunKeeps(ss, steps, n - 1);
      var k := n - 1;
      assert ss[k + 1] == Next(ss[k], steps[k]);
      NextKeeps(ss[k], steps[k]);
    }
  }

  /** Once a Finalize has reached the store, with or without its reply, every TryClaim that
      reads an entry afterwards returns the finalized value, and no create succeeds again. */
  lemma FinalizedValueIsReturned(ss: seq<System>, steps: seq<Step>, m: nat, n: nat)
    requires IsRun(ss, steps) && m < n < |steps|
    requires steps[m].Finalize? && steps[m].net != NotSent
    ensures ss[n].entry == Some(Entry(steps[m].c, true, steps[m].value))
    ensures steps[n].Get? && !steps[n].lost ==>
              CallerOf(ss[n + 1], steps[n].c) == Prior(Entry(steps[m].c, true, steps[m].value))
    ensures steps[n].Create? ==> !CallerOf(ss[n + 1], steps[n].c).Won?
  {
    assert ss[m + 1] == Next(ss[m], steps[m]);
    FinalEntryStays(ss, steps, m + 1, n);
    assert ss[n + 1] == Next(ss[n], steps[n]);
  }

  /** What each request means for its caller, in every run: a create on an empty store wins when its
      reply arrives, a create on a taken one goes on to read, and a read that finds an entry ends the
      claim with exactly that entry; and a finalize whose reply arrives is done. */
  lemma RequestsAnswer(ss: seq<System>, steps: seq<Step>, n: nat)
    requires IsRun(ss, steps) && n < |steps|
    ensures steps[n].Create? && steps[n].net == Applied ==>
              if ss[n].entry.None?
              then && ss[n + 1].entry == Some(Entry(steps[n].c, false, steps[n].claim))
                   && CallerOf(ss[n + 1], steps[n].c).Won?
              else ss[n + 1].entry == ss[n].entry && CallerOf(ss[n + 1], steps[n].c).Reading?
    ensures steps[n].Get? && !steps[n].lost && ss[n].entry.Some? ==>
              ss[n + 1].entry == ss[n].entry && CallerOf(ss[n + 1], steps[n].c) == Prior(ss[n].entry.value)
    ensures steps[n].Finalize? ==>
              && CallerOf(ss[n + 1], steps[n].c) ==
                   (if steps[n].net == Applied then Finalized(steps[n].value) else Finalizing(steps[n].value))
              && ss[n + 1].entry ==
                   if steps[n].net == NotSent then ss[n].entry else Some(Entry(steps[n].c, true, steps[n].value))
  {
    assert Enabled(ss[n], steps[n]) && ss[n + 1] == Next(ss[n], steps[n]);
  }

  // ------------------------------------------------------- releases out of turn

  /** Without the discipline, a caller may also release again, or without having won. */
  predicate MayRelease(c: Caller) {
    c.Won? || c.Released? || c.Prior? || c.Raced? || c.Failed?
  }

  predicate LooselyEnabled(s: System, step: Step) {
    Enabled(s, step) || (step.Release? && step.c in s.callers && MayRelease(s.callers[step.c]))
  }

  /** The release reaches the store while another caller is the winner. */
  predicate Harmful(s: System, step: Step) {
    step.Release? && step.net != NotSent && exists d | d in s.callers :: d != step.c && IsWinner(s.callers[d])
  }

  /** A release breaks what keeps the winner alone, if and only if it is harmful. */
  lemma ReleaseKeepsIff(s: System, c: nat, net: Net)
    requires Inv(s) && LooselyEnabled(s, Release(c, net))
    ensures Inv(Next(s, Release(c, net))) <==> !Harmful(s, Release(c, net))
  {
    var s' := Next(s, Release(c, net));
    if Harmful(s, Release(c, net)) {
      var d :| d in s.callers && d != c && IsWinner(s.callers[d]);
      assert d in s'.callers && IsWinner(s'.callers[d]);
    } else {
      assert forall d | d in s'.callers && IsWinner(s'.callers[d]) :: d in s.callers && d != c;
    }
  }

  ghost predicate IsLooseRun(ss: seq<System>, steps: seq<Step>) {
    && |ss| == |steps| + 1 && ss[0] == INITIAL
    && forall i | 0 <= i < |steps| :: LooselyEnabled(ss[i], steps[i]) && ss[i + 1] == Next(ss[i], steps[i])
  }

  ghost predicate SoundThrough(ss: seq<System>, n: nat)
    requires n < |ss|
  {
    forall i | 0 <= i <= n :: Inv(ss[i])
  }

  ghost predicate NoHarm(ss: seq<System>, steps: seq<Step>, n: nat)
    requires n <= |steps| && n <= |ss|
  {
    forall i | 0 <= i < n :: !Harmful(ss[i], steps[i])
  }

  /** Over every run with releases out of turn, the protocol stays sound if and only if none of
      them reaches the store while another caller is the winner. */
  lemma {:induction false} SoundIffNoHarm(ss: seq<System>, steps: seq<Step>, n: nat)
    requires IsLooseRun(ss, steps) && n <= |steps|
    ensures SoundThrough(ss, n) <==> NoHarm(ss, steps, n)
  {
    if n > 0 {
      var k := n - 1;
      SoundIffNoHarm(ss, steps, k);
      assert LooselyEnabled(ss[k], steps[k]) && ss[k + 1] == Next(ss[k], steps[k]);
      if SoundThrough(ss, k) {
        if steps[k].Release? { ReleaseKeepsIff(ss[k], steps[k].c, steps[k].net); }
        else { NextKeeps(ss[k], steps[k]); }
      }
    }
  }

  /** At most one winner is live. */
  ghost predicate OneWinner(s: System) {
    forall c, d | c in s.callers && d in s.callers && IsWinner(s.callers[c]) && IsWinner(s.callers[d]) :: c == d
  }

  ghost predicate Continues(s: System, ss: seq<System>, steps: seq<Step>) {
    && |ss| == |steps| + 1 && ss[0] == s
    && forall i | 0 <= i < |steps| :: Enabled(ss[i], steps[i]) && ss[i + 1] == Next(ss[i], steps[i])
  }

  /** However the callers go on within the discipline, at most one winner is live. */
  ghost predicate Safe(s: System) {
    forall ss, steps | Continues(s, ss, steps) :: OneWinner(ss[|steps|])
  }

  lemma {:induction false} InvContinues(s: System, ss: seq<System>, steps: seq<Step>, n: nat)
    requires Inv(s) && Continues(s, ss, steps) && n <= |steps|
    ensures Inv(ss[n])
  {
    if n > 0 {
      var k := n - 1;
      InvContinues(s, ss, steps, k);
      assert Enabled(ss[k], steps[k]) && ss[k + 1] == Next(ss[k], steps[k]);
      NextKeeps(ss[k], steps[k]);
    }
  }

  /** With the entry gone beside a live winner, the next caller wins beside it. */
  lemma SecondWinner(s: System, winner: nat, late: nat)
    requires winner in s.callers && IsWinner(s.callers[winner]) && s.entry == None && late !in s.callers
    ensures !Safe(s)
  {
    var steps := [Start(late), Create(late, 0, Applied)];
    var s1 := Next(s, steps[0]);
    var s2 := Next(s1, steps[1]);
    var ss := [s, s1, s2];
    assert CallerOf(s1, late) == Trying(0) && s1.entry == None;
    assert Continues(s, ss, steps);
    assert s2.callers[late].Won? && s2.callers[winner] == s.callers[winner];
    assert !OneWinner(ss[|steps|]);
  }

  lemma {:induction false} NewCaller(taken: set<nat>) returns (late: nat)
    ensures late !in taken
    ensures forall c | c in taken :: c < late
  {
    late := 0;
    if taken != {} {
      var c :| c in taken;
      var least := NewCaller(taken - {c});
      late := if c < least then least else c + 1;
      assert forall x | x in taken :: x == c || x in taken - {c};
    }
  }

  /** The rule that a release is attempted once, by a winner, is needed exactly so far: from every
      sound state, after a release by any caller that is not at Finalize, at most one winner stays
      live however the callers go on, if and only if the release did not reach the store beside
      another winner, whether that one has only claimed or already finalized. */
  lemma ReleaseSafeIff(s: System, c: nat, net: Net)
    requires Inv(s) && LooselyEnabled(s, Release(c, net))
    ensures Safe(Next(s, Release(c, net))) <==> !Harmful(s, Release(c, net))
  {
    var s' := Next(s, Release(c, net));
    ReleaseKeepsIff(s, c, net);
    if Harmful(s, Release(c, net)) {
      var d :| d in s.callers && d != c && IsWinner(s.callers[d]);
      var late := NewCaller(s'.callers.Keys);
      SecondWinner(s', d, late);
    } else {
      forall ss, steps | Continues(s', ss, steps) ensures OneWinner(ss[|steps|]) {
        InvContinues(s', ss, steps, |steps|);
      }
    }
  }

  /** Such a state is reached: one caller claims and releases, the next claims, and the first
      releases once more. */
  lemma RepeatedReleaseBreaks(first: nat, second: nat, claim: int) returns (ss: seq<System>, steps: seq<Step>)
    requires first != second
    ensures IsLooseRun(ss, steps) && |steps| == 6 && steps[5] == Release(first, Applied) && NoHarm(ss, steps, 5)
    ensures Harmful(ss[5], steps[5]) && !Safe(ss[6])
  {
    steps := [Start(first), Create(first, claim, Applied), Release(first, Applied),
              Start(second), Create(second, claim, Applied), Release(first, Applied)];
    var s1 := Next(INITIAL, steps[0]);
    var s2 := Next(s1, steps[1]);
    var s3 := Next(s2, steps[2]);
    var s4 := Next(s3, steps[3]);
    var s5 := Next(s4, steps[4]);
    var s6 := Next(s5, steps[5]);
    ss := [INITIAL, s1, s2, s3, s4, s5, s6];
    assert s2.callers == map[first := Won];
    assert s5.callers == map[first := Released, second := Won];
    assert IsLooseRun(ss, steps);
    assert s6.callers[second].Won? && s6.entry == None;
    SecondWinner(s6, second, first + second + 1);
  }
}
