/** Many projection runners, one lease (ironflow/projection_runner.go, ADR 0120).

    Any number of runners acquire the lease, read events, load states, reduce and save, lose
    the lease, crash and save late, in any order.  The server grants a new epoch whenever it
    likes and refuses a save or an ack that carries an older one. */
module ProjectionLease {
  import opened Optional
  import opened Projections

  /** The server: all matching events in seq order, the saved states, the saved cursor (the seq of
      the last event they cover) and the epoch of the latest grant. */
  datatype Server = Server(log: seq<Event>, states: States, cursor: nat, epoch: nat)

  /** A runner's view of the projection. */
  datatype View =
    | Standby
    | Closed(epoch: nat)
    /** The stream has passed the first `pos` events of the log; `batch` is the last part of them, not yet
        saved, of which an external handler has handled the first `done`; `local` holds the
        states it works on. */
    | Open(epoch: nat, pos: nat, batch: seq<Event>, done: nat, local: States)

  /** `handled` are the seqs of the events an external handler has seen at least once. */
  datatype System = System(managed: bool, server: Server, views: map<nat, View>, handled: set<nat>)

  datatype Net = Applied | ReplyLost | Refused

  datatype Step =
    | Append(e: Event)
    | Acquire(r: nat)
    | OpenStream(r: nat)
    | Receive(r: nat, n: nat)
    | LoadState(r: nat, pk: string)
    | SaveRun(r: nat, n: nat, net: Net)
    | Handle(r: nat)
    | Ack(r: nat, net: Net)
    | Drop(r: nat)
    | Crash(r: nat)

  function ViewOf(s: System, r: nat): View {
    if r in s.views then s.views[r] else Standby
  }

  /** Seqs are positive and grow along the log. */
  predicate Later(e: Event, log: seq<Event>) {
    e.seq_ > 0 && (log != [] ==> log[|log| - 1].seq_ < e.seq_)
  }

  /** The server accepts a write only under the epoch of its latest grant. */
  predicate Fenced(s: System, epoch: nat, net: Net) {
    epoch != s.server.epoch ==> net == Refused
  }

  predicate Enabled(s: System, step: Step) {
    match step
    case Append(e) => Later(e, s.server.log)
    case Acquire(_) => true
    case OpenStream(r) => !ViewOf(s, r).Standby?
    case Receive(r, n) => ViewOf(s, r).Open? && ViewOf(s, r).pos + n <= |s.server.log|
    case LoadState(r, pk) => s.managed && ViewOf(s, r).Open?
    case SaveRun(r, n, net) =>
      var v := ViewOf(s, r);
      && s.managed && v.Open? && 0 < n <= |v.batch|
      && OnePartition(PartitionOf(v.batch[0]), v.batch[..n])
      && PartitionOf(v.batch[0]) in v.local
      && Fenced(s, v.epoch, net)
    case Handle(r) => !s.managed && ViewOf(s, r).Open? && ViewOf(s, r).done < |ViewOf(s, r).batch|
    case Ack(r, net) =>
      var v := ViewOf(s, r);
      !s.managed && v.Open? && 0 < v.done <= |v.batch| && Fenced(s, v.epoch, net)
    case Drop(r) => !ViewOf(s, r).Standby?
    case Crash(r) => true
  }

  /** How many events of the log the saved cursor covers. */
  function Covered(s: Server): nat {
    |UpTo(s.log, s.cursor)|
  }

  function Saving(s: Server, pk: string, state: State, cursor: nat, net: Net): Server {
    if net == Refused then s else s.(states := s.states[pk := state], cursor := cursor)
  }

  /** The stream delivers n more events. */
  function Received(s: Server, v: View, n: nat): View
    requires v.Open? && v.pos + n <= |s.log|
  {
    v.(pos := v.pos + n, batch := v.batch + s.log[v.pos..v.pos + n])
  }

  function Next(c: Config, s: System, step: Step): System
    requires Enabled(s, step)
  {
    match step
    case Append(e) => s.(server := s.server.(log := s.server.log + [e]))
    case Acquire(r) =>
      var epoch := s.server.epoch + 1;
      s.(server := s.server.(epoch := epoch), views := s.views[r := Closed(epoch)])
    case OpenStream(r) =>
      // the server rewinds to the saved cursor: the first event streamed is the first after it
      s.(views := s.views[r := Open(ViewOf(s, r).epoch, Covered(s.server), [], 0, map[])])
    case Receive(r, n) =>
      s.(views := s.views[r := Received(s.server, ViewOf(s, r), n)])
    case LoadState(r, pk) =>
      var v := ViewOf(s, r);
      s.(views := s.views[r := v.(local := v.local[pk := Reload(c, Raw(c, s.server.states, pk))])])
    case SaveRun(r, n, net) =>
      var v := ViewOf(s, r);
      var pk := PartitionOf(v.batch[0]);
      var state := Fold(c, v.local[pk], v.batch[..n]);
      s.(server := Saving(s.server, pk, state, v.batch[n - 1].seq_, net),
         views := s.views[r := if net == Applied
                               then v.(batch := v.batch[n..], local := v.local[pk := state], done := 0)
                               else Closed(v.epoch)])
    case Handle(r) =>
      var v := ViewOf(s, r);
      s.(handled := s.handled + {v.batch[v.done].seq_}, views := s.views[r := v.(done := v.done + 1)])
    case Ack(r, net) =>
      var v := ViewOf(s, r);
      s.(server := if net == Refused then s.server else s.server.(cursor := v.batch[v.done - 1].seq_),
         views := s.views[r := if net == Applied then v.(batch := v.batch[v.done..], done := 0)
                               else Closed(v.epoch)])
    case Drop(r) => s.(views := s.views[r := Closed(ViewOf(s, r).epoch)])
    case Crash(r) => s.(views := s.views[r := Standby])
  }

  // ------------------------------------------------------------------ invariant

  ghost predicate Init(s: System) {
    && s.server.log == [] && s.server.states == map[] && s.server.cursor == 0
    && s.views == map[] && s.handled == {}
  }

  /** What holds of every view: positions are real. */
  predicate ViewSound(s: System, v: View) {
    && (v.Standby? || v.epoch <= s.server.epoch)
    && (v.Open? ==> |v.batch| <= v.pos <= |s.server.log| && v.done <= |v.batch|)
  }

  /** What holds of the one view with the current epoch: its batch starts right after the saved
      cursor, and its states behave like the saved ones. */
  ghost predicate HolderSound(c: Config, s: System, v: View) {
    v.Open? && v.epoch == s.server.epoch ==>
      && BatchInPlace(s.server, v)
      && LocalSound(c, s.server.states, v.local)
      && (forall i | 0 <= i < v.done && i < |v.batch| :: v.batch[i].seq_ in s.handled)
  }

  predicate BatchInPlace(s: Server, v: View)
    requires v.Open?
  {
    Covered(s) <= v.pos <= |s.log| && v.batch == s.log[Covered(s)..v.pos]
  }

  ghost predicate LocalSound(c: Config, states: States, local: States) {
    forall pk | pk in local :: Same(c, local[pk], Raw(c, states, pk))
  }

  /** The log is in seq order and the cursor is not past it. */
  predicate LogSound(s: Server) {
    && Increasing(s.log) && (forall i | 0 <= i < |s.log| :: s.log[i].seq_ > 0)
    && s.cursor <= (if s.log == [] then 0 else s.log[|s.log| - 1].seq_)
  }

  ghost predicate ServerSound(c: Config, s: System) {
    && LogSound(s.server)
    && (s.managed ==> s.server.states == FoldAll(c, map[], UpTo(s.server.log, s.server.cursor)))
    && (!s.managed ==> forall e | e in UpTo(s.server.log, s.server.cursor) :: e.seq_ in s.handled)
  }

  ghost predicate Inv(c: Config, s: System) {
    && ServerSound(c, s)
    && (forall r | r in s.views :: ViewSound(s, s.views[r]) && HolderSound(c, s, s.views[r]))
    && (forall r, q | r in s.views && q in s.views && r != q :: Apart(s.views[r], s.views[q]))
  }

  /** No two views share an epoch. */
  predicate Apart(v: View, w: View) {
    v.Standby? || w.Standby? || v.epoch != w.epoch
  }

  lemma FoldedFromLog(c: Config, s: System)
    requires ServerSound(c, s) && s.managed
    ensures FoldedStates(c, s.server.states)
  {
    FoldAllKeepsFolded(c, map[], UpTo(s.server.log, s.server.cursor));
  }

  /** Changing one view, and nothing of the server, keeps the invariant. */
  lemma OnlyView(c: Config, s: System, r: nat, v: View, handled: set<nat>)
    requires Inv(c, s) && s.handled <= handled
    requires ViewSound(s, v) && HolderSound(c, s.(handled := handled), v)
    requires v.Standby? || (!ViewOf(s, r).Standby? && v.epoch == ViewOf(s, r).epoch)
    ensures Inv(c, s.(views := s.views[r := v], handled := handled))
  {
    var s' := s.(views := s.views[r := v], handled := handled);
    forall q | q in s'.views ensures ViewSound(s', s'.views[q]) && HolderSound(c, s', s'.views[q]) {
      if q != r { assert ViewSound(s, s.views[q]) && HolderSound(c, s, s.views[q]); }
    }
    forall p, q | p in s'.views && q in s'.views && p != q ensures Apart(s'.views[p], s'.views[q]) {
      if r in s.views && !v.Standby? {
        if p == r { assert Apart(s.views[r], s.views[q]); }
        if q == r { assert Apart(s.views[p], s.views[r]); }
      }
      if p != r && q != r { assert Apart(s.views[p], s.views[q]); }
    }
  }

  lemma ViewKeeps(c: Config, s: System, r: nat, v: View)
    requires Inv(c, s) && ViewSound(s, v) && HolderSound(c, s, v)
    requires v.Standby? || (!ViewOf(s, r).Standby? && v.epoch == ViewOf(s, r).epoch)
    ensures Inv(c, s.(views := s.views[r := v]))
  {
    OnlyView(c, s, r, v, s.handled);
    assert s.(views := s.views[r := v]) == s.(views := s.views[r := v], handled := s.handled);
  }

  lemma CutAppended(log: seq<Event>, e: Event, cursor: nat, n: nat)
    requires n <= |log| && e.seq_ > cursor && forall i | 0 <= i < |log| :: log[i].seq_ <= cursor <==> i < n
    ensures UpTo(log + [e], cursor) == log[..n]
  {
    CutHere(log + [e], cursor, n);
    assert (log + [e])[..n] == log[..n];
  }

  /** A later event is after the cursor, and what the cursor covers does not change. */
  lemma AppendCovers(s: Server, e: Event)
    requires LogSound(s) && Later(e, s.log)
    ensures var s' := s.(log := s.log + [e]);
            LogSound(s') && UpTo(s'.log, s'.cursor) == UpTo(s.log, s.cursor) && Covered(s) <= |s.log|
  {
    CutAt(s.log, s.cursor);
    CutAppended(s.log, e, s.cursor, Covered(s));
  }

  lemma AppendKeeps(c: Config, s: System, e: Event)
    requires Inv(c, s) && Enabled(s, Append(e))
    ensures Inv(c, Next(c, s, Append(e)))
  {
    var s' := Next(c, s, Append(e));
    var n := Covered(s.server);
    AppendCovers(s.server, e);
    forall r | r in s'.views ensures ViewSound(s', s'.views[r]) && HolderSound(c, s', s'.views[r]) {
      var v := s.views[r];
      assert ViewSound(s, v) && HolderSound(c, s, v);
      if v.Open? && v.epoch == s.server.epoch {
        assert s'.server.log[n..v.pos] == s.server.log[n..v.pos];
      }
    }
  }

  lemma AcquireKeeps(c: Config, s: System, r: nat)
    requires Inv(c, s)
    ensures Inv(c, Next(c, s, Acquire(r)))
  {
    var s' := Next(c, s, Acquire(r));
    forall q | q in s'.views ensures ViewSound(s', s'.views[q]) && HolderSound(c, s', s'.views[q]) {
      if q != r { assert ViewSound(s, s.views[q]); }
    }
    forall p, q | p in s'.views && q in s'.views && p != q ensures Apart(s'.views[p], s'.views[q]) {
      if p != r { assert ViewSound(s, s.views[p]); }
      if q != r { assert ViewSound(s, s.views[q]); }
      if p != r && q != r { assert Apart(s.views[p], s.views[q]); }
    }
  }

  lemma SplitAt(log: seq<Event>, a: nat, b: nat)
    requires a <= b <= |log|
    ensures log[a..] == log[a..b] + log[b..]
  {
  }

  lemma MoreInPlace(s: Server, v: View, n: nat)
    requires v.Open? && BatchInPlace(s, v) && v.pos + n <= |s.log|
    ensures BatchInPlace(s, Received(s, v, n))
  {
    assert s.log[Covered(s)..v.pos + n] == s.log[Covered(s)..v.pos] + s.log[v.pos..v.pos + n];
  }

  lemma HolderReceives(c: Config, s: System, v: View, n: nat)
    requires v.Open? && ViewSound(s, v) && HolderSound(c, s, v) && v.pos + n <= |s.server.log|
    ensures ViewSound(s, Received(s.server, v, n)) && HolderSound(c, s, Received(s.server, v, n))
  {
    if v.epoch == s.server.epoch { MoreInPlace(s.server, v, n); }
  }

  lemma ReceiveKeeps(c: Config, s: System, r: nat, n: nat)
    requires Inv(c, s) && Enabled(s, Receive(r, n))
    ensures Inv(c, Next(c, s, Receive(r, n)))
  {
    var v := ViewOf(s, r);
    assert ViewSound(s, v) && HolderSound(c, s, v);
    HolderReceives(c, s, v, n);
    ViewKeeps(c, s, r, Received(s.server, v, n));
  }

  lemma LoadKeeps(c: Config, s: System, r: nat, pk: string)
    requires EmptyMeansInitial(c) && Inv(c, s) && Enabled(s, LoadState(r, pk))
    ensures Inv(c, Next(c, s, LoadState(r, pk)))
  {
    var v := ViewOf(s, r);
    assert ViewSound(s, v) && HolderSound(c, s, v);
    FoldedFromLog(c, s);
    ReloadIsSame(c, s.server.states, pk);
    SameIsSymmetric(c, Raw(c, s.server.states, pk), Reload(c, Raw(c, s.server.states, pk)));
    ViewKeeps(c, s, r, v.(local := v.local[pk := Reload(c, Raw(c, s.server.states, pk))]));
  }

  /** A write under the current epoch: the holder is the only view it concerns. */
  lemma HolderWrites(c: Config, s: System, r: nat, s': System)
    requires Inv(c, s) && r in s.views && !s.views[r].Standby? && s.views[r].epoch == s.server.epoch
    requires s'.managed == s.managed && s'.handled == s.handled
    requires s'.server == s.server.(states := s'.server.states, cursor := s'.server.cursor)
    requires r in s'.views && s' == s'.(views := s.views[r := s'.views[r]])
    requires s'.views[r].Closed? || s'.views[r].Open?
    requires s'.views[r].epoch == s.server.epoch
    requires ServerSound(c, s') && ViewSound(s', s'.views[r]) && HolderSound(c, s', s'.views[r])
    ensures Inv(c, s')
  {
    forall q | q in s'.views ensures ViewSound(s', s'.views[q]) && HolderSound(c, s', s'.views[q]) {
      if q != r {
        assert ViewSound(s, s.views[q]) && Apart(s.views[q], s.views[r]);
        assert s'.views[q] == s.views[q];
      }
    }
    forall p, q | p in s'.views && q in s'.views && p != q ensures Apart(s'.views[p], s'.views[q]) {
      assert Apart(s.views[p], s.views[q]);
    }
  }

  /** A refused write only closes the runner's view. */
  lemma RefusedKeeps(c: Config, s: System, r: nat)
    requires Inv(c, s) && ViewOf(s, r).Open?
    ensures Inv(c, s.(views := s.views[r := Closed(ViewOf(s, r).epoch)]))
  {
    var v := ViewOf(s, r);
    assert ViewSound(s, v);
    ViewKeeps(c, s, r, Closed(v.epoch));
  }

  lemma SaveKeeps(c: Config, s: System, r: nat, n: nat, net: Net)
    requires Inv(c, s) && Enabled(s, SaveRun(r, n, net))
    ensures Inv(c, Next(c, s, SaveRun(r, n, net)))
  {
    var v, s' := ViewOf(s, r), Next(c, s, SaveRun(r, n, net));
    if net == Refused {
      RefusedKeeps(c, s, r);
      assert s' == s.(views := s.views[r := Closed(v.epoch)]);
    } else {
      HolderSaves(c, s, r, n, net);
      HolderWrites(c, s, r, s');
    }
  }

  /** The holder's save leaves a sound server and a sound view. */
  lemma HolderSaves(c: Config, s: System, r: nat, n: nat, net: Net)
    requires Inv(c, s) && Enabled(s, SaveRun(r, n, net)) && net != Refused
    ensures var s' := Next(c, s, SaveRun(r, n, net));
            ServerSound(c, s') && ViewSound(s', s'.views[r]) && HolderSound(c, s', s'.views[r])
  {
    var v, s' := ViewOf(s, r), Next(c, s, SaveRun(r, n, net));
    assert ViewSound(s, v) && HolderSound(c, s, v);
    var pk := PartitionOf(v.batch[0]);
    SaveFolds(c, s.server, v, n);
    assert ServerSound(c, s');
    if net == Applied {
      SaveAgrees(c, s.server.states, v.local, pk, Fold(c, v.local[pk], v.batch[..n]));
      assert s'.views[r].done == 0;
    }
  }

  lemma SaveAgrees(c: Config, states: States, local: States, pk: string, state: State)
    requires LocalSound(c, states, local)
    ensures LocalSound(c, states[pk := state], local[pk := state])
  {
    SameIsSymmetric(c, state, state);
    var states', local' := states[pk := state], local[pk := state];
    forall q | q in local' ensures Same(c, local'[q], Raw(c, states', q)) {
      if q != pk { assert Same(c, local[q], Raw(c, states, q)); }
    }
  }

  /** Moving the cursor to the n-th event of the batch covers exactly n more events. */
  lemma CursorMoves(s: Server, v: View, n: nat)
    requires LogSound(s) && v.Open? && BatchInPlace(s, v) && 0 < n <= |v.batch|
    ensures var s' := s.(cursor := v.batch[n - 1].seq_);
            && LogSound(s') && UpTo(s'.log, s'.cursor) == UpTo(s.log, s.cursor) + v.batch[..n]
            && BatchInPlace(s', v.(batch := v.batch[n..]))
  {
    CursorInLog(s.log, Covered(s), v.pos, n);
    CutBatch(s.log, s.cursor, v.pos, v.batch, n);
  }

  lemma CursorInLog(log: seq<Event>, at: nat, pos: nat, n: nat)
    requires Increasing(log) && at <= pos <= |log| && 0 < n <= pos - at
    ensures log[at..pos][n - 1].seq_ <= log[|log| - 1].seq_
  {
    var i, last := at + n - 1, |log| - 1;
    assert log[at..pos][n - 1] == log[i];
    assert i < last ==> log[i].seq_ < log[last].seq_;
  }

  lemma CutBatch(log: seq<Event>, cursor: nat, pos: nat, batch: seq<Event>, n: nat)
    requires Increasing(log) && 0 < n <= |batch|
    requires |UpTo(log, cursor)| <= pos <= |log| && batch == log[|UpTo(log, cursor)|..pos]
    ensures UpTo(log, batch[n - 1].seq_) == UpTo(log, cursor) + batch[..n]
    ensures |UpTo(log, batch[n - 1].seq_)| <= pos && batch[n..] == log[|UpTo(log, batch[n - 1].seq_)|..pos]
  {
    var at, rest := |UpTo(log, cursor)|, After(log, cursor);
    CutAt(log, cursor);
    BatchIsPrefix(log, at, pos, n);
    CutFurther(log, cursor, rest, n);
  }

  lemma BatchIsPrefix(log: seq<Event>, at: nat, pos: nat, n: nat)
    requires at <= pos <= |log| && 0 < n <= pos - at
    ensures log[at..pos][n - 1] == log[at..][n - 1] == log[at + n - 1]
    ensures log[at..pos][..n] == log[at..][..n] && log[at..pos][n..] == log[at + n..pos]
  {
  }

  /** The holder's save of a run covers exactly n more events of the log. */
  lemma SaveFolds(c: Config, s: Server, v: View, n: nat)
    requires LogSound(s) && v.Open? && 0 < n <= |v.batch| && BatchInPlace(s, v)
    requires OnePartition(PartitionOf(v.batch[0]), v.batch[..n]) && PartitionOf(v.batch[0]) in v.local
    requires s.states == FoldAll(c, map[], UpTo(s.log, s.cursor)) && LocalSound(c, s.states, v.local)
    ensures var pk, s' := PartitionOf(v.batch[0]), s.(cursor := v.batch[n - 1].seq_);
            && LogSound(s') && BatchInPlace(s', v.(batch := v.batch[n..]))
            && s.states[pk := Fold(c, v.local[pk], v.batch[..n])] == FoldAll(c, map[], UpTo(s'.log, s'.cursor))
  {
    var pk := PartitionOf(v.batch[0]);
    CursorMoves(s, v, n);
    FoldMore(c, s.states, pk, v.local[pk], UpTo(s.log, s.cursor), v.batch[..n]);
  }

  lemma FoldMore(c: Config, states: States, pk: string, local: State, before: seq<Event>, run: seq<Event>)
    requires states == FoldAll(c, map[], before) && Same(c, local, Raw(c, states, pk))
    requires run != [] && OnePartition(pk, run)
    ensures states[pk := Fold(c, local, run)] == FoldAll(c, map[], before + run)
  {
    SameFold(c, local, Raw(c, states, pk), run);
    FoldAllRun(c, states, pk, run);
    FoldAllConcat(c, map[], before, run);
  }

  lemma AckKeeps(c: Config, s: System, r: nat, net: Net)
    requires Inv(c, s) && Enabled(s, Ack(r, net))
    ensures Inv(c, Next(c, s, Ack(r, net)))
  {
    var v, s' := ViewOf(s, r), Next(c, s, Ack(r, net));
    if net == Refused {
      RefusedKeeps(c, s, r);
      assert s' == s.(views := s.views[r := Closed(v.epoch)]);
    } else {
      HolderAcks(c, s, r, net);
      HolderWrites(c, s, r, s');
    }
  }

  lemma HolderAcks(c: Config, s: System, r: nat, net: Net)
    requires Inv(c, s) && Enabled(s, Ack(r, net)) && net != Refused
    ensures var s' := Next(c, s, Ack(r, net));
            ServerSound(c, s') && ViewSound(s', s'.views[r]) && HolderSound(c, s', s'.views[r])
  {
    var v := ViewOf(s, r);
    assert ViewSound(s, v) && HolderSound(c, s, v);
    AckMoves(c, s, v);
  }

  /** An ack under the current epoch leaves a sound server and a sound view. */
  lemma AckMoves(c: Config, s: System, v: View)
    requires !s.managed && ServerSound(c, s) && v.Open? && ViewSound(s, v) && HolderSound(c, s, v)
    requires v.epoch == s.server.epoch && 0 < v.done
    ensures var s' := s.(server := s.server.(cursor := v.batch[v.done - 1].seq_));
            var v' := v.(batch := v.batch[v.done..], done := 0);
            ServerSound(c, s') && ViewSound(s', v') && HolderSound(c, s', v')
  {
    CursorMoves(s.server, v, v.done);
    DoneWereHandled(v.batch, v.done, s.handled);
  }

  lemma DoneWereHandled(batch: seq<Event>, done: nat, handled: set<nat>)
    requires done <= |batch| && forall i | 0 <= i < done && i < |batch| :: batch[i].seq_ in handled
    ensures forall e | e in batch[..done] :: e.seq_ in handled
  {
  }

  lemma HandleKeeps(c: Config, s: System, r: nat)
    requires Inv(c, s) && Enabled(s, Handle(r))
    ensures Inv(c, Next(c, s, Handle(r)))
  {
    var v := ViewOf(s, r);
    assert ViewSound(s, v) && HolderSound(c, s, v);
    OnlyView(c, s, r, v.(done := v.done + 1), s.handled + {v.batch[v.done].seq_});
  }

  lemma NextKeeps(c: Config, s: System, step: Step)
    requires (s.managed ==> EmptyMeansInitial(c)) && Inv(c, s) && Enabled(s, step)
    ensures Inv(c, Next(c, s, step))
  {
    match step
    case Append(e) => AppendKeeps(c, s, e);
    case Acquire(r) => AcquireKeeps(c, s, r);
    case OpenStream(r) =>
      assert ViewSound(s, ViewOf(s, r));
      CutAt(s.server.log, s.server.cursor);
      ViewKeeps(c, s, r, Open(ViewOf(s, r).epoch, Covered(s.server), [], 0, map[]));
    case Receive(r, n) => ReceiveKeeps(c, s, r, n);
    case LoadState(r, pk) => LoadKeeps(c, s, r, pk);
    case SaveRun(r, n, net) => SaveKeeps(c, s, r, n, net);
    case Handle(r) => HandleKeeps(c, s, r);
    case Ack(r, net) => AckKeeps(c, s, r, net);
    case Drop(r) =>
      assert ViewSound(s, ViewOf(s, r));
      ViewKeeps(c, s, r, Closed(ViewOf(s, r).epoch));
    case Crash(r) => ViewKeeps(c, s, r, Standby);
  }

  // ---------------------------------------------------------------- main results

  /** A run of the system. */
  ghost predicate IsRunOf(c: Config, ss: seq<System>, steps: seq<Step>) {
    && |ss| == |steps| + 1 && Init(ss[0])
    && forall i | 0 <= i < |steps| :: Enabled(ss[i], steps[i]) && ss[i + 1] == Next(c, ss[i], steps[i])
  }

  lemma {:induction false} RunKeeps(c: Config, ss: seq<System>, steps: seq<Step>, n: nat)
    requires IsRunOf(c, ss, steps) && n <= |steps| && (ss[0].managed ==> EmptyMeansInitial(c))
    ensures Inv(c, ss[n]) && ss[n].managed == ss[0].managed
  {
    if n > 0 {
      RunKeeps(c, ss, steps, n - 1);
      var m := n - 1;
      assert ss[m + 1] == Next(c, ss[m], steps[m]);
      NextKeeps(c, ss[m], steps[m]);
    }
  }

  /** In every reachable state of a managed projection, each partition's saved state is the
      reducer's fold over exactly that partition's events up to the saved cursor. */
  lemma SavedStateIsFold(c: Config, ss: seq<System>, steps: seq<Step>, n: nat, pk: string)
    requires EmptyMeansInitial(c) && IsRunOf(c, ss, steps) && n <= |steps| && ss[0].managed
    ensures var server := ss[n].server;
            var mine := Of(pk, UpTo(server.log, server.cursor));
            && (pk in server.states <==> mine != [])
            && (pk in server.states ==> server.states[pk] == Fold(c, Start(c), mine))
  {
    RunKeeps(c, ss, steps, n);
    var server := ss[n].server;
    FoldAllIsPartitionFold(c, map[], UpTo(server.log, server.cursor), pk);
  }

  /** In every reachable state, the lease holder's unsaved events and then the events its stream
      has yet to deliver are exactly the events after the saved cursor: none is lost or repeated. */
  lemma HolderGoesOnFromCursor(c: Config, ss: seq<System>, steps: seq<Step>, n: nat, r: nat)
    requires IsRunOf(c, ss, steps) && n <= |steps| && (ss[0].managed ==> EmptyMeansInitial(c))
    requires ViewOf(ss[n], r).Open? && ViewOf(ss[n], r).epoch == ss[n].server.epoch
    ensures var v, server := ViewOf(ss[n], r), ss[n].server;
            v.pos <= |server.log| && v.batch + server.log[v.pos..] == After(server.log, server.cursor)
  {
    RunKeeps(c, ss, steps, n);
    var v, server := ViewOf(ss[n], r), ss[n].server;
    assert HolderSound(c, ss[n], v);
    CutAt(server.log, server.cursor);
    SplitAt(server.log, Covered(server), v.pos);
  }

  /** In every reachable state of an external projection, every event up to the acknowledged
      cursor has been handled at least once. */
  lemma AckedEventsWereHandled(c: Config, ss: seq<System>, steps: seq<Step>, n: nat, e: Event)
    requires IsRunOf(c, ss, steps) && n <= |steps| && !ss[0].managed
    requires e in ss[n].server.log && e.seq_ <= ss[n].server.cursor
    ensures e.seq_ in ss[n].handled
  {
    RunKeeps(c, ss, steps, n);
    CutAt(ss[n].server.log, ss[n].server.cursor);
  }
  /** The events appended so far, in order. */
  function Appended(steps: seq<Step>): seq<Event> {
    if steps == [] then []
    else
      var last := steps[|steps| - 1];
      Appended(steps[..|steps| - 1]) + if last.Append? then [last.e] else []
  }

  /** The log is what was appended: nothing a runner does changes it. */
  lemma {:induction false} LogIsAppended(c: Config, ss: seq<System>, steps: seq<Step>, n: nat)
    requires IsRunOf(c, ss, steps) && n <= |steps|
    ensures ss[n].server.log == Appended(steps[..n])
  {
    if n > 0 {
      var m := n - 1;
      LogIsAppended(c, ss, steps, m);
      assert Enabled(ss[m], steps[m]) && ss[m + 1] == Next(c, ss[m], steps[m]);
      assert steps[..n][..m] == steps[..m];
    }
  }

  // ------------------------------------------------------------------- progress

  /** The system after the steps, if each of them can be taken. */
  ghost function Play(c: Config, s: System, steps: seq<Step>): Option<System>
    decreases |steps|
  {
    if steps == [] then Some(s)
    else if !Enabled(s, steps[0]) then None
    else Play(c, Next(c, s, steps[0]), steps[1..])
  }

  lemma {:induction false} PlayOne(c: Config, s: System, step: Step, rest: seq<Step>)
    requires Enabled(s, step)
    ensures Play(c, s, [step] + rest) == Play(c, Next(c, s, step), rest)
  {
    assert ([step] + rest)[1..] == rest;
  }

  /** Runner r holds the lease and has nothing left to save. */
  ghost predicate Holds(c: Config, s: System, r: nat) {
    && Inv(c, s) && (s.managed ==> EmptyMeansInitial(c))
    && ViewOf(s, r).Open? && ViewOf(s, r).epoch == s.server.epoch && ViewOf(s, r).batch == []
    && ViewOf(s, r).done == 0
  }

  /** The steps by which a runner takes one event: as a batch of one. */
  function TakeOne(managed: bool, r: nat, pk: string): seq<Step> {
    if managed then [LoadState(r, pk)] + ([SaveRun(r, 1, Applied)] + [])
    else [Handle(r)] + ([Ack(r, Applied)] + [])
  }

  /** A runner that holds one event saves it. */
  lemma {:induction false} SavesOne(c: Config, s: System, r: nat, e: Event)
    requires Inv(c, s) && (s.managed ==> EmptyMeansInitial(c))
    requires ViewOf(s, r).Open? && ViewOf(s, r).epoch == s.server.epoch
    requires ViewOf(s, r).batch == [e] && ViewOf(s, r).done == 0
    ensures Play(c, s, TakeOne(s.managed, r, PartitionOf(e))).Some?
    ensures var s' := Play(c, s, TakeOne(s.managed, r, PartitionOf(e))).value;
            && Holds(c, s', r) && s'.managed == s.managed && s'.server.log == s.server.log
            && ViewOf(s', r).pos == ViewOf(s, r).pos
  {
    var first := if s.managed then LoadState(r, PartitionOf(e)) else Handle(r);
    var second := if s.managed then SaveRun(r, 1, Applied) else Ack(r, Applied);
    var s1 := Next(c, s, first);
    NextKeeps(c, s, first);
    PlayOne(c, s, first, [second] + []);
    assert [e][..1] == [e] && [e][1..] == [];
    NextKeeps(c, s1, second);
    PlayOne(c, s1, second, []);
  }

  /** A runner that holds the lease takes the next event of its stream and saves it. */
  lemma {:induction false} TakesNext(c: Config, s: System, r: nat) returns (steps: seq<Step>)
    requires Holds(c, s, r) && ViewOf(s, r).pos < |s.server.log|
    ensures Play(c, s, steps).Some?
    ensures var s' := Play(c, s, steps).value;
            && Holds(c, s', r) && s'.managed == s.managed && s'.server.log == s.server.log
            && ViewOf(s', r).pos == ViewOf(s, r).pos + 1
  {
    var v := ViewOf(s, r);
    var e := s.server.log[v.pos];
    var s1 := Next(c, s, Receive(r, 1));
    NextKeeps(c, s, Receive(r, 1));
    assert s.server.log[v.pos..v.pos + 1] == [e];
    SavesOne(c, s1, r, e);
    steps := [Receive(r, 1)] + TakeOne(s.managed, r, PartitionOf(e));
    PlayOne(c, s, Receive(r, 1), TakeOne(s.managed, r, PartitionOf(e)));
  }

  lemma {:induction false} PlayOn(c: Config, s: System, first: seq<Step>, rest: seq<Step>)
    requires Play(c, s, first).Some?
    ensures Play(c, s, first + rest) == Play(c, Play(c, s, first).value, rest)
    decreases |first|
  {
    if first == [] {
      assert first + rest == rest;
    } else {
      assert (first + rest)[1..] == first[1..] + rest;
      PlayOn(c, Next(c, s, first[0]), first[1..], rest);
    }
  }

  lemma {:induction false} TakesAll(c: Config, s: System, r: nat) returns (steps: seq<Step>)
    requires Holds(c, s, r)
    ensures Play(c, s, steps).Some?
    ensures var s' := Play(c, s, steps).value;
            && Holds(c, s', r) && s'.managed == s.managed && s'.server.log == s.server.log
            && ViewOf(s', r).pos == |s.server.log|
    decreases |s.server.log| - ViewOf(s, r).pos
  {
    var v := ViewOf(s, r);
    assert ViewSound(s, v);
    if v.pos == |s.server.log| {
      steps := [];
    } else {
      var first := TakesNext(c, s, r);
      var rest := TakesAll(c, Play(c, s, first).value, r);
      PlayOn(c, s, first, rest);
      steps := first + rest;
    }
  }

  /** A holder whose stream has reached the end has saved, or acknowledged, everything. */
  lemma {:induction false} AtTheEnd(c: Config, s: System, r: nat)
    requires Holds(c, s, r) && ViewOf(s, r).pos == |s.server.log|
    ensures UpTo(s.server.log, s.server.cursor) == s.server.log
  {
    var v := ViewOf(s, r);
    assert HolderSound(c, s, v);
    CutAt(s.server.log, s.server.cursor);
    assert s.server.log[..|s.server.log|] == s.server.log;
  }

  /** No runner is ever locked out: from every reachable state, whatever leases, crashes and lost
      replies came before, any runner can acquire the lease and catch up, and then the saved states are
      the per-event fold of the whole log, or every event of an external projection was handled. */
  lemma {:induction false} AnyRunnerCatchesUp(c: Config, ss: seq<System>, history: seq<Step>, n: nat, r: nat)
    returns (steps: seq<Step>)
    requires IsRunOf(c, ss, history) && n <= |history| && (ss[0].managed ==> EmptyMeansInitial(c))
    ensures Play(c, ss[n], steps).Some?
    ensures var server := Play(c, ss[n], steps).value.server;
            && server.log == ss[n].server.log && UpTo(server.log, server.cursor) == server.log
            && (ss[0].managed ==> server.states == FoldAll(c, map[], server.log))
    ensures !ss[0].managed ==> forall e | e in ss[n].server.log :: e.seq_ in Play(c, ss[n], steps).value.handled
  {
    var s := ss[n];
    RunKeeps(c, ss, history, n);
    var s1 := Next(c, s, Acquire(r));
    NextKeeps(c, s, Acquire(r));
    var s2 := Next(c, s1, OpenStream(r));
    NextKeeps(c, s1, OpenStream(r));
    var rest := TakesAll(c, s2, r);
    PlayOne(c, s, Acquire(r), [OpenStream(r)] + rest);
    PlayOne(c, s1, OpenStream(r), rest);
    steps := [Acquire(r)] + ([OpenStream(r)] + rest);
    AtTheEnd(c, Play(c, s2, rest).value, r);
  }
}
