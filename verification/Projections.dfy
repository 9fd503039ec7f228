/** Managed projections (ironflow/projection_runner.go).

    A runner reduces event batches per partition and saves each partition's state together with
    the cursor.  First the reducer and what an empty saved state means, then processManaged as
    a refinement of the per-event fold, then what follows a saved cursor and the loop that goes
    on from it after every failure. */
module Projections {
  import opened Optional

  // ------------------------------------------------------------------- reducer

  /** A JSON object; the values are opaque. */
  type State = map<string, int>

  /** `partition` is the `__partition` metadata, empty when there is none. */
  datatype Event = Event(seq_: nat, partition: string, data: int)

  const GLOBAL := "__global__"

  function PartitionOf(e: Event): string {
    if e.partition == "" then GLOBAL else e.partition
  }

  datatype Config = Config(handler: (State, Event) -> State, initialState: Option<State>)

  function Start(c: Config): State {
    if c.initialState.Some? then c.initialState.value else map[]
  }

  function Fold(c: Config, s: State, es: seq<Event>): State
    decreases |es|
  {
    if es == [] then s else Fold(c, c.handler(s, es[0]), es[1..])
  }

  /** The events of one partition. */
  function Of(pk: string, es: seq<Event>): seq<Event> {
    if es == [] then []
    else if PartitionOf(es[0]) == pk then [es[0]] + Of(pk, es[1..])
    else Of(pk, es[1..])
  }

  type States = map<string, State>

  function Raw(c: Config, states: States, pk: string): State {
    if pk in states then states[pk] else Start(c)
  }

  /** The specification: one event at a time, each against its partition's state. */
  function FoldAll(c: Config, states: States, es: seq<Event>): States
    decreases |es|
  {
    if es == [] then states
    else
      var pk := PartitionOf(es[0]);
      FoldAll(c, states[pk := c.handler(Raw(c, states, pk), es[0])], es[1..])
  }

  // --------------------------------------------------- what an empty state means

  /** A saved {} reads back as "no state", and the runner starts from InitialState again. */
  function Reload(c: Config, s: State): State {
    if s == map[] then Start(c) else s
  }

  predicate SameNext(c: Config, a: State, b: State, e: Event) {
    c.handler(a, e) == c.handler(b, e)
  }

  /** No event can tell the two states apart. */
  ghost predicate Same(c: Config, a: State, b: State) {
    forall e :: SameNext(c, a, b, e)
  }

  ghost predicate ReachesEmpty(c: Config) {
    exists es :: es != [] && Fold(c, Start(c), es) == map[]
  }

  /** Either the reducer never folds to {}, or {} behaves like the initial state. */
  ghost predicate EmptyMeansInitial(c: Config) {
    ReachesEmpty(c) ==> Same(c, map[], Start(c))
  }

  lemma {:induction false} FoldConcat(c: Config, s: State, a: seq<Event>, b: seq<Event>)
    ensures Fold(c, s, a + b) == Fold(c, Fold(c, s, a), b)
    decreases |a|
  {
    if a == [] {
      assert a + b == b;
    } else {
      assert (a + b)[1..] == a[1..] + b;
      FoldConcat(c, c.handler(s, a[0]), a[1..], b);
    }
  }

  lemma {:induction false} SameFold(c: Config, a: State, b: State, es: seq<Event>)
    requires Same(c, a, b) && es != []
    ensures Fold(c, a, es) == Fold(c, b, es)
  {
    assert SameNext(c, a, b, es[0]);
  }

  /** Batching is unobservable, for every way to cut every event sequence in two, exactly when
      a reducer that can fold to {} treats {} like its initial state. */
  lemma {:induction false} BatchingUnobservableIff(c: Config)
    ensures (forall a: seq<Event>, b: seq<Event> | a != [] && b != [] ::
               Fold(c, Reload(c, Fold(c, Start(c), a)), b) == Fold(c, Start(c), a + b))
       <==> EmptyMeansInitial(c)
  {
    if forall a: seq<Event>, b: seq<Event> | a != [] && b != [] ::
         Fold(c, Reload(c, Fold(c, Start(c), a)), b) == Fold(c, Start(c), a + b) {
      if ReachesEmpty(c) {
        var a :| a != [] && Fold(c, Start(c), a) == map[];
        forall e ensures SameNext(c, map[], Start(c), e) {
          assert Fold(c, Reload(c, Fold(c, Start(c), a)), [e]) == Fold(c, Start(c), a + [e]);
          FoldConcat(c, Start(c), a, [e]);
          FoldOne(c, map[], e);
          FoldOne(c, Start(c), e);
        }
      }
    }
    if EmptyMeansInitial(c) {
      forall a: seq<Event>, b: seq<Event> | a != [] && b != []
        ensures Fold(c, Reload(c, Fold(c, Start(c), a)), b) == Fold(c, Start(c), a + b)
      {
        FoldConcat(c, Start(c), a, b);
        if Fold(c, Start(c), a) == map[] { SameFold(c, map[], Start(c), b); }
      }
    }
  }

  lemma {:induction false} FoldOne(c: Config, s: State, e: Event)
    ensures Fold(c, s, [e]) == c.handler(s, e)
  {
    assert [e][1..] == [];
  }

  // ------------------------------------------------------- the per-event fold

  lemma {:induction false} FoldAllConcat(c: Config, states: States, a: seq<Event>, b: seq<Event>)
    ensures FoldAll(c, states, a + b) == FoldAll(c, FoldAll(c, states, a), b)
    decreases |a|
  {
    if a == [] {
      assert a + b == b;
    } else {
      assert (a + b)[1..] == a[1..] + b;
      var pk := PartitionOf(a[0]);
      FoldAllConcat(c, states[pk := c.handler(Raw(c, states, pk), a[0])], a[1..], b);
    }
  }

  /** Partition by partition, the per-event fold is the reducer's fold over its own events. */
  lemma {:induction false} FoldAllIsPartitionFold(c: Config, states: States, es: seq<Event>, pk: string)
    ensures pk in FoldAll(c, states, es) <==> pk in states || Of(pk, es) != []
    ensures Raw(c, FoldAll(c, states, es), pk) == Fold(c, Raw(c, states, pk), Of(pk, es))
    decreases |es|
  {
    if es != [] {
      var p := PartitionOf(es[0]);
      var next := states[p := c.handler(Raw(c, states, p), es[0])];
      FoldAllIsPartitionFold(c, next, es[1..], pk);
      if p == pk {
        assert Of(pk, es)[1..] == Of(pk, es[1..]);
      }
    }
  }

  predicate OnePartition(pk: string, es: seq<Event>) {
    forall i | 0 <= i < |es| :: PartitionOf(es[i]) == pk
  }

  /** A run of one partition's events folds that partition and touches no other. */
  lemma {:induction false} FoldAllRun(c: Config, states: States, pk: string, run: seq<Event>)
    requires run != [] && OnePartition(pk, run)
    ensures FoldAll(c, states, run) == states[pk := Fold(c, Raw(c, states, pk), run)]
    decreases |run|
  {
    var next := states[pk := c.handler(Raw(c, states, pk), run[0])];
    assert PartitionOf(run[0]) == pk;
    if |run| > 1 {
      forall i | 0 <= i < |run[1..]| ensures PartitionOf(run[1..][i]) == pk { assert run[1..][i] == run[i + 1]; }
      FoldAllRun(c, next, pk, run[1..]);
    } else {
      assert run[1..] == [];
    }
  }

  // --------------------------------------------------------------------- server

  /** What the server keeps for a projection. */
  datatype Saved = Saved(states: States, cursor: nat)

  function Advance(c: Config, s: Saved, es: seq<Event>): Saved {
    if es == [] then s else Saved(FoldAll(c, s.states, es), es[|es| - 1].seq_)
  }

  /** Every saved state is a fold of events: the server never held anything else. */
  ghost predicate FoldedStates(c: Config, states: States) {
    forall pk | pk in states :: exists es :: es != [] && states[pk] == Fold(c, Start(c), es)
  }

  /** What the runner sees of a saved state behaves like the state itself. */
  lemma {:induction false} ReloadIsSame(c: Config, states: States, pk: string)
    requires EmptyMeansInitial(c) && FoldedStates(c, states)
    ensures Same(c, Raw(c, states, pk), Reload(c, Raw(c, states, pk)))
  {
    var s := Raw(c, states, pk);
    if s == map[] && pk in states {
      assert ReachesEmpty(c);
      assert Same(c, map[], Start(c));
    } else {
      assert forall e :: SameNext(c, s, s, e);
    }
  }

  lemma {:induction false} FoldAllKeepsFolded(c: Config, states: States, es: seq<Event>)
    requires FoldedStates(c, states)
    ensures FoldedStates(c, FoldAll(c, states, es))
  {
    var after := FoldAll(c, states, es);
    forall pk | pk in after ensures exists fs :: fs != [] && after[pk] == Fold(c, Start(c), fs) {
      FoldAllIsPartitionFold(c, states, es, pk);
      if pk in states {
        var fs :| fs != [] && states[pk] == Fold(c, Start(c), fs);
        FoldConcat(c, Start(c), fs, Of(pk, es));
        assert fs + Of(pk, es) != [];
      } else {
        assert Of(pk, es) != [];
      }
    }
  }

  // ------------------------------------------------------------ sorting and runs

  predicate SortedBySeq(es: seq<Event>) {
    forall i, j | 0 <= i < j < |es| :: es[i].seq_ <= es[j].seq_
  }

  function Insert(e: Event, es: seq<Event>): seq<Event> {
    if es == [] || e.seq_ <= es[0].seq_ then [e] + es else [es[0]] + Insert(e, es[1..])
  }

  /** slices.SortStableFunc by seq. */
  function SortBySeq(es: seq<Event>): seq<Event> {
    if es == [] then [] else Insert(es[0], SortBySeq(es[1..]))
  }

  lemma {:induction false} InsertSorts(e: Event, es: seq<Event>)
    requires SortedBySeq(es)
    ensures SortedBySeq(Insert(e, es)) && multiset(Insert(e, es)) == multiset{e} + multiset(es)
  {
    if es != [] && e.seq_ > es[0].seq_ {
      InsertSorts(e, es[1..]);
      var rest := Insert(e, es[1..]);
      assert es == [es[0]] + es[1..];
      forall i | 0 <= i < |rest| ensures es[0].seq_ <= rest[i].seq_ { InsertHolds(e, es[1..], rest[i]); }
      ConsSorted(es[0], rest);
    } else {
      ConsSorted(e, es);
    }
  }

  lemma {:induction false} ConsSorted(e: Event, es: seq<Event>)
    requires SortedBySeq(es) && forall i | 0 <= i < |es| :: e.seq_ <= es[i].seq_
    ensures SortedBySeq([e] + es)
  {
  }

  lemma {:induction false} InsertHolds(e: Event, es: seq<Event>, f: Event)
    requires f in Insert(e, es) && multiset(Insert(e, es)) == multiset{e} + multiset(es)
    ensures f == e || f in es
  {
    assert f in multiset(Insert(e, es));
  }

  lemma {:induction false} SortBySeqSorts(es: seq<Event>)
    ensures SortedBySeq(SortBySeq(es)) && multiset(SortBySeq(es)) == multiset(es)
  {
    if es != [] {
      SortBySeqSorts(es[1..]);
      InsertSorts(es[0], SortBySeq(es[1..]));
      assert es == [es[0]] + es[1..];
    }
  }

  /** The events of one seq, in order. */
  function At(n: nat, es: seq<Event>): seq<Event> {
    if es == [] then [] else if es[0].seq_ == n then [es[0]] + At(n, es[1..]) else At(n, es[1..])
  }

  lemma {:induction false} AtCons(n: nat, e: Event, es: seq<Event>)
    ensures At(n, [e] + es) == if e.seq_ == n then [e] + At(n, es) else At(n, es)
  {
    assert ([e] + es)[1..] == es;
  }

  /** And the sort is stable: events of one seq keep their order. */
  lemma {:induction false} SortIsStable(es: seq<Event>, n: nat)
    ensures At(n, SortBySeq(es)) == At(n, es)
  {
    if es != [] {
      SortIsStable(es[1..], n);
      InsertKeepsOrder(es[0], SortBySeq(es[1..]), n);
    }
  }

  lemma {:induction false} InsertKeepsOrder(e: Event, es: seq<Event>, n: nat)
    ensures At(n, Insert(e, es)) == if e.seq_ == n then [e] + At(n, es) else At(n, es)
  {
    if es == [] || e.seq_ <= es[0].seq_ {
      AtCons(n, e, es);
    } else {
      InsertKeepsOrder(e, es[1..], n);
      AtCons(n, es[0], Insert(e, es[1..]));
    }
  }

  function Flatten(runs: seq<seq<Event>>): seq<Event> {
    if runs == [] then [] else Flatten(runs[..|runs| - 1]) + runs[|runs| - 1]
  }

  ghost predicate IsRun(run: seq<Event>) {
    run != [] && OnePartition(PartitionOf(run[0]), run)
  }

  /** Run `i` is of another partition than the run before it. */
  ghost predicate Breaks(runs: seq<seq<Event>>, i: nat) {
    0 < i < |runs| && runs[i - 1] != [] && runs[i] != [] ==> PartitionOf(runs[i - 1][0]) != PartitionOf(runs[i][0])
  }

  ghost predicate AreRuns(runs: seq<seq<Event>>) {
    (forall i | 0 <= i < |runs| :: IsRun(runs[i])) && (forall i | 0 <= i < |runs| :: Breaks(runs, i))
  }

  /** Runs of these partitions. */
  ghost predicate RunsOf(runs: seq<seq<Event>>, pks: set<string>) {
    forall i | 0 <= i < |runs| :: IsRun(runs[i]) && PartitionOf(runs[i][0]) in pks
  }

  lemma {:induction false} FlattenPush(runs: seq<seq<Event>>, run: seq<Event>)
    ensures Flatten(runs + [run]) == Flatten(runs) + run
  {
    assert (runs + [run])[..|runs|] == runs;
  }

  /** Appending an event to the last run, or starting a new one. */
  lemma {:induction false} GrowLast(runs: seq<seq<Event>>, e: Event)
    requires AreRuns(runs) && runs != [] && PartitionOf(runs[|runs| - 1][0]) == PartitionOf(e)
    ensures var n := |runs| - 1;
            AreRuns(runs[..n] + [runs[n] + [e]]) && Flatten(runs[..n] + [runs[n] + [e]]) == Flatten(runs) + [e]
  {
    var n := |runs| - 1;
    FlattenPush(runs[..n], runs[n] + [e]);
    assert Flatten(runs[..n]) + (runs[n] + [e]) == Flatten(runs) + [e];
    var more := runs[..n] + [runs[n] + [e]];
    forall i | 0 <= i < |more| ensures IsRun(more[i]) && Breaks(more, i) {
      assert IsRun(runs[i]) && Breaks(runs, i);
    }
  }

  lemma {:induction false} NewRun(runs: seq<seq<Event>>, e: Event)
    requires AreRuns(runs) && (runs != [] ==> PartitionOf(runs[|runs| - 1][0]) != PartitionOf(e))
    ensures AreRuns(runs + [[e]]) && Flatten(runs + [[e]]) == Flatten(runs) + [e]
  {
    FlattenPush(runs, [e]);
    var more := runs + [[e]];
    forall i | 0 <= i < |more| ensures IsRun(more[i]) && Breaks(more, i) {
      if i < |runs| { assert IsRun(runs[i]) && Breaks(runs, i); }
    }
  }

  /** Consecutive events of one partition become one run, as long as possible. */
  method CutRuns(events: seq<Event>) returns (runs: seq<seq<Event>>)
    ensures Flatten(runs) == events
    ensures AreRuns(runs)
  {
    runs := [];
    for i := 0 to |events|
      invariant Flatten(runs) == events[..i]
      invariant AreRuns(runs)
    {
      var evt, n := events[i], |runs|;
      assert events[..i + 1] == events[..i] + [evt];
      if n > 0 && PartitionOf(runs[n - 1][0]) == PartitionOf(evt) {
        GrowLast(runs, evt);
        runs := runs[..n - 1] + [runs[n - 1] + [evt]];
      } else {
        NewRun(runs, evt);
        runs := runs + [[evt]];
      }
    }
    assert events[..|events|] == events;
  }

  // -------------------------------------------------------------- processManaged

  /** How the environment answers one run: a handler error at some event, a lost lease before
      the save, or what becomes of the save request. */
  datatype Fate = HandlerError | LeaseLost | SaveRefused | SaveReplyLost | SaveOk

  /** How many events the runs from `i` on persist: every run up to the first that fails, and
      that one too when only the reply to its save was lost. */
  function Persisted(runs: seq<seq<Event>>, fates: seq<Fate>, i: nat): nat
    requires i <= |runs| <= |fates|
    decreases |runs| - i
  {
    if i == |runs| then 0
    else match fates[i]
      case SaveOk => |runs[i]| + Persisted(runs, fates, i + 1)
      case SaveReplyLost => |runs[i]|
      case _ => 0
  }

  /** What the server holds once the runs from `i` on have been processed. */
  ghost function SaveRuns(c: Config, saved: Saved, runs: seq<seq<Event>>, fates: seq<Fate>, i: nat): Saved
    requires i <= |runs| <= |fates|
    decreases |runs| - i
  {
    if i == |runs| then saved
    else match fates[i]
      case SaveOk => SaveRuns(c, Advance(c, saved, runs[i]), runs, fates, i + 1)
      case SaveReplyLost => Advance(c, saved, runs[i])
      case _ => saved
  }

  /** The states a batch starts from: a saved {} reads as no state. */
  function Loaded(states: States, pks: set<string>): States {
    map pk | pk in pks && pk in states && states[pk] != map[] :: states[pk]
  }

  /** The batch's states after one run of a partition, and what is saved. */
  function RunLoaded(c: Config, local: States, run: seq<Event>): States {
    if run == [] then local
    else
      var pk := PartitionOf(run[0]);
      local[pk := Fold(c, Raw(c, local, pk), run)]
  }

  function RunSaved(c: Config, local: States, saved: Saved, run: seq<Event>): Saved {
    if run == [] then saved
    else
      var pk := PartitionOf(run[0]);
      Saved(saved.states[pk := Fold(c, Raw(c, local, pk), run)], run[|run| - 1].seq_)
  }

  /** What the server holds once the runs from `i` on have been processed from the batch's states. */
  ghost function SaveLoaded(
    c: Config, local: States, saved: Saved, runs: seq<seq<Event>>, fates: seq<Fate>, i: nat): Saved
    requires i <= |runs| <= |fates|
    decreases |runs| - i
  {
    if i == |runs| then saved
    else
      var next := RunSaved(c, local, saved, runs[i]);
      match fates[i]
      case SaveOk => SaveLoaded(c, RunLoaded(c, local, runs[i]), next, runs, fates, i + 1)
      case SaveReplyLost => next
      case _ => saved
  }

  /** The batch's states of these partitions behave like the saved ones. */
  ghost predicate AgreeOn(c: Config, local: States, states: States, pks: set<string>) {
    forall pk | pk in pks :: Same(c, Raw(c, local, pk), Raw(c, states, pk))
  }

  lemma {:induction false} LoadedAgrees(c: Config, states: States, pks: set<string>)
    requires EmptyMeansInitial(c) && FoldedStates(c, states)
    ensures AgreeOn(c, Loaded(states, pks), states, pks)
  {
    var local := Loaded(states, pks);
    forall pk | pk in pks ensures Same(c, Raw(c, local, pk), Raw(c, states, pk)) {
      ReloadIsSame(c, states, pk);
      var s := Raw(c, states, pk);
      assert Raw(c, local, pk) == Reload(c, s) || Raw(c, local, pk) == s;
      SameIsSymmetric(c, s, Raw(c, local, pk));
    }
  }

  lemma {:induction false} RunAgrees(c: Config, local: States, saved: Saved, run: seq<Event>, pks: set<string>)
    requires IsRun(run) && PartitionOf(run[0]) in pks && AgreeOn(c, local, saved.states, pks)
    ensures RunSaved(c, local, saved, run) == Advance(c, saved, run)
    ensures AgreeOn(c, RunLoaded(c, local, run), RunSaved(c, local, saved, run).states, pks)
  {
    var pk := PartitionOf(run[0]);
    SameFold(c, Raw(c, local, pk), Raw(c, saved.states, pk), run);
    FoldAllRun(c, saved.states, pk, run);
    var state := RunLoaded(c, local, run)[pk];
    SameIsSymmetric(c, state, state);
  }

  /** When the batch's states behave like the saved ones, saving is the per-event fold, run by run. */
  lemma {:induction false} LoadedIsSaved(
    c: Config, local: States, saved: Saved, runs: seq<seq<Event>>, fates: seq<Fate>, i: nat, pks: set<string>)
    requires i <= |runs| <= |fates| && RunsOf(runs, pks) && AgreeOn(c, local, saved.states, pks)
    ensures SaveLoaded(c, local, saved, runs, fates, i) == SaveRuns(c, saved, runs, fates, i)
    decreases |runs| - i
  {
    if i < |runs| {
      RunAgrees(c, local, saved, runs[i], pks);
      if fates[i] == SaveOk {
        LoadedIsSaved(
          c, RunLoaded(c, local, runs[i]), RunSaved(c, local, saved, runs[i]), runs, fates, i + 1, pks);
      }
    }
  }

  /** The events of the runs from `i` on that are persisted. */
  function Kept(runs: seq<seq<Event>>, fates: seq<Fate>, i: nat): seq<Event>
    requires i <= |runs| <= |fates|
    decreases |runs| - i
  {
    if i == |runs| then []
    else match fates[i]
      case SaveOk => runs[i] + Kept(runs, fates, i + 1)
      case SaveReplyLost => runs[i]
      case _ => []
  }

  lemma {:induction false} KeptIsPrefix(
    sorted: seq<Event>, runs: seq<seq<Event>>, fates: seq<Fate>, i: nat, n: nat)
    requires i <= |runs| <= |fates| && Flatten(runs) == sorted && n == |Flatten(runs[..i])|
    ensures n + Persisted(runs, fates, i) <= |sorted|
    ensures Kept(runs, fates, i) == sorted[n..n + Persisted(runs, fates, i)]
    decreases |runs| - i
  {
    if i == |runs| {
      assert runs[..i] == runs;
    } else {
      RunInPlace(runs, sorted, i);
      KeptIsPrefix(sorted, runs, fates, i + 1, n + |runs[i]|);
    }
  }

  lemma {:induction false} OfConcat(pk: string, a: seq<Event>, b: seq<Event>)
    ensures Of(pk, a + b) == Of(pk, a) + Of(pk, b)
    decreases |a|
  {
    if a == [] {
      assert a + b == b;
    } else {
      assert (a + b)[1..] == a[1..] + b;
      OfConcat(pk, a[1..], b);
    }
  }

  lemma {:induction false} OfRun(pk: string, q: string, run: seq<Event>)
    requires OnePartition(q, run)
    ensures Of(pk, run) == if pk == q then run else []
    decreases |run|
  {
    if run != [] {
      assert PartitionOf(run[0]) == q;
      forall i | 0 <= i < |run[1..]| ensures PartitionOf(run[1..][i]) == q { assert run[1..][i] == run[i + 1]; }
      OfRun(pk, q, run[1..]);
      assert run == [run[0]] + run[1..];
    }
  }

  lemma {:induction false} InOf(pk: string, es: seq<Event>) returns (e: Event)
    requires Of(pk, es) != []
    ensures e in es && PartitionOf(e) == pk
  {
    if PartitionOf(es[0]) == pk { e := es[0]; } else { e := InOf(pk, es[1..]); }
  }

  /** Partition pk after persisting these events from the batch's states: folded over its own events,
      or untouched when it has none. */
  ghost predicate FoldedOver(c: Config, local: States, before: Saved, es: seq<Event>, after: Saved, pk: string) {
    && (Of(pk, es) != [] ==> pk in after.states && after.states[pk] == Fold(c, Raw(c, local, pk), Of(pk, es)))
    && (Of(pk, es) == [] ==>
          && (pk in after.states <==> pk in before.states)
          && (pk in after.states ==> after.states[pk] == before.states[pk]))
    && after.cursor == (if es == [] then before.cursor else es[|es| - 1].seq_)
  }

  lemma {:induction false} OneRunFolds(c: Config, local: States, saved: Saved, run: seq<Event>, pk: string)
    requires IsRun(run)
    ensures FoldedOver(c, local, saved, run, RunSaved(c, local, saved, run), pk)
  {
    OfRun(pk, PartitionOf(run[0]), run);
  }

  lemma {:induction false} OfRunThen(pk: string, run: seq<Event>, rest: seq<Event>)
    requires IsRun(run)
    ensures Of(pk, run + rest) == if pk == PartitionOf(run[0]) then run + Of(pk, rest) else Of(pk, rest)
  {
    OfRun(pk, PartitionOf(run[0]), run);
    OfConcat(pk, run, rest);
    assert [] + Of(pk, rest) == Of(pk, rest);
  }

  /** The run's own partition goes on from what the run made of it. */
  lemma {:induction false} OwnFoldsOn(c: Config, local: States, run: seq<Event>, es: seq<Event>)
    requires IsRun(run)
    ensures var pk := PartitionOf(run[0]);
            Fold(c, Raw(c, RunLoaded(c, local, run), pk), es) == Fold(c, Raw(c, local, pk), run + es)
  {
    FoldConcat(c, Raw(c, local, PartitionOf(run[0])), run, es);
  }

  lemma {:induction false} LastOf(run: seq<Event>, rest: seq<Event>)
    requires run != []
    ensures var all := run + rest; all[|all| - 1] == if rest == [] then run[|run| - 1] else rest[|rest| - 1]
  {
  }

  lemma {:induction false} FoldsOn(
    c: Config, local: States, saved: Saved, run: seq<Event>, rest: seq<Event>, after: Saved, pk: string)
    requires IsRun(run)
    requires FoldedOver(c, RunLoaded(c, local, run), RunSaved(c, local, saved, run), rest, after, pk)
    ensures FoldedOver(c, local, saved, run + rest, after, pk)
  {
    OfRunThen(pk, run, rest);
    LastOf(run, rest);
    if pk == PartitionOf(run[0]) {
      OwnFoldsOn(c, local, run, Of(pk, rest));
      if Of(pk, rest) == [] { assert run + [] == run; }
    }
  }

  /** What the first of the remaining runs saves and keeps. */
  lemma {:induction false} OneLoaded(
    c: Config, local: States, saved: Saved, runs: seq<seq<Event>>, fates: seq<Fate>, i: nat)
    requires i < |runs| <= |fates|
    ensures SaveLoaded(c, local, saved, runs, fates, i) ==
              if fates[i] == SaveOk then
                SaveLoaded(c, RunLoaded(c, local, runs[i]), RunSaved(c, local, saved, runs[i]), runs, fates, i + 1)
              else if fates[i] == SaveReplyLost then RunSaved(c, local, saved, runs[i]) else saved
    ensures Kept(runs, fates, i) ==
              if fates[i] == SaveOk then runs[i] + Kept(runs, fates, i + 1)
              else if fates[i] == SaveReplyLost then runs[i] else []
  {
  }

  lemma {:induction false} OnePersisted(runs: seq<seq<Event>>, fates: seq<Fate>, i: nat)
    requires i < |runs| <= |fates|
    ensures Persisted(runs, fates, i) ==
              if fates[i] == SaveOk then |runs[i]| + Persisted(runs, fates, i + 1)
              else if fates[i] == SaveReplyLost then |runs[i]| else 0
  {
  }

  /** Whatever the reducer, saving from the batch's states folds each partition over its own persisted
      events and touches no other. */
  lemma {:induction false} LoadedFolds(
    c: Config, local: States, saved: Saved, runs: seq<seq<Event>>, fates: seq<Fate>, i: nat, pk: string)
    requires i <= |runs| <= |fates| && forall j | 0 <= j < |runs| :: IsRun(runs[j])
    ensures FoldedOver(c, local, saved, Kept(runs, fates, i), SaveLoaded(c, local, saved, runs, fates, i), pk)
    decreases |runs| - i
  {
    if i < |runs| {
      var run, fate := runs[i], fates[i];
      var here, next := RunLoaded(c, local, run), RunSaved(c, local, saved, run);
      OneLoaded(c, local, saved, runs, fates, i);
      if fate == SaveOk {
        LoadedFolds(c, here, next, runs, fates, i + 1, pk);
        FoldsOn(c, local, saved, run, Kept(runs, fates, i + 1), SaveLoaded(c, here, next, runs, fates, i + 1), pk);
      } else if fate == SaveReplyLost {
        OneRunFolds(c, local, saved, run, pk);
      }
    }
  }

  lemma {:induction false} LoadedFold(
    c: Config, local: States, saved: Saved, sorted: seq<Event>, runs: seq<seq<Event>>, fates: seq<Fate>,
    pks: set<string>)
    requires |runs| <= |fates| && RunsOf(runs, pks) && Flatten(runs) == sorted
    ensures Persisted(runs, fates, 0) <= |sorted|
    ensures forall pk :: FoldedOver(c, local, saved, sorted[..Persisted(runs, fates, 0)],
                                    SaveLoaded(c, local, saved, runs, fates, 0), pk)
  {
    assert runs[..0] == [];
    KeptIsPrefix(sorted, runs, fates, 0, 0);
    forall pk ensures FoldedOver(c, local, saved, sorted[..Persisted(runs, fates, 0)],
                                 SaveLoaded(c, local, saved, runs, fates, 0), pk) {
      LoadedFolds(c, local, saved, runs, fates, 0, pk);
    }
  }

  /** What a partition of a batch starts from: its saved state unless that is missing or {}, else
      InitialState, else {}. */
  ghost predicate StartsFrom(c: Config, states: States, pk: string, from: State) {
    if pk in states && states[pk] != map[] then from == states[pk]
    else if c.initialState.Some? then from == c.initialState.value
    else from == map[]
  }

  lemma {:induction false} LoadedStart(
    c: Config, states: States, events: seq<Event>, sorted: seq<Event>, n: nat, pk: string)
    requires n <= |sorted| && multiset(sorted) == multiset(events) && Of(pk, sorted[..n]) != []
    ensures var pks := set e | e in events :: PartitionOf(e);
            StartsFrom(c, states, pk, Raw(c, Loaded(states, pks), pk))
  {
    var e := InOf(pk, sorted[..n]);
    assert e in multiset(sorted);
    assert e in events;
  }

  lemma {:induction false} BatchFolds(
    c: Config, before: Saved, events: seq<Event>, sorted: seq<Event>, runs: seq<seq<Event>>, fates: seq<Fate>)
    requires |runs| <= |fates| && AreRuns(runs) && Flatten(runs) == sorted && multiset(sorted) == multiset(events)
    ensures var n := Persisted(runs, fates, 0);
            && n <= |sorted|
            && BatchSaved(c, before, sorted[..n],
                 SaveLoaded(c, Loaded(before.states, set e | e in events :: PartitionOf(e)), before, runs, fates, 0))
  {
    var pks := set e | e in events :: PartitionOf(e);
    var n, local := Persisted(runs, fates, 0), Loaded(before.states, pks);
    PartitionsKnown(runs, sorted, events);
    LoadedFold(c, local, before, sorted, runs, fates, pks);
    forall pk | Of(pk, sorted[..n]) != [] ensures StartsFrom(c, before.states, pk, Raw(c, local, pk)) {
      LoadedStart(c, before.states, events, sorted, n, pk);
    }
    var after := SaveLoaded(c, local, before, runs, fates, 0);
    forall pk ensures PartitionSaved(c, before, sorted[..n], after, pk) {
      assert FoldedOver(c, local, before, sorted[..n], after, pk);
    }
    assert FoldedOver(c, local, before, sorted[..n], after, GLOBAL);
  }

  ghost predicate PartitionSaved(c: Config, before: Saved, es: seq<Event>, after: Saved, pk: string) {
    if Of(pk, es) == [] then
      && (pk in after.states <==> pk in before.states)
      && (pk in after.states ==> after.states[pk] == before.states[pk])
    else
      && pk in after.states
      && exists from :: StartsFrom(c, before.states, pk, from) && after.states[pk] == Fold(c, from, Of(pk, es))
  }

  /** These events were saved, partition by partition, and the cursor is at the last of them. */
  ghost predicate BatchSaved(c: Config, before: Saved, es: seq<Event>, after: Saved) {
    && (forall pk :: PartitionSaved(c, before, es, after, pk))
    && after.cursor == if es == [] then before.cursor else es[|es| - 1].seq_
  }

  /** So a partition whose saved state is missing or {} starts from InitialState, and from {} when there
      is none, whatever the reducer makes of {}. */
  lemma {:induction false} NewPartitionStarts(c: Config, before: Saved, es: seq<Event>, after: Saved, pk: string)
    requires BatchSaved(c, before, es, after) && Of(pk, es) != []
    requires pk in before.states ==> before.states[pk] == map[]
    ensures pk in after.states
    ensures c.initialState.Some? ==> after.states[pk] == Fold(c, c.initialState.value, Of(pk, es))
    ensures c.initialState.None? ==> after.states[pk] == Fold(c, map[], Of(pk, es))
  {
    assert PartitionSaved(c, before, es, after, pk);
  }

  lemma {:induction false} InOwn(e: Event, es: seq<Event>)
    requires e in es
    ensures Of(PartitionOf(e), es) != []
  {
    if es[0] != e { InOwn(e, es[1..]); }
  }

  /** An event without a partition is saved in `__global__`, and any other in the partition it names. */
  lemma {:induction false} SavedWhere(c: Config, before: Saved, es: seq<Event>, after: Saved, e: Event)
    requires BatchSaved(c, before, es, after) && e in es
    ensures (if e.partition == "" then "__global__" else e.partition) in after.states
  {
    InOwn(e, es);
    assert PartitionSaved(c, before, es, after, PartitionOf(e));
  }

  lemma {:induction false} BatchAdvances(
    c: Config, before: Saved, events: seq<Event>, sorted: seq<Event>, runs: seq<seq<Event>>, fates: seq<Fate>)
    requires |runs| <= |fates| && AreRuns(runs) && Flatten(runs) == sorted && multiset(sorted) == multiset(events)
    requires EmptyMeansInitial(c) && FoldedStates(c, before.states)
    ensures var n := Persisted(runs, fates, 0);
            && n <= |sorted|
            && SaveLoaded(c, Loaded(before.states, set e | e in events :: PartitionOf(e)), before, runs, fates, 0) ==
                 Advance(c, before, sorted[..n])
  {
    var pks := set e | e in events :: PartitionOf(e);
    PartitionsKnown(runs, sorted, events);
    LoadedAgrees(c, before.states, pks);
    LoadedIsSaved(c, Loaded(before.states, pks), before, runs, fates, 0, pks);
    SaveRunsAdvances(c, before, sorted, runs, fates);
  }

  /** The batch, sorted and cut into runs, persisted exactly its first n events. */
  ghost predicate PersistsExactly(events: seq<Event>, fates: seq<Fate>, n: nat) {
    exists runs ::
      AreRuns(runs) && Flatten(runs) == SortBySeq(events) && |runs| <= |fates| && n == Persisted(runs, fates, 0)
  }

  predicate AllOk(fates: seq<Fate>) {
    forall i | 0 <= i < |fates| :: fates[i] == SaveOk
  }

  class Runner {
    const config: Config
    var states: States   // the states of the batch at hand
    var saved: Saved     // the server's copy, read and written only by requests

    constructor (config: Config, saved: Saved)
      ensures this.config == config && this.saved == saved
    {
      this.config, states, this.saved := config, map[], saved;
    }

    /** loadPartitionStates: fetch the saved states of the batch's partitions; a missing or {}
        state maps to nothing, which behaves like it when {} means the initial state. */
    method Load(pks: set<string>)
      modifies this`states
      ensures states == Loaded(saved.states, pks)
      ensures EmptyMeansInitial(config) && FoldedStates(config, saved.states) ==>
                AgreeOn(config, states, saved.states, pks)
    {
      states := map pk | pk in pks && pk in saved.states && saved.states[pk] != map[] :: saved.states[pk];
      if EmptyMeansInitial(config) && FoldedStates(config, saved.states) {
        LoadedAgrees(config, saved.states, pks);
      }
    }

    /** One run: reduce it from the batch's state of its partition, or InitialState, and save it with
        its last seq, unless something fails first. */
    method ProcessRun(run: seq<Event>, fate: Fate) returns (ok: bool)
      requires run != []
      modifies this`states, this`saved
      ensures ok <==> fate == SaveOk
      ensures saved == if fate == SaveOk || fate == SaveReplyLost
                       then RunSaved(config, old(states), old(saved), run) else old(saved)
      ensures ok ==> states == RunLoaded(config, old(states), run)
    {
      var pk := PartitionOf(run[0]);
      var state := ReduceRun(run, if pk in states then states[pk] else Start(config));
      if fate == HandlerError || fate == LeaseLost { return false; }
      if fate == SaveOk || fate == SaveReplyLost {
        saved := Saved(saved.states[pk := state], run[|run| - 1].seq_);
      }
      if fate != SaveOk { return false; }
      states := states[pk := state];
      ok := true;
    }

    /** processManaged on one batch, for every way its runs can end.  Whatever happens, a prefix of
        the batch in seq order is saved, and all of it when no run failed: every partition of the
        prefix holds the reducer folded over its events of the prefix, from its old state, or from
        InitialState, or from {} when there is none, if that was missing or {}; no other partition
        changed.  When {} means the initial state, that is the old state advanced by the prefix. */
    method ProcessManaged(events: seq<Event>, fates: seq<Fate>) returns (ok: bool, n: nat)
      requires |fates| >= |events|
      modifies this`states, this`saved
      ensures n <= |SortBySeq(events)| == |events|
      ensures BatchSaved(config, old(saved), SortBySeq(events)[..n], saved)
      ensures EmptyMeansInitial(config) && FoldedStates(config, old(saved.states)) ==>
                saved == Advance(config, old(saved), SortBySeq(events)[..n])
      ensures PersistsExactly(events, fates, n)
      ensures ok ==> n == |events|
      ensures AllOk(fates) ==> ok
    {
      var sorted := SortBySeq(events);
      SortBySeqSorts(events);
      assert |multiset(sorted)| == |multiset(events)|;
      var runs := CutRuns(sorted);
      RunsFit(runs, sorted);
      ghost var before := saved;
      BatchFolds(config, before, events, sorted, runs, fates);
      if EmptyMeansInitial(config) && FoldedStates(config, before.states) {
        BatchAdvances(config, before, events, sorted, runs, fates);
      }
      Load(set e | e in events :: PartitionOf(e));
      SaveRunsAdvances(config, saved, sorted, runs, fates);
      ok, n := ProcessRuns(runs, fates);
    }

    /** readStream with one batch: the stream is opened at the saved cursor and delivers `batch`.
        Some first part of what followed the old cursor is saved, and the rest follows the new. */
    method ReadStream(log: seq<Event>, batch: seq<Event>, fates: seq<Fate>) returns (n: nat)
      requires EmptyMeansInitial(config) && FoldedStates(config, saved.states) && Increasing(log)
      requires Delivers(log, saved.cursor, batch) && |fates| >= |log|
      modifies this`states, this`saved
      ensures FoldedStates(config, saved.states)
      ensures n <= |batch| && Reached(config, log, old(saved), saved, n)
      ensures AllOk(fates) ==> n == |batch|
    {
      ghost var s := saved;
      SortedDelivery(log, saved.cursor, batch);
      var ok;
      ok, n := ProcessManaged(batch, fates);
      RoundAdvances(config, log, s, batch, n);
      FoldAllKeepsFolded(config, s.states, SortBySeq(batch)[..n]);
    }

    /** Round `i` of the loop. */
    method Round(
      log: seq<Event>, feed: (nat, nat) -> seq<Event>, fates: nat -> seq<Fate>, i: nat, ghost s0: Saved,
      ghost k: nat)
      returns (ghost n: nat)
      requires EmptyMeansInitial(config) && FoldedStates(config, saved.states) && Increasing(log)
      requires Feeds(log, feed) && Suffices(log, fates) && Reached(config, log, s0, saved, k)
      modifies this`states, this`saved
      ensures FoldedStates(config, saved.states) && Reached(config, log, s0, saved, k + n)
      ensures Undisturbed(log, feed, fates, i) ==> After(log, saved.cursor) == []
    {
      ghost var s := saved;
      var batch, fs := feed(i, saved.cursor), fates(i);
      assert Delivers(log, saved.cursor, batch) && |fs| >= |log|;
      n := ReadStream(log, batch, fs);
      ReachedFurther(config, log, s0, s, k, saved, n);
      if Undisturbed(log, feed, fates, i) { UndisturbedTakesAll(config, log, feed, fates, i, s, saved, n); }
    }

    /** streamLoop: every round opens the stream at the saved cursor, receives `feed`, some of
        the events after it in any order, and processes them as one batch that fails wherever
        `fates` says.  Whatever fails, the server then holds the old state advanced by exactly
        the events between the old cursor and the new one, and one undisturbed round over all
        that is left leaves nothing after the cursor. */
    method StreamLoop(log: seq<Event>, feed: (nat, nat) -> seq<Event>, fates: nat -> seq<Fate>, rounds: nat)
      requires EmptyMeansInitial(config) && FoldedStates(config, saved.states) && Increasing(log)
      requires Feeds(log, feed) && Suffices(log, fates)
      modifies this`states, this`saved
      ensures saved == Advance(config, old(saved), UpTo(After(log, old(saved.cursor)), saved.cursor))
      ensures After(log, saved.cursor) == [] ==>
                saved == Advance(config, old(saved), After(log, old(saved.cursor)))
      ensures rounds > 0 && Undisturbed(log, feed, fates, rounds - 1) ==> After(log, saved.cursor) == []
    {
      ghost var s0, k := saved, 0;
      NothingReached(config, log, s0);
      for i := 0 to rounds
        invariant FoldedStates(config, saved.states) && Reached(config, log, s0, saved, k)
        invariant i > 0 && Undisturbed(log, feed, fates, i - 1) ==> After(log, saved.cursor) == []
      {
        var n := Round(log, feed, fates, i, s0, k);
        k := k + n;
      }
      ReachedExactly(config, log, s0, saved, k);
    }

    /** The runs of a batch in order, up to the first that fails. */
    method ProcessRuns(runs: seq<seq<Event>>, fates: seq<Fate>) returns (ok: bool, n: nat)
      requires (forall i | 0 <= i < |runs| :: runs[i] != []) && |runs| <= |fates|
      modifies this`states, this`saved
      ensures saved == SaveLoaded(config, old(states), old(saved), runs, fates, 0)
      ensures n == Persisted(runs, fates, 0)
      ensures ok <==> forall i | 0 <= i < |runs| :: fates[i] == SaveOk
    {
      var i := 0;
      n, ok := 0, true;
      ghost var goal, total := SaveLoaded(config, states, saved, runs, fates, 0), Persisted(runs, fates, 0);
      while i < |runs|
        invariant i <= |runs| && ok
        invariant forall j | 0 <= j < i :: fates[j] == SaveOk
        invariant SaveLoaded(config, states, saved, runs, fates, i) == goal
        invariant n + Persisted(runs, fates, i) == total
      {
        OneLoaded(config, states, saved, runs, fates, i);
        OnePersisted(runs, fates, i);
        var fate := fates[i];
        ok := ProcessRun(runs[i], fate);
        if fate == SaveOk || fate == SaveReplyLost { n := n + |runs[i]|; }
        if !ok { return; }
        i := i + 1;
      }
    }

    /** The inner loop: the handler over one run. */
    method ReduceRun(run: seq<Event>, from: State) returns (state: State)
      ensures state == Fold(config, from, run)
    {
      state := from;
      for i := 0 to |run|
        invariant Fold(config, from, run) == Fold(config, state, run[i..])
      {
        state := config.handler(state, run[i]);
        assert run[i..][1..] == run[i + 1..];
      }
    }
  }

  /** Saving run by run advances the saved state by the persisted prefix of the batch. */
  lemma {:induction false} SaveRunsAdvances(
    c: Config, saved: Saved, sorted: seq<Event>, runs: seq<seq<Event>>, fates: seq<Fate>)
    requires |runs| <= |fates| && Flatten(runs) == sorted && forall i | 0 <= i < |runs| :: runs[i] != []
    ensures Persisted(runs, fates, 0) <= |sorted|
    ensures SaveRuns(c, saved, runs, fates, 0) == Advance(c, saved, sorted[..Persisted(runs, fates, 0)])
    ensures (forall i | 0 <= i < |runs| :: fates[i] == SaveOk) ==> Persisted(runs, fates, 0) == |sorted|
  {
    assert runs[..0] == [] && sorted[..0] == [];
    PersistedFits(sorted, runs, fates, 0, 0);
    SaveRunsFrom(c, saved, saved, sorted, runs, fates, 0, 0, Persisted(runs, fates, 0));
  }

  lemma {:induction false} PersistedFits(sorted: seq<Event>, runs: seq<seq<Event>>, fates: seq<Fate>, i: nat, n: nat)
    requires i <= |runs| <= |fates| && Flatten(runs) == sorted && n == |Flatten(runs[..i])|
    ensures n + Persisted(runs, fates, i) <= |sorted|
    ensures (forall j | i <= j < |runs| :: fates[j] == SaveOk) ==> n + Persisted(runs, fates, i) == |sorted|
    decreases |runs| - i
  {
    if i == |runs| {
      assert runs[..i] == runs;
    } else {
      RunInPlace(runs, sorted, i);
      PersistedFits(sorted, runs, fates, i + 1, n + |runs[i]|);
    }
  }

  lemma {:induction false} SaveRunsFrom(
    c: Config, saved0: Saved, s: Saved, sorted: seq<Event>, runs: seq<seq<Event>>, fates: seq<Fate>, i: nat, n: nat,
    m: nat)
    requires i <= |runs| <= |fates| && Flatten(runs) == sorted && forall j | 0 <= j < |runs| :: runs[j] != []
    requires n == |Flatten(runs[..i])| && m == n + Persisted(runs, fates, i) <= |sorted|
    requires s == Advance(c, saved0, sorted[..n])
    ensures SaveRuns(c, s, runs, fates, i) == Advance(c, saved0, sorted[..m])
    decreases |runs| - i
  {
    if i < |runs| {
      OneRun(c, s, runs, fates, i);
      RunAdvances(c, saved0, runs, sorted, i, n);
      if fates[i] == SaveOk {
        SaveRunsFrom(c, saved0, Advance(c, s, runs[i]), sorted, runs, fates, i + 1, n + |runs[i]|, m);
      }
    }
  }

  /** What the first of the remaining runs saves and persists. */
  lemma {:induction false} OneRun(c: Config, s: Saved, runs: seq<seq<Event>>, fates: seq<Fate>, i: nat)
    requires i < |runs| <= |fates|
    ensures SaveRuns(c, s, runs, fates, i) ==
              if fates[i] == SaveOk then SaveRuns(c, Advance(c, s, runs[i]), runs, fates, i + 1)
              else if fates[i] == SaveReplyLost then Advance(c, s, runs[i]) else s
    ensures Persisted(runs, fates, i) ==
              if fates[i] == SaveOk then |runs[i]| + Persisted(runs, fates, i + 1)
              else if fates[i] == SaveReplyLost then |runs[i]| else 0
  {
  }

  lemma {:induction false} SameIsSymmetric(c: Config, a: State, b: State)
    requires Same(c, a, b) || a == b
    ensures Same(c, b, a)
  {
    forall e ensures SameNext(c, b, a, e) { assert a == b || SameNext(c, a, b, e); }
  }

  lemma {:induction false} FlattenBounds(runs: seq<seq<Event>>)
    requires forall i | 0 <= i < |runs| :: runs[i] != []
    ensures |runs| <= |Flatten(runs)|
  {
    if runs != [] { FlattenBounds(runs[..|runs| - 1]); }
  }

  lemma {:induction false} RunsFit(runs: seq<seq<Event>>, sorted: seq<Event>)
    requires Flatten(runs) == sorted && forall i | 0 <= i < |runs| :: IsRun(runs[i])
    ensures |runs| <= |sorted|
  {
    FlattenBounds(runs);
  }

  lemma {:induction false} InFlatten(runs: seq<seq<Event>>, i: nat, e: Event)
    requires i < |runs| && e in runs[i]
    ensures e in Flatten(runs)
    decreases |runs|
  {
    if i < |runs| - 1 { InFlatten(runs[..|runs| - 1], i, e); }
  }

  lemma {:induction false} PartitionsKnown(runs: seq<seq<Event>>, sorted: seq<Event>, events: seq<Event>)
    requires Flatten(runs) == sorted && multiset(sorted) == multiset(events) && AreRuns(runs)
    ensures RunsOf(runs, set e | e in events :: PartitionOf(e))
  {
    forall i | 0 <= i < |runs|
      ensures IsRun(runs[i]) && PartitionOf(runs[i][0]) in set e | e in events :: PartitionOf(e)
    {
      InFlatten(runs, i, runs[i][0]);
      assert runs[i][0] in multiset(sorted);
    }
  }

  lemma {:induction false} FlattenPrefix(runs: seq<seq<Event>>, i: nat)
    requires i <= |runs|
    ensures Flatten(runs[..i]) <= Flatten(runs)
    decreases |runs|
  {
    if i < |runs| {
      var init := runs[..|runs| - 1];
      assert runs[..i] == init[..i];
      FlattenPrefix(init, i);
    } else {
      assert runs[..i] == runs;
    }
  }

  /** Run `i` stands in the sorted batch right after the runs before it. */
  lemma {:induction false} RunInPlace(runs: seq<seq<Event>>, sorted: seq<Event>, i: nat)
    requires i < |runs| && Flatten(runs) == sorted
    ensures var n := |Flatten(runs[..i])|;
            n + |runs[i]| <= |sorted| && runs[i] == sorted[n..n + |runs[i]|]
            && Flatten(runs[..i + 1]) == sorted[..n + |runs[i]|]
  {
    FlattenPrefix(runs, i);
    FlattenPrefix(runs, i + 1);
    assert runs[..i + 1][..i] == runs[..i];
  }

  lemma {:induction false} AdvanceConcat(c: Config, s: Saved, es: seq<Event>, n: nat, m: nat)
    requires n <= m <= |es|
    ensures Advance(c, s, es[..m]) == Advance(c, Advance(c, s, es[..n]), es[n..m])
  {
    assert es[..m] == es[..n] + es[n..m];
    FoldAllConcat(c, s.states, es[..n], es[n..m]);
  }

  /** Run `i` advances what the runs before it have saved. */
  lemma {:induction false} RunAdvances(c: Config, s: Saved, runs: seq<seq<Event>>, sorted: seq<Event>, i: nat, n: nat)
    requires i < |runs| && Flatten(runs) == sorted && n == |Flatten(runs[..i])| && runs[i] != []
    ensures n + |runs[i]| <= |sorted| && n + |runs[i]| == |Flatten(runs[..i + 1])|
    ensures Advance(c, Advance(c, s, sorted[..n]), runs[i]) == Advance(c, s, sorted[..n + |runs[i]|])
  {
    RunInPlace(runs, sorted, i);
    AdvanceConcat(c, s, sorted, n, n + |runs[i]|);
  }

  // ------------------------------------------------------- resuming at the cursor

  /** No two events share a seq. */
  predicate Increasing(es: seq<Event>) {
    forall i, j | 0 <= i < j < |es| :: es[i].seq_ < es[j].seq_
  }

  /** What the server streams from a saved cursor: the events with a larger seq. */
  function After(log: seq<Event>, cursor: nat): seq<Event> {
    if log == [] then []
    else if log[0].seq_ > cursor then [log[0]] + After(log[1..], cursor)
    else After(log[1..], cursor)
  }

  /** The events that the cursor covers. */
  function UpTo(log: seq<Event>, cursor: nat): seq<Event> {
    if log == [] then []
    else if log[0].seq_ <= cursor then [log[0]] + UpTo(log[1..], cursor)
    else UpTo(log[1..], cursor)
  }

  lemma {:induction false} AfterExceeds(log: seq<Event>, cursor: nat, i: nat)
    requires i < |After(log, cursor)|
    ensures After(log, cursor)[i].seq_ > cursor && After(log, cursor)[i] in log
  {
    if log[0].seq_ > cursor {
      if i > 0 { AfterExceeds(log[1..], cursor, i - 1); }
    } else {
      AfterExceeds(log[1..], cursor, i);
    }
  }

  /** Where a sorted log is cut by a cursor. */
  lemma {:induction false} CutHere(es: seq<Event>, cursor: nat, n: nat)
    requires n <= |es|
    requires forall i | 0 <= i < |es| :: es[i].seq_ <= cursor <==> i < n
    ensures UpTo(es, cursor) == es[..n] && After(es, cursor) == es[n..]
    decreases |es|
  {
    if es != [] {
      var m := if n > 0 then n - 1 else 0;
      forall i | 0 <= i < |es[1..]| ensures es[1..][i].seq_ <= cursor <==> i < m { assert es[1..][i] == es[i + 1]; }
      CutHere(es[1..], cursor, m);
      assert es[0].seq_ <= cursor <==> 0 < n;
    }
  }

  lemma {:induction false} CutAt(log: seq<Event>, cursor: nat)
    requires SortedBySeq(log)
    ensures |UpTo(log, cursor)| <= |log|
    ensures UpTo(log, cursor) == log[..|UpTo(log, cursor)|] && After(log, cursor) == log[|UpTo(log, cursor)|..]
    ensures forall i | 0 <= i < |log| :: log[i].seq_ <= cursor <==> i < |UpTo(log, cursor)|
  {
    var n := 0;
    while n < |log| && log[n].seq_ <= cursor
      invariant n <= |log| && forall i | 0 <= i < n :: log[i].seq_ <= cursor
    {
      n := n + 1;
    }
    CutHere(log, cursor, n);
  }

  predicate AllAfter(es: seq<Event>, cursor: nat) {
    forall i | 0 <= i < |es| :: es[i].seq_ > cursor
  }

  /** A cut between two events of one seq. */
  predicate SplitsSeq(es: seq<Event>, n: nat) {
    0 < n < |es| && es[n - 1].seq_ == es[n].seq_
  }

  /** Once a prefix of the events after the cursor is saved, the events after the new cursor are
      exactly the rest, if and only if the prefix does not end inside a seq. */
  lemma {:induction false} CursorResumesIff(c: Config, s: Saved, es: seq<Event>, n: nat)
    requires SortedBySeq(es) && n <= |es| && AllAfter(es, s.cursor)
    ensures After(es, Advance(c, s, es[..n]).cursor) == es[n..] <==> !SplitsSeq(es, n)
  {
    var cursor := Advance(c, s, es[..n]).cursor;
    if SplitsSeq(es, n) {
      if After(es, cursor) == es[n..] {
        AfterExceeds(es, cursor, 0);
        assert false;
      }
    } else {
      CutHere(es, cursor, n);
    }
  }

  // ------------------------------------------------------------- ties in one batch

  /** Events that share a seq are in one run. */
  predicate TiesInRuns(es: seq<Event>) {
    forall i | 0 < i < |es| && es[i - 1].seq_ == es[i].seq_ :: PartitionOf(es[i - 1]) == PartitionOf(es[i])
  }

  /** The runs of a batch of events after the cursor. */
  ghost predicate BatchAfter(s: Saved, runs: seq<seq<Event>>) {
    AreRuns(runs) && SortedBySeq(Flatten(runs)) && AllAfter(Flatten(runs), s.cursor)
  }

  /** After these fates, what follows the saved cursor is what was not persisted. */
  ghost predicate Resumes(c: Config, s: Saved, runs: seq<seq<Event>>, fates: seq<Fate>)
    requires |runs| <= |fates|
  {
    var es, n := Flatten(runs), Persisted(runs, fates, 0);
    n <= |es| && After(es, SaveRuns(c, s, runs, fates, 0).cursor) == es[n..]
  }

  lemma {:induction false} ResumesIffNoSplit(c: Config, s: Saved, runs: seq<seq<Event>>, fates: seq<Fate>)
    requires BatchAfter(s, runs) && |runs| <= |fates|
    ensures Resumes(c, s, runs, fates) <==> !SplitsSeq(Flatten(runs), Persisted(runs, fates, 0))
  {
    var es := Flatten(runs);
    assert forall i | 0 <= i < |runs| :: IsRun(runs[i]);
    SaveRunsAdvances(c, s, es, runs, fates);
    CursorResumesIff(c, s, es, Persisted(runs, fates, 0));
  }

  /** A batch can be persisted up to the end of each of its runs, and nowhere else. */
  lemma {:induction false} PersistedAtBoundary(runs: seq<seq<Event>>, fates: seq<Fate>, i: nat) returns (k: nat)
    requires i <= |runs| <= |fates|
    ensures i <= k <= |runs| && |Flatten(runs[..i])| + Persisted(runs, fates, i) == |Flatten(runs[..k])|
    decreases |runs| - i
  {
    k := i;
    if i < |runs| {
      RunInPlace(runs, Flatten(runs), i);
      if fates[i] == SaveOk { k := PersistedAtBoundary(runs, fates, i + 1); }
      else if fates[i] == SaveReplyLost { k := i + 1; }
    }
  }

  function FailingAt(k: nat, n: nat): seq<Fate> {
    seq(n, i => if i < k then SaveOk else HandlerError)
  }

  lemma {:induction false} PersistedUpToFailure(runs: seq<seq<Event>>, k: nat, i: nat)
    requires i <= k <= |runs|
    ensures |Flatten(runs[..i])| + Persisted(runs, FailingAt(k, |runs|), i) == |Flatten(runs[..k])|
    decreases k - i
  {
    if i < k {
      RunInPlace(runs, Flatten(runs), i);
      PersistedUpToFailure(runs, k, i + 1);
    }
  }

  lemma {:induction false} SliceEnds(es: seq<Event>, n: nat, m: nat, run: seq<Event>)
    requires n < m <= |es| && run == es[n..m]
    ensures es[n] == run[0] && es[m - 1] == run[|run| - 1]
  {
  }

  lemma {:induction false} NeighboursBreak(runs: seq<seq<Event>>, k: nat)
    requires AreRuns(runs) && 0 < k < |runs|
    ensures var before, here := runs[k - 1], runs[k];
            before != [] && here != [] && PartitionOf(before[|before| - 1]) != PartitionOf(here[0])
  {
    var m := k - 1;
    assert IsRun(runs[m]) && IsRun(runs[k]) && Breaks(runs, k);
  }

  /** The run stands at place n of the batch. */
  ghost predicate StandsAt(es: seq<Event>, n: nat, run: seq<Event>) {
    n + |run| <= |es| && run == es[n..n + |run|]
  }

  lemma {:induction false} RunStands(runs: seq<seq<Event>>, es: seq<Event>, k: nat, n: nat)
    requires k < |runs| && Flatten(runs) == es && n == |Flatten(runs[..k])|
    ensures StandsAt(es, n, runs[k]) && |Flatten(runs[..k + 1])| == n + |runs[k]|
  {
    RunInPlace(runs, es, k);
  }

  lemma {:induction false} NeighboursStand(runs: seq<seq<Event>>, es: seq<Event>, m: nat, n: nat)
    requires m + 1 < |runs| && Flatten(runs) == es && n == |Flatten(runs[..m + 1])|
    ensures |runs[m]| <= n && StandsAt(es, n - |runs[m]|, runs[m]) && StandsAt(es, n, runs[m + 1])
  {
    RunStands(runs, es, m, |Flatten(runs[..m])|);
    RunStands(runs, es, m + 1, n);
  }

  /** The two events at a boundary, over the runs that meet there. */
  lemma {:induction false} RunsMeet(es: seq<Event>, n: nat, before: seq<Event>, here: seq<Event>)
    requires before != [] && here != [] && |before| <= n
    requires StandsAt(es, n - |before|, before) && StandsAt(es, n, here)
    requires PartitionOf(before[|before| - 1]) != PartitionOf(here[0])
    ensures 0 < n < |es| && PartitionOf(es[n - 1]) != PartitionOf(es[n])
  {
    SliceEnds(es, n - |before|, n, before);
    SliceEnds(es, n, n + |here|, here);
  }

  /** The partition changes at the boundary of two runs, and only there. */
  lemma {:induction false} BoundaryBreaks(runs: seq<seq<Event>>, es: seq<Event>, k: nat, n: nat)
    requires AreRuns(runs) && 0 < k < |runs| && Flatten(runs) == es && n == |Flatten(runs[..k])|
    ensures 0 < n < |es| && PartitionOf(es[n - 1]) != PartitionOf(es[n])
  {
    NeighboursBreak(runs, k);
    NeighboursStand(runs, es, k - 1, n);
    RunsMeet(es, n, runs[k - 1], runs[k]);
  }

  lemma {:induction false} InLastRun(before: seq<Event>, last: seq<Event>, n: nat)
    requires IsRun(last) && |before| < n < |before + last|
    ensures PartitionOf((before + last)[n - 1]) == PartitionOf((before + last)[n])
  {
    var j := n - |before|;
    assert (before + last)[n - 1] == last[j - 1] && (before + last)[n] == last[j];
  }

  lemma {:induction false} BreakIsBoundary(runs: seq<seq<Event>>, n: nat) returns (k: nat)
    requires AreRuns(runs) && 0 < n < |Flatten(runs)|
    requires PartitionOf(Flatten(runs)[n - 1]) != PartitionOf(Flatten(runs)[n])
    ensures 0 < k < |runs| && n == |Flatten(runs[..k])|
    decreases |runs|
  {
    var m := |runs| - 1;
    var init, last, es := runs[..m], runs[m], Flatten(runs);
    assert es == Flatten(init) + last && IsRun(last);
    if n == |Flatten(init)| {
      k := m;
    } else if n > |Flatten(init)| {
      InLastRun(Flatten(init), last, n);
      assert false;
    } else {
      forall i | 0 <= i < |init| ensures IsRun(init[i]) && Breaks(init, i) { assert IsRun(runs[i]) && Breaks(runs, i); }
      k := BreakIsBoundary(init, n);
      assert init[..k] == runs[..k];
    }
  }

  lemma {:induction false} TiesInRunsResume(c: Config, s: Saved, runs: seq<seq<Event>>, fates: seq<Fate>)
    requires BatchAfter(s, runs) && |fates| == |runs|
    requires TiesInRuns(Flatten(runs))
    ensures Resumes(c, s, runs, fates)
  {
    var k := PersistedAtBoundary(runs, fates, 0);
    assert runs[..0] == [];
    if 0 < k < |runs| {
      BoundaryBreaks(runs, Flatten(runs), k, |Flatten(runs[..k])|);
    } else {
      assert runs[..|runs|] == runs;
    }
    ResumesIffNoSplit(c, s, runs, fates);
  }

  lemma {:induction false} SharedSeqDoesNotResume(c: Config, s: Saved, runs: seq<seq<Event>>, n: nat)
    returns (fates: seq<Fate>)
    requires BatchAfter(s, runs) && SplitsSeq(Flatten(runs), n)
    requires PartitionOf(Flatten(runs)[n - 1]) != PartitionOf(Flatten(runs)[n])
    ensures |fates| == |runs| && !Resumes(c, s, runs, fates)
  {
    var k := BreakIsBoundary(runs, n);
    fates := FailingAt(k, |runs|);
    assert runs[..0] == [];
    PersistedUpToFailure(runs, k, 0);
    ResumesIffNoSplit(c, s, runs, fates);
  }

  /** However the batch fails, what follows the saved cursor is what was not persisted. */
  ghost predicate AlwaysResumes(c: Config, s: Saved, runs: seq<seq<Event>>) {
    forall fates | |fates| == |runs| :: Resumes(c, s, runs, fates)
  }

  lemma {:induction false} TiesInRunsSuffice(c: Config, s: Saved, runs: seq<seq<Event>>)
    requires BatchAfter(s, runs) && TiesInRuns(Flatten(runs))
    ensures AlwaysResumes(c, s, runs)
  {
    forall fates | |fates| == |runs| ensures Resumes(c, s, runs, fates) { TiesInRunsResume(c, s, runs, fates); }
  }

  lemma {:induction false} SharedSeq(es: seq<Event>) returns (n: nat)
    requires !TiesInRuns(es)
    ensures SplitsSeq(es, n) && PartitionOf(es[n - 1]) != PartitionOf(es[n])
  {
    n :| 0 < n < |es| && es[n - 1].seq_ == es[n].seq_ && PartitionOf(es[n - 1]) != PartitionOf(es[n]);
  }

  /** A batch that fails anywhere leaves exactly its unsaved events after the saved cursor, if
      and only if no seq is shared across the boundary of two runs. */
  lemma {:induction false} BatchResumesIff(c: Config, s: Saved, runs: seq<seq<Event>>)
    requires BatchAfter(s, runs)
    ensures AlwaysResumes(c, s, runs) <==> TiesInRuns(Flatten(runs))
  {
    if TiesInRuns(Flatten(runs)) {
      TiesInRunsSuffice(c, s, runs);
    } else {
      var n := SharedSeq(Flatten(runs));
      var fates := SharedSeqDoesNotResume(c, s, runs, n);
    }
  }

  /** The smallest case: two events of one seq in two partitions.  Once the first run is saved,
      nothing follows the cursor, and the second event is lost. */
  lemma {:induction false} SharedSeqLosesEvent(c: Config)
    ensures var e, f := Event(1, "a", 0), Event(1, "b", 0);
            && AreRuns([[e], [f]]) && Persisted([[e], [f]], [SaveOk, HandlerError], 0) == 1
            && var saved := SaveRuns(c, Saved(map[], 0), [[e], [f]], [SaveOk, HandlerError], 0);
               After([e, f], saved.cursor) == [] && PartitionOf(f) !in saved.states
  {
    var e, f := Event(1, "a", 0), Event(1, "b", 0);
    assert [e, f][1..] == [f] && [f][1..] == [];
    FoldAllRun(c, map[], "a", [e]);
    CutHere([e, f], 1, 2);
  }

  // ---------------------------------------------------------- any number of batches

  /** The server delivers some first part of what follows the cursor, in any order. */
  ghost predicate Delivers(log: seq<Event>, cursor: nat, batch: seq<Event>) {
    |batch| <= |After(log, cursor)| && multiset(batch) == multiset(After(log, cursor)[..|batch|])
  }

  ghost predicate Feeds(log: seq<Event>, feed: (nat, nat) -> seq<Event>) {
    forall i, cursor :: Delivers(log, cursor, feed(i, cursor))
  }

  /** Every round has a fate for each run it may have. */
  ghost predicate Suffices(log: seq<Event>, fates: nat -> seq<Fate>) {
    forall i :: |fates(i)| >= |log|
  }

  /** This round delivers all there is, and nothing fails. */
  ghost predicate Undisturbed(log: seq<Event>, feed: (nat, nat) -> seq<Event>, fates: nat -> seq<Fate>, i: nat) {
    AllOk(fates(i)) && forall cursor :: multiset(feed(i, cursor)) == multiset(After(log, cursor))
  }

  lemma {:induction false} UndisturbedTakesAll(
    c: Config, log: seq<Event>, feed: (nat, nat) -> seq<Event>, fates: nat -> seq<Fate>,
    i: nat, s: Saved, s': Saved, n: nat)
    requires Undisturbed(log, feed, fates, i) && Reached(c, log, s, s', n) && n == |feed(i, s.cursor)|
    ensures After(log, s'.cursor) == []
  {
    assert |multiset(feed(i, s.cursor))| == |multiset(After(log, s.cursor))|;
  }

  lemma {:induction false} SameFirst(a: seq<Event>, b: seq<Event>)
    requires SortedBySeq(a) && Increasing(b) && multiset(a) == multiset(b) && a != []
    ensures b != [] && a[0] == b[0]
  {
    assert a[0] in multiset(b);
    var i :| 0 <= i < |b| && b[i] == a[0];
    assert b[0] in multiset(a);
  }

  lemma {:induction false} SameRest(a: seq<Event>, b: seq<Event>)
    requires multiset(a) == multiset(b) && a != [] && b != [] && a[0] == b[0]
    ensures multiset(a[1..]) == multiset(b[1..])
  {
    assert a == [a[0]] + a[1..] && b == [b[0]] + b[1..];
    assert multiset(a[1..]) == multiset(a) - multiset{a[0]} == multiset(b[1..]);
  }

  /** Events without ties have one sorted order. */
  lemma {:induction false} SortedOrderIsUnique(a: seq<Event>, b: seq<Event>)
    requires SortedBySeq(a) && Increasing(b) && multiset(a) == multiset(b)
    ensures a == b
    decreases |a|
  {
    if a != [] {
      SameFirst(a, b);
      SameRest(a, b);
      SortedOrderIsUnique(a[1..], b[1..]);
      assert a == [a[0]] + a[1..] && b == [b[0]] + b[1..];
    } else {
      assert |multiset(b)| == 0;
    }
  }

  /** So the runner's batch is the first part of what follows the cursor, in order. */
  lemma {:induction false} SortedDelivery(log: seq<Event>, cursor: nat, batch: seq<Event>)
    requires Increasing(log) && Delivers(log, cursor, batch)
    ensures SortBySeq(batch) == After(log, cursor)[..|batch|] && |batch| <= |log|
  {
    CutAt(log, cursor);
    SortBySeqSorts(batch);
    SortedOrderIsUnique(SortBySeq(batch), After(log, cursor)[..|batch|]);
  }

  /** The server got from `s0` to `s` by the first k events after the old cursor, and what
      follows the new cursor is the rest of them. */
  ghost predicate Reached(c: Config, log: seq<Event>, s0: Saved, s: Saved, k: nat) {
    var rest := After(log, s0.cursor);
    k <= |rest| && s == Advance(c, s0, rest[..k]) && s0.cursor <= s.cursor && After(log, s.cursor) == rest[k..]
  }

  lemma {:induction false} NothingReached(c: Config, log: seq<Event>, s: Saved)
    ensures Reached(c, log, s, s, 0)
  {
    assert After(log, s.cursor)[0..] == After(log, s.cursor);
  }

  lemma {:induction false} ReachedFurther(c: Config, log: seq<Event>, s0: Saved, s: Saved, k: nat, s': Saved, n: nat)
    requires Reached(c, log, s0, s, k) && Reached(c, log, s, s', n)
    ensures Reached(c, log, s0, s', k + n)
  {
    var rest := After(log, s0.cursor);
    assert rest[k..][..n] == rest[k..k + n] && rest[k..][n..] == rest[k + n..];
    AdvanceConcat(c, s0, rest, k, k + n);
  }

  /** Those k events are the ones between the two cursors. */
  lemma {:induction false} ReachedExactly(c: Config, log: seq<Event>, s0: Saved, s: Saved, k: nat)
    requires SortedBySeq(log) && Reached(c, log, s0, s, k)
    ensures s == Advance(c, s0, UpTo(After(log, s0.cursor), s.cursor))
    ensures After(log, s.cursor) == [] ==> s == Advance(c, s0, After(log, s0.cursor))
  {
    var rest := After(log, s0.cursor);
    CutAt(log, s0.cursor);
    CutAt(log, s.cursor);
    forall i | 0 <= i < |rest| ensures rest[i].seq_ <= s.cursor <==> i < k {
      assert rest[i] == log[|UpTo(log, s0.cursor)| + i];
    }
    CutHere(rest, s.cursor, k);
    assert rest[..|rest|] == rest;
  }

  /** The seq of an event of the log cuts the log right after it. */
  lemma {:induction false} CutAfter(log: seq<Event>, n: nat)
    requires Increasing(log) && 0 < n <= |log|
    ensures UpTo(log, log[n - 1].seq_) == log[..n] && After(log, log[n - 1].seq_) == log[n..]
  {
    CutHere(log, log[n - 1].seq_, n);
  }

  lemma {:induction false} SliceTwice(log: seq<Event>, k: nat, n: nat)
    requires k + n <= |log| && 0 < n
    ensures log[k..][n - 1] == log[k + n - 1] && log[k..][n..] == log[k + n..]
    ensures log[..k] + log[k..][..n] == log[..k + n]
  {
  }

  /** Moving the cursor to the n-th event after it moves exactly n events across it. */
  lemma {:induction false} CutFurther(log: seq<Event>, cursor: nat, rest: seq<Event>, n: nat)
    requires Increasing(log) && rest == After(log, cursor) && 0 < n <= |rest|
    ensures rest[n - 1].seq_ > cursor
    ensures UpTo(log, rest[n - 1].seq_) == UpTo(log, cursor) + rest[..n] && After(log, rest[n - 1].seq_) == rest[n..]
  {
    var k := |UpTo(log, cursor)|;
    CutAt(log, cursor);
    SliceTwice(log, k, n);
    CutAfter(log, k + n);
  }

  lemma {:induction false} RoundAdvances(c: Config, log: seq<Event>, s: Saved, batch: seq<Event>, n: nat)
    requires Increasing(log) && Delivers(log, s.cursor, batch) && n <= |batch|
    requires SortBySeq(batch) == After(log, s.cursor)[..|batch|]
    ensures Reached(c, log, s, Advance(c, s, SortBySeq(batch)[..n]), n)
  {
    var rest := After(log, s.cursor);
    assert SortBySeq(batch)[..n] == rest[..n];
    if n > 0 { CutFurther(log, s.cursor, rest, n); } else { assert rest[0..] == rest; }
  }
}
