/** Saga compensations (ironflow/step.go).

    executeCompensations walks the registered compensations backwards, runs each as a memoized
    step of the root scope and goes on after a failure.  It may be interrupted between any two. */
module Compensations {
  import opened StepIds
  import opened Durable
  import Replay

  /** A recorded compensation step: which registration it is for, its id and whether it succeeded. */
  datatype Record = Record(index: nat, id: string, ok: bool)

  function CompName(stepName: string): string {
    COMPENSATE + stepName
  }

  /** How many of the registrations have this name. */
  function Occurrences(names: seq<string>, name: string): nat {
    if names == [] then 0 else (if names[0] == name then 1 else 0) + Occurrences(names[1..], name)
  }

  /** The claim of registration `j`: its counter counts the later registrations of its name,
      because those are compensated first. */
  function CompClaim(names: seq<string>, cnt: Counters, j: nat): Claim
    requires j < |names|
  {
    Claim([], CompName(names[j]), Count(cnt, CompName(names[j])) + Occurrences(names[j + 1..], names[j]))
  }

  /** The id of every registration, against a memo table. */
  function CompIds(run: string, memo: map<string, Row>, names: seq<string>, cnt: Counters): (ids: seq<string>)
    ensures |ids| == |names|
  {
    seq(|names|, j requires 0 <= j < |names| => Resolve(run, memo.Keys, CompClaim(names, cnt, j)))
  }

  predicate IsCompleted(memo: map<string, Row>, id: string) {
    id in memo && memo[id].status == Completed
  }

  /** What a walk over registrations hi - 1 down to lo records. */
  ghost function Trace(memo: map<string, Row>, ids: seq<string>, body: seq<bool>, lo: nat, hi: nat): seq<Record>
    requires lo <= hi <= |ids| == |body|
    decreases hi
  {
    if lo == hi then []
    else
      var j := hi - 1;
      var rest := Trace(memo, ids, body, lo, j);
      if IsCompleted(memo, ids[j]) then rest else [Record(j, ids[j], body[j])] + rest
  }

  /** The part of executionContext that compensations use. */
  class ExecutionContext {
    const run: string
    const memo: map<string, Row>
    var stepCounters: Counters
    var compensations: seq<string>
    var executedSteps: seq<Record>

    constructor (run: string, memo: map<string, Row>, cnt: Counters)
      ensures this.run == run && this.memo == memo && stepCounters == cnt && compensations == [] && executedSteps == []
    {
      this.run, this.memo, stepCounters, compensations, executedSteps := run, memo, cnt, [], [];
    }

    /** What registering means for every later undisturbed walk: this compensation comes first, under
        the next id of its name, and the rest is as before, with that id taken. */
    method RegisterCompensation(stepName: string)
      modifies this`compensations
      ensures compensations == old(compensations) + [stepName]
      ensures forall cnt, body, ok | |body| == |old(compensations)| ::
                Plan(run, memo, compensations, cnt, body + [ok]) ==
                  First(run, memo, |old(compensations)|, stepName, cnt, ok)
                  + Plan(run, memo, old(compensations), Bumped(cnt, stepName), body)
    {
      ghost var names := compensations;
      compensations := compensations + [stepName];
      forall cnt, body: seq<bool>, ok | |body| == |names|
        ensures Plan(run, memo, compensations, cnt, body + [ok]) ==
                  First(run, memo, |names|, stepName, cnt, ok) + Plan(run, memo, names, Bumped(cnt, stepName), body)
      {
        RegisteredLastRunsFirst(run, memo, names, cnt, body, stepName, ok);
      }
    }

    method GenerateStepId(name: string) returns (id: string)
      modifies this`stepCounters
      ensures id == Resolve(run, memo.Keys, Claim([], name, Count(old(stepCounters), name)))
      ensures stepCounters == old(stepCounters)[name := Count(old(stepCounters), name) + 1]
    {
      var index := Count(stepCounters, name);
      stepCounters := stepCounters[name := index + 1];
      id := Resolve(run, memo.Keys, Claim([], name, index));
    }

    /** One compensation: a memoized step whose failure is recorded and swallowed. */
    method Compensate(index: nat, name: string, succeeds: bool, ghost claim: Claim)
      requires claim == Claim([], CompName(name), Count(stepCounters, CompName(name)))
      modifies this`stepCounters, this`executedSteps
      ensures stepCounters == old(stepCounters)[CompName(name) := Count(old(stepCounters), CompName(name)) + 1]
      ensures var id := Resolve(run, memo.Keys, claim);
              executedSteps == if id in memo && memo[id].status == Completed then old(executedSteps)
                               else old(executedSteps) + [Record(index, id, succeeds)]
    {
      var id := GenerateStepId(CompName(name));
      if !IsCompleted(memo, id) { executedSteps := executedSteps + [Record(index, id, succeeds)]; }
    }

    /** `body[j]` tells whether the j-th registered function succeeds; the job is cancelled when
        only `lo` registrations are left. */
    method ExecuteCompensations(body: seq<bool>, lo: nat)
      requires lo <= |compensations| == |body|
      modifies this`stepCounters, this`executedSteps
      ensures executedSteps == old(executedSteps) +
                Trace(memo, CompIds(run, memo, compensations, old(stepCounters)), body, lo, |compensations|)
    {
      ghost var cnt := stepCounters;
      var names, i := compensations, |compensations|;
      ghost var ids := CompIds(run, memo, names, cnt);
      CountsStart(cnt, names);
      while i > lo
        invariant lo <= i <= |names|
        invariant CountsFrom(stepCounters, cnt, names, i)
        invariant Walked(old(executedSteps), executedSteps, memo, ids, body, lo, i)
      {
        i := i - 1;
        CountsStep(stepCounters, cnt, names, i);
        ghost var claim := CompClaim(names, cnt, i);
        WalkedOn(old(executedSteps), executedSteps, memo, ids, body, lo, i, Resolve(run, memo.Keys, claim));
        Compensate(i, names[i], body[i], claim);
      }
      WalkEnds(old(executedSteps), executedSteps, memo, ids, body, lo);
    }

    /** A job's terminal failure: its handler registers `names` as its steps complete, and then the
        compensations run.  Its records are those of an attempt in the histories below. */
    method FailTerminally(names: seq<string>, body: seq<bool>, lo: nat, ghost ids: set<string>)
      requires compensations == [] && lo <= |names| == |body|
      modifies this`compensations, this`stepCounters, this`executedSteps
      ensures compensations == names
      ensures executedSteps == old(executedSteps) +
                RecordsOf(run, names, old(stepCounters), Attempt(memo, body, lo, ids))
    {
      var i := 0;
      while i < |names|
        invariant i <= |names| && compensations == names[..i]
        invariant stepCounters == old(stepCounters) && executedSteps == old(executedSteps)
      {
        RegisterCompensation(names[i]);
        assert names[..i] + [names[i]] == names[..i + 1];
        i := i + 1;
      }
      assert names[..|names|] == names;
      ExecuteCompensations(body, lo);
    }
  }

  /** The records so far, followed by those of the rest of the walk, are those of the whole. */
  ghost predicate Walked(
    before: seq<Record>, now: seq<Record>, memo: map<string, Row>, ids: seq<string>, body: seq<bool>, lo: nat,
    i: nat)
    requires lo <= i <= |ids| == |body|
  {
    now + Trace(memo, ids, body, lo, i) == before + Trace(memo, ids, body, lo, |ids|)
  }

  lemma {:induction false} WalkEnds(
    before: seq<Record>, now: seq<Record>, memo: map<string, Row>, ids: seq<string>, body: seq<bool>, lo: nat)
    requires lo <= |ids| == |body| && Walked(before, now, memo, ids, body, lo, lo)
    ensures now == before + Trace(memo, ids, body, lo, |ids|)
  {
    assert now + [] == now;
  }

  lemma {:induction false} WalkedOn(
    before: seq<Record>, now: seq<Record>, memo: map<string, Row>, ids: seq<string>, body: seq<bool>, lo: nat,
    i: nat, id: string)
    requires lo <= i < |ids| == |body| && id == ids[i] && Walked(before, now, memo, ids, body, lo, i + 1)
    ensures var next := if IsCompleted(memo, id) then now else now + [Record(i, id, body[i])];
            Walked(before, next, memo, ids, body, lo, i)
  {
    if !IsCompleted(memo, ids[i]) {
      var rest := Trace(memo, ids, body, lo, i);
      assert now + ([Record(i, ids[i], body[i])] + rest) == now + [Record(i, ids[i], body[i])] + rest;
    }
  }

  /** The counters once the registrations from `i` on have been walked over. */
  ghost predicate CountsFrom(now: Counters, cnt: Counters, names: seq<string>, i: nat)
    requires i <= |names|
  {
    forall name :: Count(now, CompName(name)) == Count(cnt, CompName(name)) + Occurrences(names[i..], name)
  }

  lemma {:induction false} CountsStart(cnt: Counters, names: seq<string>)
    ensures CountsFrom(cnt, cnt, names, |names|)
  {
    assert names[|names|..] == [];
  }

  lemma {:induction false} CountsStep(now: Counters, cnt: Counters, names: seq<string>, i: nat)
    requires i < |names| && CountsFrom(now, cnt, names, i + 1)
    ensures Count(now, CompName(names[i])) == CompClaim(names, cnt, i).index
    ensures CountsFrom(now[CompName(names[i]) := Count(now, CompName(names[i])) + 1], cnt, names, i)
  {
    var next := now[CompName(names[i]) := Count(now, CompName(names[i])) + 1];
    assert names[i..] == [names[i]] + names[i + 1..];
    forall name ensures Count(next, CompName(name)) == Count(cnt, CompName(name)) + Occurrences(names[i..], name) {
      CompNameInjective(name, names[i]);
      assert Count(now, CompName(name)) == Count(cnt, CompName(name)) + Occurrences(names[i + 1..], name);
    }
  }

  lemma {:induction false} CompNameInjective(a: string, b: string)
    ensures CompName(a) == CompName(b) ==> a == b
  {
    assert CompName(a)[|COMPENSATE|..] == a && CompName(b)[|COMPENSATE|..] == b;
  }

  // -------------------------------------------------------- what registering means

  /** What an undisturbed walk over these registrations records. */
  ghost function Plan(
    run: string, memo: map<string, Row>, names: seq<string>, cnt: Counters, body: seq<bool>): seq<Record>
    requires |names| == |body|
  {
    Trace(memo, CompIds(run, memo, names, cnt), body, 0, |names|)
  }

  /** The counters once a compensation of this step has taken its id. */
  function Bumped(cnt: Counters, name: string): Counters {
    cnt[CompName(name) := Count(cnt, CompName(name)) + 1]
  }

  lemma {:induction false} EarlierClaim(names: seq<string>, name: string, cnt: Counters, j: nat)
    requires j < |names|
    ensures CompClaim(names + [name], cnt, j) == CompClaim(names, Bumped(cnt, name), j)
  {
    assert (names + [name])[j + 1..] == names[j + 1..] + [name];
    OccurrencesConcat(names[j + 1..], [name], names[j]);
    assert [name][1..] == [];
    CompNameInjective(names[j], name);
  }

  lemma {:induction false} SameTrace(
    memo: map<string, Row>, ids: seq<string>, body: seq<bool>, ids': seq<string>, body': seq<bool>, hi: nat)
    requires hi <= |ids| == |body| && hi <= |ids'| == |body'| && ids[..hi] == ids'[..hi] && body[..hi] == body'[..hi]
    ensures Trace(memo, ids, body, 0, hi) == Trace(memo, ids', body', 0, hi)
    decreases hi
  {
    if hi > 0 {
      var k := hi - 1;
      assert ids[k] == ids[..hi][k] == ids'[k] && body[k] == body[..hi][k] == body'[k];
      assert ids[..k] == ids[..hi][..k] && ids'[..k] == ids'[..hi][..k];
      assert body[..k] == body[..hi][..k] && body'[..k] == body'[..hi][..k];
      SameTrace(memo, ids, body, ids', body', k);
    }
  }

  /** The record of a compensation that takes the next id of its name, unless it is completed. */
  function First(run: string, memo: map<string, Row>, index: nat, name: string, cnt: Counters, ok: bool): seq<Record> {
    var id := Resolve(run, memo.Keys, Claim([], CompName(name), Count(cnt, CompName(name))));
    if IsCompleted(memo, id) then [] else [Record(index, id, ok)]
  }

  lemma {:induction false} RegisteredIds(
    run: string, memo: map<string, Row>, names: seq<string>, cnt: Counters, name: string)
    ensures CompIds(run, memo, names + [name], cnt) ==
              CompIds(run, memo, names, Bumped(cnt, name)) +
              [Resolve(run, memo.Keys, Claim([], CompName(name), Count(cnt, CompName(name))))]
  {
    var n, all := |names|, names + [name];
    var ids, ids' := CompIds(run, memo, all, cnt), CompIds(run, memo, names, Bumped(cnt, name));
    assert all[n + 1..] == [];
    forall j | 0 <= j < n ensures ids[j] == ids'[j] { EarlierClaim(names, name, cnt, j); }
  }

  lemma {:induction false} TraceSnoc(
    memo: map<string, Row>, ids: seq<string>, body: seq<bool>, id: string, ok: bool)
    requires |ids| == |body|
    ensures Trace(memo, ids + [id], body + [ok], 0, |ids| + 1) ==
              (if IsCompleted(memo, id) then [] else [Record(|ids|, id, ok)]) + Trace(memo, ids, body, 0, |ids|)
  {
    SameTrace(memo, ids + [id], body + [ok], ids, body, |ids|);
  }

  /** A compensation registered last runs first, under the next id of its step's name, and the
      earlier ones then run as if it had never been registered, with that id taken. */
  lemma {:induction false} RegisteredLastRunsFirst(
    run: string, memo: map<string, Row>, names: seq<string>, cnt: Counters, body: seq<bool>, name: string, ok: bool)
    requires |names| == |body|
    ensures Plan(run, memo, names + [name], cnt, body + [ok]) ==
              First(run, memo, |names|, name, cnt, ok) + Plan(run, memo, names, Bumped(cnt, name), body)
  {
    RegisteredIds(run, memo, names, cnt, name);
    TraceSnoc(memo, CompIds(run, memo, names, Bumped(cnt, name)), body,
              Resolve(run, memo.Keys, Claim([], CompName(name), Count(cnt, CompName(name)))), ok);
  }

  predicate Recorded(t: seq<Record>, j: nat) {
    exists a | 0 <= a < |t| :: t[a].index == j
  }

  /** Exact reverse order, and nothing stops the walk: the records name, in falling order,
      precisely the registrations walked over whose row is not completed. */
  lemma {:induction false} ReverseAndComplete(
    memo: map<string, Row>, ids: seq<string>, body: seq<bool>, lo: nat, hi: nat)
    requires lo <= hi <= |ids| == |body|
    ensures Falling(Trace(memo, ids, body, lo, hi), lo, hi)
    ensures forall j | lo <= j < hi ::
              Recorded(Trace(memo, ids, body, lo, hi), j) <==> !(ids[j] in memo && memo[ids[j]].status == Completed)
    decreases hi
  {
    if lo < hi {
      var k := hi - 1;
      ReverseAndComplete(memo, ids, body, lo, k);
      var t, rest := Trace(memo, ids, body, lo, hi), Trace(memo, ids, body, lo, k);
      if IsCompleted(memo, ids[k]) {
      } else {
        ConsRecorded(t[0], rest);
      }
    }
  }

  /** Each record carries the id and the result of its registration. */
  lemma {:induction false} RecordsAreTrue(
    memo: map<string, Row>, ids: seq<string>, body: seq<bool>, lo: nat, hi: nat, r: Record)
    requires lo <= hi <= |ids| == |body| && r in Trace(memo, ids, body, lo, hi)
    ensures lo <= r.index < hi && r.id == ids[r.index] && r.ok == body[r.index]
    decreases hi
  {
    var k := hi - 1;
    if !(r == Record(k, ids[k], body[k])) { RecordsAreTrue(memo, ids, body, lo, k, r); }
  }

  /** The records are for falling registration indices in [lo, hi). */
  predicate Falling(t: seq<Record>, lo: nat, hi: nat) {
    && (forall a | 0 <= a < |t| :: lo <= t[a].index < hi)
    && (forall a, b | 0 <= a < b < |t| :: t[a].index > t[b].index)
  }

  lemma {:induction false} ConsRecorded(r: Record, rest: seq<Record>)
    ensures forall j :: Recorded([r] + rest, j) <==> j == r.index || Recorded(rest, j)
  {
    var t := [r] + rest;
    assert t[0] == r;
    forall j | Recorded(rest, j) ensures Recorded(t, j) {
      var a :| 0 <= a < |rest| && rest[a].index == j;
      assert t[a + 1].index == j;
    }
  }

  lemma {:induction false} OccurrencesConcat(a: seq<string>, b: seq<string>, name: string)
    ensures Occurrences(a + b, name) == Occurrences(a, name) + Occurrences(b, name)
  {
    if a == [] {
      assert a + b == b;
    } else {
      assert (a + b)[1..] == a[1..] + b;
      OccurrencesConcat(a[1..], b, name);
    }
  }

  /** Repeated step names: two registrations never share a claim. */
  lemma {:induction false} CompClaimsDistinct(names: seq<string>, cnt: Counters, i: nat, j: nat)
    requires i < j < |names|
    ensures CompClaim(names, cnt, i) != CompClaim(names, cnt, j)
  {
    CompNameInjective(names[i], names[j]);
    if names[i] == names[j] {
      var mid := names[i + 1..j];
      assert names[i + 1..] == mid + ([names[j]] + names[j + 1..]);
      OccurrencesConcat(mid, [names[j]] + names[j + 1..], names[j]);
    }
  }

  // ---------------------------------------------------- interrupted attempts

  /** One terminal attempt: the table it starts from, what its functions do, how many
      registrations were left when it was interrupted, and every id its job reported. */
  datatype Attempt = Attempt(memo: map<string, Row>, body: seq<bool>, left: nat, ids: set<string>)

  ghost function RecordsOf(run: string, names: seq<string>, cnt: Counters, a: Attempt): seq<Record>
    requires a.left <= |names| == |a.body|
  {
    Trace(a.memo, CompIds(run, a.memo, names, cnt), a.body, a.left, |names|)
  }

  ghost predicate IsHistory(run: string, names: seq<string>, cnt: Counters, h: seq<Attempt>) {
    && (forall n | 0 <= n < |h| ::
          && h[n].left <= |names| == |h[n].body|
          && Replay.IdsResolved(LedgerOf(run, h[n]))
          && (forall r | r in RecordsOf(run, names, cnt, h[n]) :: r.id in h[n].ids))
    && (forall n | 0 <= n < |h| - 1 :: Replay.LedgerGrows(LedgerOf(run, h[n]), LedgerOf(run, h[n + 1])))
  }

  function LedgerOf(run: string, a: Attempt): Replay.Ledger {
    Replay.Ledger(run, a.memo, a.ids)
  }

  /** A compensation recorded as completed is skipped, under the same id, in every later
      attempt that registers the same list, including for repeated step names. */
  lemma {:induction false} CompletedCompensationNeverRunsAgain(
    run: string, names: seq<string>, cnt: Counters, h: seq<Attempt>, i: nat, j: nat, r: Record)
    requires IsHistory(run, names, cnt, h) && i < j < |h|
    requires r in RecordsOf(run, names, cnt, h[i]) && IsCompleted(h[i + 1].memo, r.id)
    ensures r.index < |names| && r.id == CompIds(run, h[j].memo, names, cnt)[r.index]
    ensures !Recorded(RecordsOf(run, names, cnt, h[j]), r.index)
  {
    var ids := CompIds(run, h[i].memo, names, cnt);
    RecordsAreTrue(h[i].memo, ids, h[i].body, h[i].left, |names|, r);
    var c := CompClaim(names, cnt, r.index);
    assert r.id == Resolve(run, h[i].memo.Keys, c);
    StaysCompleted(run, names, cnt, h, i, j, c, r.id);
    NotRecorded(run, names, cnt, h[j], r.index);
  }

  lemma {:induction false} StaysCompleted(
    run: string, names: seq<string>, cnt: Counters, h: seq<Attempt>, i: nat, j: nat, c: Claim, id: string)
    requires IsHistory(run, names, cnt, h) && i < j < |h|
    requires id == Resolve(run, h[i].memo.Keys, c) && IsCompleted(h[i + 1].memo, id)
    ensures id == Resolve(run, h[j].memo.Keys, c) && IsCompleted(h[j].memo, id)
  {
    var ls := seq(|h|, n requires 0 <= n < |h| => LedgerOf(run, h[n]));
    Replay.RowStays(ls, i, j, c, id);
  }

  lemma {:induction false} NotRecorded(run: string, names: seq<string>, cnt: Counters, a: Attempt, k: nat)
    requires a.left <= |names| == |a.body| && k < |names|
    requires IsCompleted(a.memo, Resolve(run, a.memo.Keys, CompClaim(names, cnt, k)))
    ensures !Recorded(RecordsOf(run, names, cnt, a), k)
  {
    ReverseAndComplete(a.memo, CompIds(run, a.memo, names, cnt), a.body, a.left, |names|);
  }
}
