/** Memoized replay over crashes (ironflow/step.go, ironflow/job_executor.go).

    An attempt runs the handler against the memo table under some interleaving and may stop
    anywhere.  The server keeps what was persisted and starts the next attempt from it. */
module Replay {
  import opened StepIds
  import opened Durable
  import opened Optional

  // ------------------------------------------------------ claims are distinct

  /** No scope opens two fan-outs with branches under one name: they would share a prefix and
      count their steps from zero again. */
  ghost predicate UniqueFans(used: set<string>, p: Prog)
    decreases p
  {
    match p
    case Return(_) => true
    case Fail(_) => true
    case Step(_, _, k) => forall r | r in k :: UniqueFans(used, k[r])
    case Fan(name, bs, _, k) =>
      && (bs != [] ==> name !in used)
      && (forall i | 0 <= i < |bs| :: UniqueFans({}, bs[i]))
      && (forall r | r in k :: UniqueFans(used + {name}, k[r]))
  }

  /** A claim that a computation at `path` may still make. */
  predicate Within(path: seq<Element>, cnt: Counters, used: set<string>, c: Claim) {
    && path <= c.path
    && (c.path == path ==> c.index >= Count(cnt, c.name))
    && (|c.path| > |path| ==> c.path[|path|].name !in used)
  }

  ghost predicate AllWithin(path: seq<Element>, cnt: Counters, used: set<string>, es: seq<Entry>) {
    forall i | 0 <= i < |es| :: Within(path, cnt, used, es[i].claim)
  }

  ghost predicate Distinct(es: seq<Entry>) {
    forall i, j | 0 <= i < j < |es| :: es[i].claim != es[j].claim
  }

  lemma {:induction false} DistinctConcat(a: seq<Entry>, b: seq<Entry>)
    requires Distinct(a) && Distinct(b)
    requires forall i, j | 0 <= i < |a| && 0 <= j < |b| :: a[i].claim != b[j].claim
    ensures Distinct(a + b)
  {
  }

  lemma {:induction false} EvalUnhandled(x: Exec, path: seq<Element>, cnt: Counters)
    ensures Eval(x, path, cnt, Fail(UNHANDLED)) == Meaning(Errored(UNHANDLED), [], 1)
  {
  }

  /** The entries of the branches from `i` on: each claim lies under its own branch. */
  lemma {:induction false} BranchesDistinct(path: seq<Element>, name: string, ms: seq<Meaning>, from: nat)
    requires from <= |ms|
    requires forall i | 0 <= i < |ms| ::
               Distinct(ms[i].entries) && AllWithin(Branch(path, name, i), map[], {}, ms[i].entries)
    ensures Distinct(AllEntries(ms[from..]))
    ensures forall j | 0 <= j < |AllEntries(ms[from..])| ::
              var c := AllEntries(ms[from..])[j].claim;
              path < c.path && c.path[|path|].name == name && c.path[|path|].index >= from
    decreases |ms| - from
  {
    if from < |ms| {
      BranchesDistinct(path, name, ms, from + 1);
      var head, tail := ms[from].entries, AllEntries(ms[from + 1..]);
      assert ms[from..][1..] == ms[from + 1..] && AllEntries(ms[from..]) == head + tail;
      var scope := Branch(path, name, from);
      forall i | 0 <= i < |head|
        ensures path < head[i].claim.path && head[i].claim.path[|path|] == Element(name, from)
      {
        assert Within(scope, map[], {}, head[i].claim);
        assert head[i].claim.path[..|scope|] == scope && scope[|path|] == Element(name, from);
      }
      DistinctConcat(head, tail);
    }
  }

  lemma {:induction false} ConsDistinct(
    path: seq<Element>, cnt: Counters, used: set<string>, e: Entry, rest: seq<Entry>)
    requires e.claim == Claim(path, e.claim.name, Count(cnt, e.claim.name))
    requires Distinct(rest) && AllWithin(path, cnt[e.claim.name := Count(cnt, e.claim.name) + 1], used, rest)
    ensures Distinct([e] + rest) && AllWithin(path, cnt, used, [e] + rest)
  {
    var next := cnt[e.claim.name := Count(cnt, e.claim.name) + 1];
    forall i | 0 <= i < |rest| ensures Within(path, cnt, used, rest[i].claim) && rest[i].claim != e.claim {
      assert Within(path, next, used, rest[i].claim);
    }
    DistinctConcat([e], rest);
  }

  lemma {:induction false} WithinFewer(
    path: seq<Element>, cnt: Counters, used: set<string>, name: string, es: seq<Entry>)
    requires AllWithin(path, cnt, used + {name}, es)
    ensures AllWithin(path, cnt, used, es)
    ensures forall i | 0 <= i < |es| && |es[i].claim.path| > |path| :: es[i].claim.path[|path|].name != name
  {
    forall i | 0 <= i < |es|
      ensures Within(path, cnt, used, es[i].claim)
      ensures |es[i].claim.path| > |path| ==> es[i].claim.path[|path|].name != name
    {
      assert Within(path, cnt, used + {name}, es[i].claim);
    }
  }

  /** In one scope every claim is new: no step id is taken twice in an invocation. */
  lemma {:induction false} ClaimsDistinct(x: Exec, path: seq<Element>, cnt: Counters, used: set<string>, p: Prog)
    requires UniqueFans(used, p)
    ensures Distinct(Eval(x, path, cnt, p).entries)
    ensures AllWithin(path, cnt, used, Eval(x, path, cnt, p).entries)
    decreases p
  {
    match p
    case Return(_) =>
    case Fail(_) =>
    case Step(_, _, _) => StepClaimsDistinct(x, path, cnt, used, p);
    case Fan(_, bs, _, _) =>
      if bs == [] {
        EmptyFanClaimsDistinct(x, path, cnt, used, p);
      } else {
        FanClaimsDistinct(x, path, cnt, used, p);
      }
  }

  lemma {:induction false} StepClaimsDistinct(x: Exec, path: seq<Element>, cnt: Counters, used: set<string>, p: Prog)
    requires p.Step? && UniqueFans(used, p)
    ensures Distinct(Eval(x, path, cnt, p).entries)
    ensures AllWithin(path, cnt, used, Eval(x, path, cnt, p).entries)
    decreases p, 0
  {
    EvalStepNode(x, path, cnt, p);
    var e := ClaimStep(x, path, cnt, p.kind, p.name);
    if !e.how.Parked? {
      var next := cnt[p.name := Count(cnt, p.name) + 1];
      if e.how.reply in p.k {
        ClaimsDistinct(x, path, next, used, p.k[e.how.reply]);
      } else {
        EvalUnhandled(x, path, next);
      }
      ConsDistinct(path, cnt, used, e, Eval(x, path, next, Cont(p.k, e.how.reply)).entries);
    }
  }

  lemma {:induction false} EmptyFanClaimsDistinct(
    x: Exec, path: seq<Element>, cnt: Counters, used: set<string>, p: Prog)
    requires p.Fan? && p.branches == [] && UniqueFans(used, p)
    ensures Distinct(Eval(x, path, cnt, p).entries)
    ensures AllWithin(path, cnt, used, Eval(x, path, cnt, p).entries)
    decreases p, 0
  {
    var r := Ok(List([]));
    if r in p.k {
      ClaimsDistinct(x, path, cnt, used + {p.name}, p.k[r]);
      WithinFewer(path, cnt, used, p.name, Eval(x, path, cnt, p.k[r]).entries);
      assert Eval(x, path, cnt, p).entries == Eval(x, path, cnt, p.k[r]).entries;
    }
  }

  lemma {:induction false} FanClaimsDistinct(x: Exec, path: seq<Element>, cnt: Counters, used: set<string>, p: Prog)
    requires p.Fan? && p.branches != [] && UniqueFans(used, p)
    ensures Distinct(Eval(x, path, cnt, p).entries)
    ensures AllWithin(path, cnt, used, Eval(x, path, cnt, p).entries)
    decreases p, 0
  {
    var ms := BranchMeanings(x, path, p.name, p.branches);
    EvalFan(x, path, cnt, p);
    forall i | 0 <= i < |ms|
      ensures Distinct(ms[i].entries) && AllWithin(Branch(path, p.name, i), map[], {}, ms[i].entries)
    {
      ClaimsDistinct(x, Branch(path, p.name, i), map[], {}, p.branches[i]);
    }
    BranchesDistinct(path, p.name, ms, 0);
    assert ms[0..] == ms;
    var v := Combine(p.opts.settled, Outcomes(ms));
    if v.Proceed? {
      if v.reply in p.k {
        ClaimsDistinct(x, path, cnt, used + {p.name}, p.k[v.reply]);
      } else {
        EvalUnhandled(x, path, cnt);
      }
      AfterFanDistinct(path, cnt, used, p.name, AllEntries(ms), Eval(x, path, cnt, Cont(p.k, v.reply)).entries);
    }
  }

  /** The claims of the branches and those made after the join. */
  lemma {:induction false} AfterFanDistinct(
    path: seq<Element>, cnt: Counters, used: set<string>, name: string, head: seq<Entry>, rest: seq<Entry>)
    requires Distinct(head) && Distinct(rest) && name !in used && AllWithin(path, cnt, used + {name}, rest)
    requires forall j | 0 <= j < |head| :: path < head[j].claim.path && head[j].claim.path[|path|].name == name
    ensures Distinct(head + rest) && AllWithin(path, cnt, used, head + rest)
  {
    WithinFewer(path, cnt, used, name, rest);
    DistinctConcat(head, rest);
  }

  predicate AnyReply(r: Reply) { true }

  /** A handler that goes on the same way whatever the reply. */
  ghost function Always(p: Prog): imap<Reply, Prog> {
    imap r: Reply | AnyReply(r) :: p
  }

  /** A fan-out `f` with one branch that runs one step `work`. */
  ghost function OneBranch(k: imap<Reply, Prog>): Prog {
    Fan("f", [Step(Run, "work", Always(Return(Null)))], Options(0, true), k)
  }

  lemma {:induction false} OneBranchMeaning(x: Exec, k: imap<Reply, Prog>)
    requires x.memo == map[]
    ensures Eval(x, [], map[], OneBranch(k)).entries ==
              [ClaimStep(x, Branch([], "f", 0), map[], Run, "work")] +
                Eval(x, [], map[], Cont(k, Ok(List([Null])))).entries
  {
    var inner, path := Step(Run, "work", Always(Return(Null))), Branch([], "f", 0);
    var e := ClaimStep(x, path, map[], Run, "work");
    EvalStepNode(x, path, map[], inner);
    assert e.how.Ran? && AnyReply(e.how.reply);
    var ms := BranchMeanings(x, [], "f", [inner]);
    assert ms[0].entries == [e] && ms[0].outcome == Returned(Null);
    assert ms[1..] == [] && AllEntries(ms) == [e];
    EvalFan(x, [], map[], OneBranch(k));
    var os := Outcomes(ms);
    assert os == [Returned(Null)] && os[1..] == [];
    assert FirstYield(os) == None;
    assert Combine(true, os).reply.value.items == [Null];
  }

  /** Two fan-outs of one name in one scope do claim the same step id. */
  lemma {:induction false} RepeatedFanCollides(x: Exec)
    requires x.memo == map[]
    ensures exists p :: !UniqueFans({}, p) && !Distinct(Eval(x, [], map[], p).entries)
  {
    var r := Ok(List([Null]));
    var last := OneBranch(imap[]);
    var p := OneBranch(Always(last));
    assert AnyReply(r) && Cont(Always(last), r) == last;
    OneBranchMeaning(x, Always(last));
    OneBranchMeaning(x, imap[]);
    var es := Eval(x, [], map[], p).entries;
    assert es[0].claim == es[1].claim;
    assert r in p.k && !UniqueFans({} + {"f"}, p.k[r]);
  }

  // ----------------------------------------------------------- memo override

  function RowOf(r: Reply): Row {
    match r
    case Ok(v) => Row(Completed, v, "")
    case Failed(e) => Row(RowFailed, Null, e)
  }

  /** Any part of the executed steps, persisted under the ids they used. */
  ghost predicate PersistedFrom(es: seq<Entry>, rows: map<string, Row>) {
    forall id | id in rows :: exists e | e in es :: e.id == id && e.how.Ran? && rows[id] == RowOf(e.how.reply)
  }

  /** No id used by the run is the unescaped spelling of a different claim of the run. */
  ghost predicate Unaliased(run: string, es: seq<Entry>) {
    forall e, f | e in es && f in es && f.id == LegacyId(run, e.claim) :: f.claim == e.claim
  }

  /** How an entry reads once the rows are in the table. */
  function Replayed(rows: map<string, Row>, e: Entry): Entry {
    if e.how.Ran? && e.how.reply.Ok? && e.id in rows then e.(how := Memoized(e.how.reply)) else e
  }

  function ReplayedAll(rows: map<string, Row>, es: seq<Entry>): seq<Entry> {
    seq(|es|, i requires 0 <= i < |es| => Replayed(rows, es[i]))
  }

  /** Every entry of a meaning is the answer of its table. */
  lemma {:induction false} EvalAnswers(x: Exec, path: seq<Element>, cnt: Counters, p: Prog, e: Entry)
    requires e in Eval(x, path, cnt, p).entries
    ensures e == Answered(x, e.claim, e.kind)
    decreases p
  {
    match p
    case Return(_) =>
    case Fail(_) =>
    case Step(_, _, _) =>
      var f := ClaimStep(x, path, cnt, p.kind, p.name);
      ClaimAnswers(x, path, cnt, p.kind, p.name);
      if e != f {
        LaterEntry(x, path, cnt, p, e, f);
        EvalAnswers(x, path, cnt[p.name := Count(cnt, p.name) + 1], p.k[f.how.reply], e);
      }
    case Fan(_, _, _, _) => FanAnswers(x, path, cnt, p, e);
  }

  lemma {:induction false} ClaimAnswers(x: Exec, path: seq<Element>, cnt: Counters, kind: Kind, name: string)
    ensures var f := ClaimStep(x, path, cnt, kind, name); f == Answered(x, f.claim, f.kind)
  {
  }

  /** An entry of a step node other than its own claim comes from what follows. */
  lemma {:induction false} LaterEntry(x: Exec, path: seq<Element>, cnt: Counters, p: Prog, e: Entry, f: Entry)
    requires p.Step? && f == ClaimStep(x, path, cnt, p.kind, p.name)
    requires e in Eval(x, path, cnt, p).entries && e != f
    ensures !f.how.Parked? && f.how.reply in p.k
    ensures e in Eval(x, path, cnt[p.name := Count(cnt, p.name) + 1], p.k[f.how.reply]).entries
  {
    EvalStepNode(x, path, cnt, p);
    EvalUnhandled(x, path, cnt[p.name := Count(cnt, p.name) + 1]);
  }

  lemma {:induction false} FanAnswers(x: Exec, path: seq<Element>, cnt: Counters, p: Prog, e: Entry)
    requires p.Fan? && e in Eval(x, path, cnt, p).entries
    ensures e == Answered(x, e.claim, e.kind)
    decreases p, 0
  {
    if p.branches == [] {
      EvalAnswers(x, path, cnt, p.k[Ok(List([]))], e);
    } else {
      var ms := BranchMeanings(x, path, p.name, p.branches);
      EvalFan(x, path, cnt, p);
      if e in AllEntries(ms) {
        var i := BranchOf(ms, e);
        EvalAnswers(x, Branch(path, p.name, i), map[], p.branches[i], e);
      } else {
        var r := Combine(p.opts.settled, Outcomes(ms)).reply;
        EvalAnswers(x, path, cnt, p.k[r], e);
      }
    }
  }

  lemma {:induction false} BranchOf(ms: seq<Meaning>, e: Entry) returns (i: nat)
    requires e in AllEntries(ms)
    ensures i < |ms| && e in ms[i].entries
  {
    if e in ms[0].entries {
      i := 0;
    } else {
      i := BranchOf(ms[1..], e);
      i := i + 1;
    }
  }

  lemma {:induction false} InAllEntries(ms: seq<Meaning>, i: nat, e: Entry)
    requires i < |ms| && e in ms[i].entries
    ensures e in AllEntries(ms)
  {
    if i > 0 { InAllEntries(ms[1..], i - 1, e); }
  }

  /** Under a table grown by rows of its own run, a claim keeps its id. */
  lemma {:induction false} ResolveStable(run: string, keys: set<string>, more: set<string>, used: set<Claim>, c: Claim)
    requires c in used
    requires forall id | id in more :: exists d | d in used :: id == Resolve(run, keys, d)
    requires forall d | d in used && Resolve(run, keys, d) == LegacyId(run, c) :: d == c
    ensures Resolve(run, keys + more, c) == Resolve(run, keys, c)
  {
    var id, legacy := Id(run, c), LegacyId(run, c);
    if id !in keys && id in more {
      var d :| d in used && id == Resolve(run, keys, d);
      ResolveReachesOnlyOwnId(run, keys, c, d);
    }
  }

  lemma {:induction false} ReplayedAnswerAs(x: Exec, rows: map<string, Row>, c: Claim, kind: Kind, id: string)
    requires id in rows ==> AnsweredAs(x, c, kind, id).how.Ran? && rows[id] == RowOf(x.world(c))
    ensures AnsweredAs(x.(memo := x.memo + rows), c, kind, id) == Replayed(rows, AnsweredAs(x, c, kind, id))
  {
  }

  lemma {:induction false} ReplayedId(x: Exec, es: seq<Entry>, rows: map<string, Row>, e: Entry)
    requires e in es && PersistedFrom(es, rows) && Unaliased(x.run, es)
    requires forall f | f in es :: f.id == Resolve(x.run, x.memo.Keys, f.claim)
    ensures Resolve(x.run, (x.memo + rows).Keys, e.claim) == e.id
  {
    var used := set f | f in es :: f.claim;
    assert (x.memo + rows).Keys == x.memo.Keys + rows.Keys;
    forall id | id in rows.Keys ensures exists d | d in used :: id == Resolve(x.run, x.memo.Keys, d) {
      var f :| f in es && f.id == id && f.how.Ran? && rows[id] == RowOf(f.how.reply);
      assert f.claim in used;
    }
    ResolveStable(x.run, x.memo.Keys, rows.Keys, used, e.claim);
  }

  lemma {:induction false} ReplayedAnswer(x: Exec, es: seq<Entry>, rows: map<string, Row>, e: Entry)
    requires e in es && Distinct(es) && PersistedFrom(es, rows) && Unaliased(x.run, es)
    requires forall f | f in es :: f == Answered(x, f.claim, f.kind)
    ensures Answered(x.(memo := x.memo + rows), e.claim, e.kind) == Replayed(rows, e)
  {
    assert forall f | f in es :: f.id == Resolve(x.run, x.memo.Keys, f.claim) by {
      forall f | f in es ensures f.id == Resolve(x.run, x.memo.Keys, f.claim) {
        assert f == Answered(x, f.claim, f.kind);
      }
    }
    ReplayedId(x, es, rows, e);
    if e.id in rows {
      var f :| f in es && f.id == e.id && f.how.Ran? && rows[e.id] == RowOf(f.how.reply);
      SameIdSameClaim(x, es, e, f);
    }
    ReplayedAnswerAs(x, rows, e.claim, e.kind, e.id);
  }

  lemma {:induction false} SameIdSameClaim(x: Exec, es: seq<Entry>, e: Entry, f: Entry)
    requires e in es && f in es && e.id == f.id && Distinct(es) && Unaliased(x.run, es)
    requires e == Answered(x, e.claim, e.kind) && f == Answered(x, f.claim, f.kind)
    ensures e == f
  {
    if e.id == Id(x.run, e.claim) && f.id == Id(x.run, f.claim) {
      IdInjective(x.run, e.claim, f.claim);
    }
    assert e.claim == f.claim;
  }

  lemma {:induction false} ReplayedAllEntries(rows: map<string, Row>, ms: seq<Meaning>, ns: seq<Meaning>)
    requires |ms| == |ns| && forall i | 0 <= i < |ms| :: ns[i].entries == ReplayedAll(rows, ms[i].entries)
    ensures AllEntries(ns) == ReplayedAll(rows, AllEntries(ms))
  {
    if ms != [] { ReplayedAllEntries(rows, ms[1..], ns[1..]); }
  }

  /** The table of x' answers these entries as the replay does. */
  ghost predicate AnswersReplayed(x': Exec, rows: map<string, Row>, es: seq<Entry>) {
    forall e | e in es :: Answered(x', e.claim, e.kind) == Replayed(rows, e)
  }

  lemma {:induction false} SomeReplayed(x': Exec, rows: map<string, Row>, es: seq<Entry>, fs: seq<Entry>)
    requires AnswersReplayed(x', rows, es) && forall f | f in fs :: f in es
    ensures AnswersReplayed(x', rows, fs)
  {
  }

  lemma {:induction false} EvalReplayed(
    x: Exec, x': Exec, rows: map<string, Row>, path: seq<Element>, cnt: Counters, p: Prog)
    requires AnswersReplayed(x', rows, Eval(x, path, cnt, p).entries)
    ensures SameButReplayed(rows, Eval(x, path, cnt, p), Eval(x', path, cnt, p))
    decreases p
  {
    match p
    case Return(_) =>
    case Fail(_) =>
    case Step(_, _, _) => StepReplayed(x, x', rows, path, cnt, p);
    case Fan(_, bs, _, _) =>
      if bs == [] {
        EmptyFanReplayed(x, x', rows, path, cnt, p);
      } else {
        FanReplayed(x, x', rows, path, cnt, p);
      }
  }

  ghost predicate SameButReplayed(rows: map<string, Row>, m: Meaning, m': Meaning) {
    m'.outcome == m.outcome && m'.entries == ReplayedAll(rows, m.entries)
  }

  lemma {:induction false} ThenReplayed(
    rows: map<string, Row>, a: seq<Entry>, m: Meaning, a': seq<Entry>, m': Meaning, w: nat, w': nat)
    requires a' == ReplayedAll(rows, a) && SameButReplayed(rows, m, m')
    ensures SameButReplayed(rows, Then(a, w, m), Then(a', w', m'))
  {
  }

  lemma {:induction false} StepReplayed(
    x: Exec, x': Exec, rows: map<string, Row>, path: seq<Element>, cnt: Counters, p: Prog)
    requires p.Step?
    requires AnswersReplayed(x', rows, Eval(x, path, cnt, p).entries)
    ensures SameButReplayed(rows, Eval(x, path, cnt, p), Eval(x', path, cnt, p))
    decreases p, 0
  {
    EvalStepNode(x, path, cnt, p);
    EvalStepNode(x', path, cnt, p);
    var e, e' := ClaimStep(x, path, cnt, p.kind, p.name), ClaimStep(x', path, cnt, p.kind, p.name);
    assert Eval(x, path, cnt, p).entries[0] == e;
    assert e' == Replayed(rows, e);
    if !e.how.Parked? {
      var next := cnt[p.name := Count(cnt, p.name) + 1];
      var m, m' := Eval(x, path, next, Cont(p.k, e.how.reply)), Eval(x', path, next, Cont(p.k, e.how.reply));
      assert Eval(x, path, cnt, p).entries == [e] + m.entries;
      if e.how.reply in p.k {
        EvalReplayed(x, x', rows, path, next, p.k[e.how.reply]);
      } else {
        EvalUnhandled(x, path, next);
        EvalUnhandled(x', path, next);
      }
      ThenReplayed(rows, [e], m, [e'], m', 1, 1);
    }
  }

  lemma {:induction false} EmptyFanReplayed(
    x: Exec, x': Exec, rows: map<string, Row>, path: seq<Element>, cnt: Counters, p: Prog)
    requires p.Fan? && p.branches == []
    requires AnswersReplayed(x', rows, Eval(x, path, cnt, p).entries)
    ensures SameButReplayed(rows, Eval(x, path, cnt, p), Eval(x', path, cnt, p))
    decreases p, 0
  {
    var r := Ok(List([]));
    if r in p.k {
      var m, m' := Eval(x, path, cnt, p.k[r]), Eval(x', path, cnt, p.k[r]);
      assert Eval(x, path, cnt, p).entries == m.entries;
      EvalReplayed(x, x', rows, path, cnt, p.k[r]);
      ThenReplayed(rows, [], m, [], m', 1, 1);
    }
  }

  lemma {:induction false} FanReplayed(
    x: Exec, x': Exec, rows: map<string, Row>, path: seq<Element>, cnt: Counters, p: Prog)
    requires p.Fan? && p.branches != []
    requires AnswersReplayed(x', rows, Eval(x, path, cnt, p).entries)
    ensures SameButReplayed(rows, Eval(x, path, cnt, p), Eval(x', path, cnt, p))
    decreases p, 1
  {
    var bs, name := p.branches, p.name;
    var ms, ns := BranchMeanings(x, path, name, bs), BranchMeanings(x', path, name, bs);
    EvalFan(x, path, cnt, p);
    EvalFan(x', path, cnt, p);
    var v := Combine(p.opts.settled, Outcomes(ms));
    var es := Eval(x, path, cnt, p).entries;
    SomeReplayed(x', rows, es, AllEntries(ms));
    BranchesReplayed(x, x', rows, path, p);
    assert Outcomes(ms) == Outcomes(ns);
    ReplayedAllEntries(rows, ms, ns);
    if v.Proceed? {
      var m, m' := Eval(x, path, cnt, Cont(p.k, v.reply)), Eval(x', path, cnt, Cont(p.k, v.reply));
      SomeReplayed(x', rows, es, m.entries);
      if v.reply in p.k {
        EvalReplayed(x, x', rows, path, cnt, p.k[v.reply]);
      } else {
        EvalUnhandled(x, path, cnt);
        EvalUnhandled(x', path, cnt);
      }
      ThenReplayed(rows, AllEntries(ms), m, AllEntries(ns), m', 0, 0);
    }
  }

  lemma {:induction false} BranchesReplayed(x: Exec, x': Exec, rows: map<string, Row>, path: seq<Element>, p: Prog)
    requires p.Fan?
    requires AnswersReplayed(x', rows, AllEntries(BranchMeanings(x, path, p.name, p.branches)))
    ensures forall i | 0 <= i < |p.branches| ::
              SameButReplayed(rows, BranchMeanings(x, path, p.name, p.branches)[i],
                              BranchMeanings(x', path, p.name, p.branches)[i])
    decreases p, 0
  {
    var bs, name := p.branches, p.name;
    var ms, ns := BranchMeanings(x, path, name, bs), BranchMeanings(x', path, name, bs);
    forall i | 0 <= i < |bs| ensures SameButReplayed(rows, ms[i], ns[i]) {
      forall e | e in ms[i].entries ensures e in AllEntries(ms) { InAllEntries(ms, i, e); }
      assert ms[i].entries == Eval(x, Branch(path, name, i), map[], bs[i]).entries;
      EvalReplayed(x, x', rows, Branch(path, name, i), map[], bs[i]);
    }
  }

  /** Replay is memo override.  Persist any part of what an attempt executed and run again:
      the handler sees the same replies and ends the same way, and the bodies executed are
      exactly those whose completed row was not persisted. */
  lemma {:induction false} ReplayIsMemoOverride(x: Exec, p: Prog, rows: map<string, Row>)
    requires UniqueFans({}, p)
    requires PersistedFrom(Eval(x, [], map[], p).entries, rows)
    requires Unaliased(x.run, Eval(x, [], map[], p).entries)
    ensures var m, m' := Eval(x, [], map[], p), Eval(x.(memo := x.memo + rows), [], map[], p);
            && m'.outcome == m.outcome
            && |m'.entries| == |m.entries|
            && (forall i | 0 <= i < |m.entries| ::
                  && m'.entries[i] == Replayed(rows, m.entries[i])
                  && (m'.entries[i].how.Ran? <==>
                        m.entries[i].how.Ran? && !(m.entries[i].id in rows
                          && rows[m.entries[i].id].status == Completed)))
  {
    var m, m' := Eval(x, [], map[], p), Eval(x.(memo := x.memo + rows), [], map[], p);
    EntriesReplayed(x, p, rows, m.entries);
    EvalReplayed(x, x.(memo := x.memo + rows), rows, [], map[], p);
    CompletedExactly(x, m.entries, rows);
    RanExactly(rows, m, m');
  }

  lemma {:induction false} RanExactly(rows: map<string, Row>, m: Meaning, m': Meaning)
    requires SameButReplayed(rows, m, m')
    requires forall i | 0 <= i < |m.entries| && m.entries[i].how.Ran? && m.entries[i].id in rows ::
               m.entries[i].how.reply.Ok? <==> rows[m.entries[i].id].status == Completed
    ensures m'.outcome == m.outcome && |m'.entries| == |m.entries|
    ensures forall i | 0 <= i < |m.entries| ::
              && m'.entries[i] == Replayed(rows, m.entries[i])
              && (m'.entries[i].how.Ran? <==>
                    m.entries[i].how.Ran? && !(m.entries[i].id in rows && rows[m.entries[i].id].status == Completed))
  {
  }

  lemma {:induction false} EntriesReplayed(x: Exec, p: Prog, rows: map<string, Row>, es: seq<Entry>)
    requires UniqueFans({}, p) && es == Eval(x, [], map[], p).entries
    requires PersistedFrom(es, rows) && Unaliased(x.run, es)
    ensures Distinct(es)
    ensures forall f | f in es :: f == Answered(x, f.claim, f.kind)
    ensures forall e | e in es :: Answered(x.(memo := x.memo + rows), e.claim, e.kind) == Replayed(rows, e)
  {
    ClaimsDistinct(x, [], map[], {}, p);
    forall f | f in es ensures f == Answered(x, f.claim, f.kind) { EvalAnswers(x, [], map[], p, f); }
    forall e | e in es ensures Answered(x.(memo := x.memo + rows), e.claim, e.kind) == Replayed(rows, e) {
      ReplayedAnswer(x, es, rows, e);
    }
  }

  lemma {:induction false} CompletedExactly(x: Exec, es: seq<Entry>, rows: map<string, Row>)
    requires Distinct(es) && PersistedFrom(es, rows) && Unaliased(x.run, es)
    requires forall f | f in es :: f == Answered(x, f.claim, f.kind)
    ensures forall i | 0 <= i < |es| && es[i].how.Ran? && es[i].id in rows ::
              es[i].how.reply.Ok? <==> rows[es[i].id].status == Completed
  {
    forall i | 0 <= i < |es| && es[i].how.Ran? && es[i].id in rows
      ensures es[i].how.reply.Ok? <==> rows[es[i].id].status == Completed
    {
      var f :| f in es && f.id == es[i].id && f.how.Ran? && rows[es[i].id] == RowOf(f.how.reply);
      SameIdSameClaim(x, es, es[i], f);
    }
  }

  /** The completed rows under these ids. */
  function CompletedRows(memo: map<string, Row>, ids: set<string>): map<string, Row> {
    map id | id in memo && id in ids && memo[id].status == Completed :: memo[id]
  }

  /** The invocation that has forgotten those rows, but whose bodies reply what was stored. */
  function Forgetting(x: Exec, ids: set<string>): Exec {
    var rows := CompletedRows(x.memo, ids);
    x.(memo := map id | id in x.memo :: if id in rows then rows[id].(status := Pending) else x.memo[id],
       world := (c: Claim) => var id := Resolve(x.run, x.memo.Keys, c);
                              if id in rows then Ok(rows[id].output) else x.world(c))
  }

  lemma {:induction false} ForgottenAnswer(x: Exec, ids: set<string>, c: Claim, kind: Kind, id: string)
    requires id == Resolve(x.run, x.memo.Keys, c) && (id in ids ==> kind == Run)
    ensures AnsweredAs(x, c, kind, id) ==
              Replayed(CompletedRows(x.memo, ids), AnsweredAs(Forgetting(x, ids), c, kind, id))
  {
  }

  /** Replay is memo override, for every handler and every table, with no hypothesis on names:
      running with the table gives the outcome and the claims of the run that has forgotten any
      completed rows of body-running steps while its bodies reply the stored outputs; and with the
      table, the bodies executed are exactly those of claims without a completed row. */
  lemma {:induction false} TableOverridesBodies(x: Exec, p: Prog, ids: set<string>)
    requires forall e | e in Eval(Forgetting(x, ids), [], map[], p).entries && e.id in ids :: e.kind == Run
    ensures var m, anew := Eval(x, [], map[], p), Eval(Forgetting(x, ids), [], map[], p);
            && m.outcome == anew.outcome && |m.entries| == |anew.entries|
            && forall i | 0 <= i < |m.entries| ::
                 && m.entries[i].claim == anew.entries[i].claim && m.entries[i].id == anew.entries[i].id
                 && (m.entries[i].how.Ran? <==>
                       && m.entries[i].kind == Run
                       && !(m.entries[i].id in x.memo && x.memo[m.entries[i].id].status == Completed))
  {
    var y, rows := Forgetting(x, ids), CompletedRows(x.memo, ids);
    var m, anew := Eval(x, [], map[], p), Eval(y, [], map[], p);
    assert y.memo.Keys == x.memo.Keys;
    forall e | e in anew.entries ensures Answered(x, e.claim, e.kind) == Replayed(rows, e) {
      EvalAnswers(y, [], map[], p, e);
      ForgottenAnswer(x, ids, e.claim, e.kind, e.id);
    }
    EvalReplayed(y, x, rows, [], map[], p);
    forall i | 0 <= i < |m.entries|
      ensures m.entries[i].how.Ran? <==>
                m.entries[i].kind == Run && !(m.entries[i].id in x.memo && x.memo[m.entries[i].id].status == Completed)
    {
      EvalAnswers(x, [], map[], p, m.entries[i]);
      RanIff(x, m.entries[i]);
    }
  }

  lemma {:induction false} RanIff(x: Exec, e: Entry)
    requires e == Answered(x, e.claim, e.kind)
    ensures e.how.Ran? <==> e.kind == Run && !(e.id in x.memo && x.memo[e.id].status == Completed)
  {
  }

  // --------------------------------------------- histories of crashed attempts

  /** An attempt: an interleaved run of the handler, stopped anywhere. */
  datatype Attempt = Attempt(exec: Exec, threads: seq<Thread>, logs: seq<seq<Entry>>)

  ghost predicate IsAttempt(p: Prog, a: Attempt) {
    IsRun(a.exec, [], a.threads, a.logs) && a.threads[0] == Active(map[], p)
  }

  /** The server's table after an attempt: completed rows stay, and a new row has an id that
      the attempt reported. */
  ghost predicate Grows(a: Attempt, next: Exec) {
    && next.run == a.exec.run
    && a.exec.memo.Keys <= next.memo.Keys
    && (forall id | id in a.exec.memo && a.exec.memo[id].status == Completed :: next.memo[id] == a.exec.memo[id])
    && (forall id | id in next.memo && id !in a.exec.memo :: exists e | e in Flatten(a.logs) :: e.id == id)
  }

  ghost predicate IsHistory(p: Prog, h: seq<Attempt>) {
    && (forall i | 0 <= i < |h| :: IsAttempt(p, h[i]))
    && (forall i | 0 <= i < |h| - 1 :: Grows(h[i], h[i + 1].exec))
  }

  lemma {:induction false} StepLogsAnswers(x: Exec, path: seq<Element>, t: Thread, log: seq<Entry>, t': Thread)
    requires StepTo(x, path, t, log, t')
    ensures forall e | e in log :: e == Answered(x, e.claim, e.kind)
    decreases t
  {
    match t
    case Active(_, _) =>
    case Forked(cnt, name, opts, k, cs) =>
      if log != [] {
        var i, c' :| 0 <= i < |cs| && t' == t.(children := cs[i := c'])
          && StepTo(x, Branch(path, name, i), cs[i], log, c');
        StepLogsAnswers(x, Branch(path, name, i), cs[i], log, c');
      }
  }

  lemma {:induction false} RunLogsAnswers(x: Exec, path: seq<Element>, ts: seq<Thread>, logs: seq<seq<Entry>>, e: Entry)
    requires IsRun(x, path, ts, logs) && e in Flatten(logs)
    ensures e == Answered(x, e.claim, e.kind)
    decreases |logs|
  {
    StepLogsAnswers(x, path, ts[0], logs[0], ts[1]);
    if e !in logs[0] {
      var us, rest := ts[1..], logs[1..];
      forall i | 0 <= i < |rest| ensures StepTo(x, path, us[i], rest[i], us[i + 1]) {
        assert StepTo(x, path, ts[i + 1], logs[i + 1], ts[i + 1 + 1]);
      }
      RunLogsAnswers(x, path, us, rest, e);
    }
  }

  // ------------------------------------- what a step without a body is answered

  /** In every interleaved attempt, a sleep is over exactly when its row is completed or the attempt
      resumes from it, and parks otherwise. */
  lemma {:induction false} SleepSees(p: Prog, a: Attempt, e: Entry)
    requires IsAttempt(p, a) && e in Flatten(a.logs) && e.kind.Sleep?
    ensures (e.id in a.exec.memo && a.exec.memo[e.id].status == Completed)
            || (a.exec.resume.Some? && a.exec.resume.value.stepId == e.id && a.exec.resume.value.kind == "sleep")
            <==> e.how == Memoized(Ok(Null))
    ensures e.how == Memoized(Ok(Null)) || e.how == Parked
  {
    RunLogsAnswers(a.exec, [], a.threads, a.logs, e);
  }

  /** A wait gets the output of its completed row, and else the data it is resumed with; a null row is
      an error unless the wait is optional. */
  lemma {:induction false} WaitSees(p: Prog, a: Attempt, e: Entry)
    requires IsAttempt(p, a) && e in Flatten(a.logs) && e.kind.Wait?
    ensures e.id in a.exec.memo && a.exec.memo[e.id].status == Completed ==>
              var output := a.exec.memo[e.id].output;
              e.how == if output == Null && !e.kind.optional then Memoized(Failed("wait result is null"))
                       else Memoized(Ok(output))
    ensures !(e.id in a.exec.memo && a.exec.memo[e.id].status == Completed) ==>
              var r := a.exec.resume;
              e.how == if r.Some? && r.value.stepId == e.id && r.value.kind == "wait_for_event" && r.value.data != Null
                       then Memoized(Ok(r.value.data)) else Parked
  {
    RunLogsAnswers(a.exec, [], a.threads, a.logs, e);
  }

  /** An invoke gets its child's output, its child's error, or a timeout, as its row says. */
  lemma {:induction false} InvokeSees(p: Prog, a: Attempt, e: Entry)
    requires IsAttempt(p, a) && e in Flatten(a.logs) && e.kind.Invoke?
    ensures e.id !in a.exec.memo ==> e.how == Parked
    ensures e.id in a.exec.memo ==>
              var row := a.exec.memo[e.id];
              && (row.status == Completed ==> e.how == Memoized(Ok(row.output)))
              && (row.status == RowFailed ==> e.how == Memoized(Failed(row.error)))
              && (row.status == TimedOut ==> e.how == Memoized(Failed("invoke timed out")))
              && (row.status == Pending ==> e.how == Parked)
  {
    RunLogsAnswers(a.exec, [], a.threads, a.logs, e);
  }

  /** An asynchronous invoke gets the started run or the error of starting it; it has no timeout. */
  lemma {:induction false} InvokeAsyncSees(p: Prog, a: Attempt, e: Entry)
    requires IsAttempt(p, a) && e in Flatten(a.logs) && e.kind.InvokeAsync?
    ensures e.id !in a.exec.memo ==> e.how == Parked
    ensures e.id in a.exec.memo ==>
              var row := a.exec.memo[e.id];
              && (row.status == Completed ==> e.how == Memoized(Ok(row.output)))
              && (row.status == RowFailed ==> e.how == Memoized(Failed(row.error)))
              && (row.status == TimedOut || row.status == Pending ==> e.how == Parked)
  {
    RunLogsAnswers(a.exec, [], a.threads, a.logs, e);
  }

  /** A step with a body gets its completed row's output, and otherwise runs its body. */
  lemma {:induction false} RunSees(p: Prog, a: Attempt, e: Entry)
    requires IsAttempt(p, a) && e in Flatten(a.logs) && e.kind.Run?
    ensures e.how == if e.id in a.exec.memo && a.exec.memo[e.id].status == Completed
                     then Memoized(Ok(a.exec.memo[e.id].output)) else Ran(a.exec.world(e.claim))
  {
    RunLogsAnswers(a.exec, [], a.threads, a.logs, e);
  }

  /** The reply a row holds for a step of this kind. */
  predicate RowTells(kind: Kind, row: Row, r: Reply) {
    match kind
    case Run => row.status == Completed && r == Ok(row.output)
    case Sleep => row.status == Completed && r == Ok(Null)
    case Wait(optional) =>
      && row.status == Completed
      && (if row.output == Null && !optional then r == Failed("wait result is null") else r == Ok(row.output))
    case Invoke =>
      || (row.status == Completed && r == Ok(row.output))
      || (row.status == RowFailed && r == Failed(row.error))
      || (row.status == TimedOut && r == Failed("invoke timed out"))
    case InvokeAsync =>
      || (row.status == Completed && r == Ok(row.output))
      || (row.status == RowFailed && r == Failed(row.error))
  }

  /** The reply a resume context holds for a step of this kind; a completed row goes first. */
  predicate ResumeTells(kind: Kind, resume: Resume, r: Reply) {
    || (kind.Sleep? && resume.kind == "sleep" && r == Ok(Null))
    || (kind.Wait? && resume.kind == "wait_for_event" && resume.data != Null && r == Ok(resume.data))
  }

  predicate Tells(x: Exec, kind: Kind, id: string, r: Reply) {
    || (id in x.memo && RowTells(kind, x.memo[id], r))
    || (&& !(id in x.memo && x.memo[id].status == Completed)
        && x.resume.Some? && x.resume.value.stepId == id && ResumeTells(kind, x.resume.value, r))
  }

  lemma {:induction false} TellsAnswer(x: Exec, kind: Kind, id: string, r: Reply)
    ensures Answer(x, kind, id) == Some(r) <==> Tells(x, kind, id, r)
  {
  }

  /** What the table rule sees of an attempt: the table it started from and the ids it used. */
  datatype Ledger = Ledger(run: string, memo: map<string, Row>, ids: set<string>)

  ghost predicate IdsResolved(l: Ledger) {
    forall id | id in l.ids :: exists c :: id == Resolve(l.run, l.memo.Keys, c)
  }

  ghost predicate LedgerGrows(l: Ledger, next: Ledger) {
    && next.run == l.run
    && l.memo.Keys <= next.memo.Keys
    && (forall id | id in l.memo && l.memo[id].status == Completed :: next.memo[id] == l.memo[id])
    && next.memo.Keys - l.memo.Keys <= l.ids
  }

  /** A claim whose row is in the table keeps reading that row, whatever rows are added. */
  lemma {:induction false} PinnedStays(l: Ledger, next: Ledger, c: Claim)
    requires IdsResolved(l) && LedgerGrows(l, next)
    requires Resolve(l.run, l.memo.Keys, c) in next.memo
    ensures Resolve(next.run, next.memo.Keys, c) == Resolve(l.run, l.memo.Keys, c)
  {
    var id := Id(l.run, c);
    if id !in l.memo && id in next.memo {
      assert id in l.ids;
      var d :| id == Resolve(l.run, l.memo.Keys, d);
      ResolveReachesOnlyOwnId(l.run, l.memo.Keys, c, d);
    }
  }

  /** The claim reads its completed row under this id. */
  ghost predicate ReadsRow(l: Ledger, c: Claim, id: string, row: Row) {
    id == Resolve(l.run, l.memo.Keys, c) && id in l.memo && l.memo[id] == row
  }

  /** A claim reads the row that was persisted under its id. */
  lemma {:induction false} ReadsNewRow(l: Ledger, l': Ledger, c: Claim, id: string)
    requires IdsResolved(l) && LedgerGrows(l, l') && id == Resolve(l.run, l.memo.Keys, c) && id in l'.memo
    ensures ReadsRow(l', c, id, l'.memo[id])
  {
    PinnedStays(l, l', c);
  }

  lemma {:induction false} ReadsRowStays(l: Ledger, l': Ledger, c: Claim, id: string, row: Row)
    requires IdsResolved(l) && LedgerGrows(l, l') && row.status == Completed && ReadsRow(l, c, id, row)
    ensures ReadsRow(l', c, id, row)
  {
    PinnedStays(l, l', c);
  }

  lemma {:induction false} ReadsRowOn(ls: seq<Ledger>, m: nat, j: nat, c: Claim, id: string, row: Row)
    requires m <= j < |ls| && row.status == Completed && ReadsRow(ls[m], c, id, row)
    requires forall n | 0 <= n < |ls| :: IdsResolved(ls[n])
    requires forall n | 0 <= n < |ls| - 1 :: LedgerGrows(ls[n], ls[n + 1])
    ensures ReadsRow(ls[j], c, id, row)
    decreases j
  {
    if m < j {
      var n := j - 1;
      ReadsRowOn(ls, m, n, c, id, row);
      assert LedgerGrows(ls[n], ls[n + 1]);
      ReadsRowStays(ls[n], ls[j], c, id, row);
    }
  }

  lemma {:induction false} RowStays(ls: seq<Ledger>, i: nat, j: nat, c: Claim, id: string)
    requires i < j < |ls|
    requires forall n | 0 <= n < |ls| :: IdsResolved(ls[n])
    requires forall n | 0 <= n < |ls| - 1 :: LedgerGrows(ls[n], ls[n + 1])
    requires id == Resolve(ls[i].run, ls[i].memo.Keys, c)
    requires id in ls[i + 1].memo && ls[i + 1].memo[id].status == Completed
    ensures id == Resolve(ls[j].run, ls[j].memo.Keys, c)
    ensures id in ls[j].memo && ls[j].memo[id] == ls[i + 1].memo[id]
  {
    assert LedgerGrows(ls[i], ls[i + 1]);
    ReadsNewRow(ls[i], ls[i + 1], c, id);
    ReadsRowOn(ls, i + 1, j, c, id, ls[i + 1].memo[id]);
  }

  ghost function LedgerOf(a: Attempt): Ledger {
    Ledger(a.exec.run, a.exec.memo, set e | e in Flatten(a.logs) :: e.id)
  }

  lemma {:induction false} AttemptIdsResolved(p: Prog, a: Attempt)
    requires IsAttempt(p, a)
    ensures IdsResolved(LedgerOf(a))
  {
    forall id | id in LedgerOf(a).ids ensures exists c :: id == Resolve(a.exec.run, a.exec.memo.Keys, c) {
      var e :| e in Flatten(a.logs) && e.id == id;
      RunLogsAnswers(a.exec, [], a.threads, a.logs, e);
      assert id == Resolve(a.exec.run, a.exec.memo.Keys, e.claim);
    }
  }

  lemma {:induction false} HistoryLedgers(p: Prog, h: seq<Attempt>, ls: seq<Ledger>)
    requires IsHistory(p, h) && |ls| == |h| && forall n | 0 <= n < |h| :: ls[n] == LedgerOf(h[n])
    ensures forall n | 0 <= n < |ls| :: IdsResolved(ls[n])
    ensures forall n | 0 <= n < |ls| - 1 :: LedgerGrows(ls[n], ls[n + 1])
  {
    forall n | 0 <= n < |ls| ensures IdsResolved(ls[n]) { AttemptIdsResolved(p, h[n]); }
    forall n | 0 <= n < |ls| - 1 ensures LedgerGrows(ls[n], ls[n + 1]) { assert Grows(h[n], h[n + 1].exec); }
  }

  /** A persisted step never runs again: over any number of attempts, interleavings and
      crashes, and whatever the bodies would reply, a step whose completed row reached the
      server is answered with that row under that id in every later attempt. */
  lemma {:induction false} PersistedStepNeverRunsAgain(p: Prog, h: seq<Attempt>, i: nat, j: nat, e: Entry, later: Entry)
    requires IsHistory(p, h) && i < j < |h|
    requires e in Flatten(h[i].logs) && e.how.Ran? && e.how.reply.Ok?
    requires e.id in h[i + 1].exec.memo && h[i + 1].exec.memo[e.id] == RowOf(e.how.reply)
    requires later in Flatten(h[j].logs) && later.claim == e.claim && later.kind == Run
    ensures later.id == e.id && later.how == Memoized(e.how.reply)
  {
    RunLogsAnswers(h[i].exec, [], h[i].threads, h[i].logs, e);
    RunLogsAnswers(h[j].exec, [], h[j].threads, h[j].logs, later);
    var ls := seq(|h|, n requires 0 <= n < |h| => LedgerOf(h[n]));
    HistoryLedgers(p, h, ls);
    RowStays(ls, i, j, e.claim, e.id);
  }
  /** A parked step's row, once in the table, is read under the same id by every later claim of the
      step, and a completed row answers it with what the row says, in every later attempt. */
  lemma {:induction false} StoredRowIsRead(p: Prog, h: seq<Attempt>, i: nat, j: nat, e: Entry, later: Entry)
    requires IsHistory(p, h) && i < j < |h|
    requires e in Flatten(h[i].logs) && e.id in h[i + 1].exec.memo && h[i + 1].exec.memo[e.id].status == Completed
    requires later in Flatten(h[j].logs) && later.claim == e.claim
    ensures later.id == e.id && e.id in h[j].exec.memo
    ensures h[j].exec.memo[e.id] == h[i + 1].exec.memo[e.id]
    ensures later.how.Memoized? && RowTells(later.kind, h[i + 1].exec.memo[e.id], later.how.reply)
  {
    RunLogsAnswers(h[i].exec, [], h[i].threads, h[i].logs, e);
    RunLogsAnswers(h[j].exec, [], h[j].threads, h[j].logs, later);
    var ls := seq(|h|, n requires 0 <= n < |h| => LedgerOf(h[n]));
    HistoryLedgers(p, h, ls);
    RowStays(ls, i, j, e.claim, e.id);
  }
}
