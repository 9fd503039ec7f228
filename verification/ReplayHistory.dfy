/** Histories of attempts that crash, sleep and wait (ironflow/step.go, ironflow/job_executor.go).

    Between two attempts the server stores any part of what the handler executed, and any results
    of the steps it parked at; the next attempt may also resume one of them.  Every attempt is then
    a replay of one undisturbed run: the run from the first table whose bodies all execute and
    whose parked steps reply those values. */
module ReplayHistory {
  import opened StepIds
  import opened Durable
  import opened Optional
  import opened Replay

  // ------------------------------------------------------- what the server may do

  /** What the server stores between two attempts: rows of executed bodies, and rows of steps the
      handler parked at. */
  datatype Saved = Saved(body: map<string, Row>, late: map<string, Row>)

  /** A row of a step without a body: any row while the step is parked, and the same answer ever after. */
  predicate LateRow(e: Entry, row: Row) {
    !e.kind.Run? && (e.how.Parked? || RowTells(e.kind, row, e.how.reply))
  }

  ghost predicate LateFrom(es: seq<Entry>, late: map<string, Row>) {
    forall id | id in late :: exists e | e in es :: e.id == id && LateRow(e, late[id])
  }

  /** The table holds what the resume context says. */
  predicate StandsFor(memo: map<string, Row>, r: Resume) {
    && (r.kind == "sleep" ==> r.stepId in memo && memo[r.stepId].status == Completed)
    && (r.kind == "wait_for_event" && r.data != Null ==>
          r.stepId in memo && memo[r.stepId].status == Completed && memo[r.stepId].output == r.data)
  }

  /** A resume context is given again until the table holds the row it stands for. */
  predicate ResumeKept(x: Exec, next: Exec) {
    next.resume == x.resume || (x.resume.Some? ==> StandsFor(next.memo, x.resume.value))
  }

  /** The next attempt starts from the table with what was stored, its step bodies would reply as
      before, and it may resume from anywhere. */
  ghost predicate Follows(a: Attempt, s: Saved, next: Attempt) {
    && PersistedFrom(Flatten(a.logs), s.body) && LateFrom(Flatten(a.logs), s.late)
    && next.exec == a.exec.(memo := a.exec.memo + s.body + s.late, resume := next.exec.resume)
    && ResumeKept(a.exec, next.exec)
  }

  /** Attempts under any interleaving, each stopped anywhere. */
  ghost predicate IsServed(p: Prog, h: seq<Attempt>, saved: seq<Saved>) {
    && |h| == |saved| + 1
    && (forall i | 0 <= i < |h| :: IsAttempt(p, h[i]))
    && (forall i | 0 <= i < |saved| :: Follows(h[i], saved[i], h[i + 1]))
  }

  function Bodies(saved: seq<Saved>): map<string, Row> {
    if saved == [] then map[] else Bodies(saved[..|saved| - 1]) + saved[|saved| - 1].body
  }

  function Lates(saved: seq<Saved>): map<string, Row> {
    if saved == [] then map[] else Lates(saved[..|saved| - 1]) + saved[|saved| - 1].late
  }

  /** The first table with the results of parked steps that attempt j has: no row of a body. */
  ghost function Reference(h: seq<Attempt>, saved: seq<Saved>, j: nat): Exec
    requires j < |h| == |saved| + 1
  {
    h[0].exec.(memo := h[0].exec.memo + Lates(saved[..j]), resume := h[j].exec.resume)
  }

  /** The undisturbed run from the first table in which the steps that were parked reply those values. */
  ghost function Undisturbed(p: Prog, h: seq<Attempt>, saved: seq<Saved>, j: nat): Meaning
    requires j < |h| == |saved| + 1
  {
    Eval(Reference(h, saved, j), [], map[], p)
  }

  /** A handler that replays: its fan-outs skip no branch and have unique names, and no id of the
      undisturbed run is the legacy spelling of another of its claims. */
  ghost predicate Replays(p: Prog, h: seq<Attempt>, saved: seq<Saved>) {
    && IsServed(p, h, saved) && NoSkips(p) && UniqueFans({}, p)
    && forall j | 0 <= j < |h| :: Unaliased(h[0].exec.run, Undisturbed(p, h, saved, j).entries)
  }

  // ----------------------------------------------------- more steps have replied

  /** A claim, and the same claim when more steps have replied. */
  predicate Later(e: Entry, f: Entry) {
    f == e || (e.how.Parked? && f.claim == e.claim && f.kind == e.kind && f.id == e.id)
  }

  ghost predicate AllLater(es: seq<Entry>, fs: seq<Entry>) {
    forall e | e in es :: exists f | f in fs :: Later(e, f)
  }

  /** The second run goes on where the first parked, and is the same if it did not. */
  ghost predicate Extends(m: Meaning, m': Meaning) {
    && AllLater(m.entries, m'.entries)
    && (!m.outcome.Yielded? ==> m'.outcome == m.outcome && m'.entries == m.entries)
  }

  /** The table and resume context of x' answer whatever is answered in these entries, alike. */
  ghost predicate AnswersLater(x': Exec, es: seq<Entry>) {
    forall e | e in es :: Later(e, Answered(x', e.claim, e.kind))
  }

  lemma {:induction false} SomeLater(x': Exec, es: seq<Entry>, fs: seq<Entry>)
    requires AnswersLater(x', es) && forall f | f in fs :: f in es
    ensures AnswersLater(x', fs)
  {
  }

  lemma {:induction false} ThenExtends(a: seq<Entry>, m: Meaning, m': Meaning, w: nat, w': nat)
    requires Extends(m, m')
    ensures Extends(Then(a, w, m), Then(a, w', m'))
  {
    forall e | e in a + m.entries ensures exists f | f in a + m'.entries :: Later(e, f) {
      if e in a { assert Later(e, e); }
      else { var f :| f in m'.entries && Later(e, f); assert f in a + m'.entries; }
    }
  }

  lemma {:induction false} EvalExtends(x: Exec, x': Exec, path: seq<Element>, cnt: Counters, p: Prog)
    requires AnswersLater(x', Eval(x, path, cnt, p).entries)
    ensures Extends(Eval(x, path, cnt, p), Eval(x', path, cnt, p))
    decreases p
  {
    match p
    case Return(_) =>
    case Fail(_) =>
    case Step(_, _, _) => StepExtends(x, x', path, cnt, p);
    case Fan(_, bs, _, _) =>
      if bs == [] { EmptyFanExtends(x, x', path, cnt, p); } else { FanExtends(x, x', path, cnt, p); }
  }

  lemma {:induction false} ContExtends(x: Exec, x': Exec, path: seq<Element>, cnt: Counters, p: Prog, r: Reply)
    requires p.Step? || p.Fan?
    requires AnswersLater(x', Eval(x, path, cnt, Cont(p.k, r)).entries)
    ensures Extends(Eval(x, path, cnt, Cont(p.k, r)), Eval(x', path, cnt, Cont(p.k, r)))
    decreases p, 0, 0
  {
    if r in p.k {
      EvalExtends(x, x', path, cnt, p.k[r]);
    } else {
      EvalUnhandled(x, path, cnt);
      EvalUnhandled(x', path, cnt);
    }
  }

  lemma {:induction false} StepExtends(x: Exec, x': Exec, path: seq<Element>, cnt: Counters, p: Prog)
    requires p.Step? && AnswersLater(x', Eval(x, path, cnt, p).entries)
    ensures Extends(Eval(x, path, cnt, p), Eval(x', path, cnt, p))
    decreases p, 1, 0
  {
    EvalStepNode(x, path, cnt, p);
    EvalStepNode(x', path, cnt, p);
    var e, e' := ClaimStep(x, path, cnt, p.kind, p.name), ClaimStep(x', path, cnt, p.kind, p.name);
    assert Eval(x, path, cnt, p).entries[0] == e;
    assert Later(e, e');
    if e.how.Parked? {
      assert Eval(x', path, cnt, p).entries[0] == e';
    } else {
      var next, r := cnt[p.name := Count(cnt, p.name) + 1], e.how.reply;
      var m := Eval(x, path, next, Cont(p.k, r));
      SomeLater(x', Eval(x, path, cnt, p).entries, m.entries);
      ContExtends(x, x', path, next, p, r);
      ThenExtends([e], m, Eval(x', path, next, Cont(p.k, r)), 1, 1);
    }
  }

  lemma {:induction false} EmptyFanExtends(x: Exec, x': Exec, path: seq<Element>, cnt: Counters, p: Prog)
    requires p.Fan? && p.branches == [] && AnswersLater(x', Eval(x, path, cnt, p).entries)
    ensures Extends(Eval(x, path, cnt, p), Eval(x', path, cnt, p))
    decreases p, 1, 0
  {
    var r := Ok(List([]));
    var m, m' := Eval(x, path, cnt, Cont(p.k, r)), Eval(x', path, cnt, Cont(p.k, r));
    EvalEmptyFan(x, path, cnt, p);
    EvalEmptyFan(x', path, cnt, p);
    SomeLater(x', Eval(x, path, cnt, p).entries, m.entries);
    ContExtends(x, x', path, cnt, p, r);
    ThenExtends([], m, m', 1, 1);
  }

  lemma {:induction false} EvalEmptyFan(x: Exec, path: seq<Element>, cnt: Counters, p: Prog)
    requires p.Fan? && p.branches == []
    ensures Eval(x, path, cnt, p) == Then([], 1, Eval(x, path, cnt, Cont(p.k, Ok(List([])))))
  {
  }

  lemma {:induction false} BranchesExtend(x: Exec, x': Exec, path: seq<Element>, p: Prog)
    requires p.Fan? && AnswersLater(x', AllEntries(BranchMeanings(x, path, p.name, p.branches)))
    ensures forall i | 0 <= i < |p.branches| ::
              Extends(BranchMeanings(x, path, p.name, p.branches)[i], BranchMeanings(x', path, p.name, p.branches)[i])
    decreases p, 0, 0
  {
    var bs, name := p.branches, p.name;
    var ms, ns := BranchMeanings(x, path, name, bs), BranchMeanings(x', path, name, bs);
    forall i | 0 <= i < |bs| ensures Extends(ms[i], ns[i]) {
      forall e | e in ms[i].entries ensures e in AllEntries(ms) { InAllEntries(ms, i, e); }
      var m, m' := Eval(x, Branch(path, name, i), map[], bs[i]), Eval(x', Branch(path, name, i), map[], bs[i]);
      assert ms[i] == Then([], 1, m) && ns[i] == Then([], 1, m');
      SomeLater(x', AllEntries(ms), m.entries);
      EvalExtends(x, x', Branch(path, name, i), map[], bs[i]);
      ThenExtends([], m, m', 1, 1);
    }
  }

  /** The branches together: all claims, and the same claims when no branch parked. */
  lemma {:induction false} AllExtend(ms: seq<Meaning>, ns: seq<Meaning>)
    requires |ms| == |ns| && forall i | 0 <= i < |ms| :: Extends(ms[i], ns[i])
    ensures AllLater(AllEntries(ms), AllEntries(ns))
    ensures FirstYield(Outcomes(ms)).None? ==> Outcomes(ns) == Outcomes(ms) && AllEntries(ns) == AllEntries(ms)
  {
    forall e | e in AllEntries(ms) ensures exists f | f in AllEntries(ns) :: Later(e, f) {
      var i := BranchOf(ms, e);
      var f :| f in ns[i].entries && Later(e, f);
      InAllEntries(ns, i, f);
    }
    if FirstYield(Outcomes(ms)).None? {
      FirstYieldByIndex(Outcomes(ms));
      forall i | 0 <= i < |ms| ensures ns[i].outcome == ms[i].outcome && ns[i].entries == ms[i].entries {
        assert !Outcomes(ms)[i].Yielded?;
      }
      SameEntries(ms, ns);
    }
  }

  lemma {:induction false} SameEntries(ms: seq<Meaning>, ns: seq<Meaning>)
    requires |ms| == |ns| && forall i | 0 <= i < |ms| :: ns[i].entries == ms[i].entries
    ensures AllEntries(ns) == AllEntries(ms)
  {
    if ms != [] { SameEntries(ms[1..], ns[1..]); }
  }

  /** A fan-out with branches, by its verdict. */
  lemma {:induction false} SettleParts(
    x: Exec, path: seq<Element>, cnt: Counters, opts: Options, k: imap<Reply, Prog>, ms: seq<Meaning>)
    ensures IsJoined(Then([], 1, Settle(x, path, cnt, opts, k, ms)), x, path, cnt, opts, k, ms)
  {
    var v := Combine(opts.settled, Outcomes(ms));
    assert [] + AllEntries(ms) == AllEntries(ms);
    if v.Proceed? {
      var rest := Eval(x, path, cnt, Cont(k, v.reply)).entries;
      assert [] + (AllEntries(ms) + rest) == AllEntries(ms) + rest;
    }
  }

  ghost predicate IsJoined(
    m: Meaning, x: Exec, path: seq<Element>, cnt: Counters, opts: Options, k: imap<Reply, Prog>, ms: seq<Meaning>)
  {
    var v := Combine(opts.settled, Outcomes(ms));
    && AllEntries(ms) <= m.entries
    && (v.Pause? ==> m.outcome.Yielded? && m.entries == AllEntries(ms))
    && (v.Proceed? ==> m == Then(AllEntries(ms), 2 + AllWork(ms), Eval(x, path, cnt, Cont(k, v.reply))))
  }

  lemma {:induction false} FanParts(x: Exec, path: seq<Element>, cnt: Counters, p: Prog, ms: seq<Meaning>, m: Meaning)
    requires p.Fan? && p.branches != [] && ms == BranchMeanings(x, path, p.name, p.branches)
    requires m == Eval(x, path, cnt, p)
    ensures IsJoined(m, x, path, cnt, p.opts, p.k, ms)
  {
    EvalFan(x, path, cnt, p);
    SettleParts(x, path, cnt, p.opts, p.k, ms);
  }

  lemma {:induction false} FanExtends(x: Exec, x': Exec, path: seq<Element>, cnt: Counters, p: Prog)
    requires p.Fan? && p.branches != [] && AnswersLater(x', Eval(x, path, cnt, p).entries)
    ensures Extends(Eval(x, path, cnt, p), Eval(x', path, cnt, p))
    decreases p, 1, 0
  {
    var ms, ns := BranchMeanings(x, path, p.name, p.branches), BranchMeanings(x', path, p.name, p.branches);
    FanParts(x, path, cnt, p, ms, Eval(x, path, cnt, p));
    FanParts(x', path, cnt, p, ns, Eval(x', path, cnt, p));
    SomeLater(x', Eval(x, path, cnt, p).entries, AllEntries(ms));
    BranchesExtend(x, x', path, p);
    AllExtend(ms, ns);
    if Combine(p.opts.settled, Outcomes(ms)).Pause? {
      PausedExtends(Eval(x, path, cnt, p), AllEntries(ns), Eval(x', path, cnt, p));
    } else {
      JoinExtends(x, x', path, cnt, p, ms, ns);
    }
  }

  lemma {:induction false} JoinExtends(
    x: Exec, x': Exec, path: seq<Element>, cnt: Counters, p: Prog, ms: seq<Meaning>, ns: seq<Meaning>)
    requires p.Fan? && p.branches != [] && AnswersLater(x', Eval(x, path, cnt, p).entries)
    requires ms == BranchMeanings(x, path, p.name, p.branches) && ns == BranchMeanings(x', path, p.name, p.branches)
    requires Combine(p.opts.settled, Outcomes(ms)).Proceed?
    requires Outcomes(ns) == Outcomes(ms) && AllEntries(ns) == AllEntries(ms)
    ensures Extends(Eval(x, path, cnt, p), Eval(x', path, cnt, p))
    decreases p, 0, 1
  {
    var r := Combine(p.opts.settled, Outcomes(ms)).reply;
    var m, m' := Eval(x, path, cnt, Cont(p.k, r)), Eval(x', path, cnt, Cont(p.k, r));
    FanParts(x, path, cnt, p, ms, Eval(x, path, cnt, p));
    FanParts(x', path, cnt, p, ns, Eval(x', path, cnt, p));
    SomeLater(x', Eval(x, path, cnt, p).entries, m.entries);
    ContExtends(x, x', path, cnt, p, r);
    ThenExtends(AllEntries(ms), m, m', 2 + AllWork(ms), 2 + AllWork(ns));
  }

  lemma {:induction false} PausedExtends(m: Meaning, head: seq<Entry>, m': Meaning)
    requires m.outcome.Yielded? && AllLater(m.entries, head) && head <= m'.entries
    ensures Extends(m, m')
  {
    forall e | e in m.entries ensures exists f | f in m'.entries :: Later(e, f) {
      var f :| f in head && Later(e, f);
      assert f in m'.entries;
    }
  }

  lemma {:induction false} ExtendsTransitive(a: Meaning, b: Meaning, c: Meaning)
    requires Extends(a, b) && Extends(b, c)
    ensures Extends(a, c)
  {
    forall e | e in a.entries ensures exists g | g in c.entries :: Later(e, g) {
      var f :| f in b.entries && Later(e, f);
      var g :| g in c.entries && Later(f, g);
      assert Later(e, g);
    }
  }

  // -------------------------------------------- one attempt and its undisturbed run

  /** Attempt `a` starts from x with rows of bodies that the undisturbed run of x executes. */
  ghost predicate Backed(p: Prog, x: Exec, a: Attempt, bodies: map<string, Row>) {
    && NoSkips(p) && UniqueFans({}, p) && IsAttempt(p, a) && a.exec == x.(memo := x.memo + bodies)
    && PersistedFrom(Eval(x, [], map[], p).entries, bodies)
    && Unaliased(x.run, Eval(x, [], map[], p).entries)
  }

  lemma {:induction false} Claimed(x: Exec, p: Prog, ts: seq<Thread>, logs: seq<seq<Entry>>, e: Entry) returns (i: nat)
    requires NoSkips(p) && IsRun(x, [], ts, logs) && ts[0] == Active(map[], p) && e in Flatten(logs)
    ensures i < |Eval(x, [], map[], p).entries| && Eval(x, [], map[], p).entries[i] == e
  {
    var es := Eval(x, [], map[], p).entries;
    ScheduleIndependent(x, p, ts, logs);
    assert e in multiset(Flatten(logs));
    assert e in multiset(es);
    i :| 0 <= i < |es| && es[i] == e;
  }

  /** Any claim of the attempt is a claim of the undisturbed run, read against those rows. */
  lemma {:induction false} LogEntry(p: Prog, x: Exec, a: Attempt, bodies: map<string, Row>, e: Entry)
    returns (f: Entry)
    requires Backed(p, x, a, bodies) && e in Flatten(a.logs)
    ensures f in Eval(x, [], map[], p).entries && e == Replayed(bodies, f)
  {
    var i := Claimed(a.exec, p, a.threads, a.logs, e);
    ReplayIsMemoOverride(x, p, bodies);
    f := Eval(x, [], map[], p).entries[i];
  }

  lemma {:induction false} MoreBodies(
    p: Prog, x: Exec, a: Attempt, bodies: map<string, Row>, body: map<string, Row>)
    requires Backed(p, x, a, bodies) && PersistedFrom(Flatten(a.logs), body)
    ensures PersistedFrom(Eval(x, [], map[], p).entries, bodies + body)
  {
    var es, all := Eval(x, [], map[], p).entries, bodies + body;
    forall id | id in all ensures exists e | e in es :: e.id == id && e.how.Ran? && all[id] == RowOf(e.how.reply) {
      if id in body {
        var e :| e in Flatten(a.logs) && e.id == id && e.how.Ran? && body[id] == RowOf(e.how.reply);
        var f := LogEntry(p, x, a, bodies, e);
        assert e == f;
      }
    }
  }

  lemma {:induction false} LateOfRun(p: Prog, x: Exec, a: Attempt, bodies: map<string, Row>, late: map<string, Row>)
    requires Backed(p, x, a, bodies) && LateFrom(Flatten(a.logs), late)
    ensures LateFrom(Eval(x, [], map[], p).entries, late)
  {
    var es := Eval(x, [], map[], p).entries;
    forall id | id in late ensures exists e | e in es :: e.id == id && LateRow(e, late[id]) {
      var e :| e in Flatten(a.logs) && e.id == id && LateRow(e, late[id]);
      var f := LogEntry(p, x, a, bodies, e);
      EvalAnswers(x, [], map[], p, f);
      assert e == f;
    }
  }

  /** The entries of one run, with what identifies them. */
  ghost predicate Entries(x: Exec, es: seq<Entry>) {
    Distinct(es) && Unaliased(x.run, es) && forall f | f in es :: f == Answered(x, f.claim, f.kind)
  }

  lemma {:induction false} RunEntries(p: Prog, x: Exec, es: seq<Entry>)
    requires UniqueFans({}, p) && es == Eval(x, [], map[], p).entries && Unaliased(x.run, es)
    ensures Entries(x, es)
  {
    ClaimsDistinct(x, [], map[], {}, p);
    forall f | f in es ensures f == Answered(x, f.claim, f.kind) { EvalAnswers(x, [], map[], p, f); }
  }

  lemma {:induction false} OneKind(x: Exec, es: seq<Entry>, e: Entry, f: Entry)
    requires Entries(x, es) && e in es && f in es && e.id == f.id && e.how.Ran?
    ensures f.kind == Run
  {
    SameIdSameClaim(x, es, e, f);
    RanIff(x, e);
  }

  /** No step with a body shares its id with one without. */
  lemma {:induction false} RowsApart(x: Exec, es: seq<Entry>, body: map<string, Row>, late: map<string, Row>)
    requires Entries(x, es) && PersistedFrom(es, body) && LateFrom(es, late)
    ensures body.Keys !! late.Keys
  {
    forall id | id in body.Keys ensures id !in late.Keys {
      var e :| e in es && e.id == id && e.how.Ran? && body[id] == RowOf(e.how.reply);
      NotLate(x, es, late, e);
    }
  }

  lemma {:induction false} NotLate(x: Exec, es: seq<Entry>, late: map<string, Row>, e: Entry)
    requires Entries(x, es) && LateFrom(es, late) && e in es && e.how.Ran?
    ensures e.id !in late
  {
    if e.id in late {
      var f :| f in es && f.id == e.id && LateRow(f, late[e.id]);
      OneKind(x, es, e, f);
    }
  }

  lemma {:induction false} LateId(x: Exec, es: seq<Entry>, late: map<string, Row>, e: Entry)
    requires Entries(x, es) && LateFrom(es, late) && e in es
    ensures Resolve(x.run, (x.memo + late).Keys, e.claim) == e.id
  {
    var used := set f | f in es :: f.claim;
    assert (x.memo + late).Keys == x.memo.Keys + late.Keys;
    assert forall f | f in es :: f.id == Resolve(x.run, x.memo.Keys, f.claim);
    forall id | id in late.Keys ensures exists d | d in used :: id == Resolve(x.run, x.memo.Keys, d) {
      var f :| f in es && f.id == id && LateRow(f, late[id]);
      assert f.claim in used;
    }
    ResolveStable(x.run, x.memo.Keys, late.Keys, used, e.claim);
  }

  /** With its id unchanged, a claim is answered as before, or was parked. */
  lemma {:induction false} LateAnswerAs(x: Exec, x': Exec, late: map<string, Row>, e: Entry)
    requires e == AnsweredAs(x, e.claim, e.kind, e.id)
    requires x' == x.(memo := x.memo + late, resume := x'.resume)
    requires e.id in late ==> LateRow(e, late[e.id])
    requires !e.kind.Run? ==>
               x'.resume == x.resume || (x.resume.Some? && x.resume.value.stepId == e.id ==>
                                         StandsFor(x'.memo, x.resume.value))
    ensures Later(e, AnsweredAs(x', e.claim, e.kind, e.id))
  {
  }

  /** Once more steps have replied, every claim is answered as before, or was parked. */
  lemma {:induction false} LateAnswers(x: Exec, x': Exec, es: seq<Entry>, late: map<string, Row>)
    requires Entries(x, es) && LateFrom(es, late) && x' == x.(memo := x.memo + late, resume := x'.resume)
    requires forall e | e in es && !e.kind.Run? ::
               x'.resume == x.resume || (x.resume.Some? && x.resume.value.stepId == e.id ==>
                                         StandsFor(x'.memo, x.resume.value))
    ensures AnswersLater(x', es)
  {
    forall e | e in es ensures Later(e, Answered(x', e.claim, e.kind)) {
      LateId(x, es, late, e);
      if e.id in late {
        var f :| f in es && f.id == e.id && LateRow(f, late[e.id]);
        SameIdSameClaim(x, es, e, f);
      }
      LateAnswerAs(x, x', late, e);
    }
  }

  /** The row of a step without a body is not among the rows of bodies. */
  lemma {:induction false} NotBody(x: Exec, es: seq<Entry>, body: map<string, Row>, e: Entry)
    requires Entries(x, es) && PersistedFrom(es, body) && e in es && !e.kind.Run?
    ensures e.id !in body
  {
    if e.id in body {
      var f :| f in es && f.id == e.id && f.how.Ran? && body[e.id] == RowOf(f.how.reply);
      OneKind(x, es, f, e);
    }
  }

  lemma {:induction false} TableSplit(
    memo: map<string, Row>, bodies: map<string, Row>, body: map<string, Row>, late: map<string, Row>)
    requires (bodies + body).Keys !! late.Keys
    ensures memo + bodies + body + late == memo + late + (bodies + body)
  {
  }

  /** The undisturbed run executes those bodies too once more steps have replied. */
  lemma {:induction false} BodiesStay(m: Meaning, m': Meaning, body: map<string, Row>)
    requires Extends(m, m') && PersistedFrom(m.entries, body)
    ensures PersistedFrom(m'.entries, body)
  {
    forall id | id in body
      ensures exists e | e in m'.entries :: e.id == id && e.how.Ran? && body[id] == RowOf(e.how.reply)
    {
      var e :| e in m.entries && e.id == id && e.how.Ran? && body[id] == RowOf(e.how.reply);
      var f :| f in m'.entries && Later(e, f);
      assert f == e;
    }
  }

  /** A resume context that is not given again is found in the table of the undisturbed run. */
  lemma {:induction false} ResumeStands(
    x: Exec, x': Exec, next: Exec, es: seq<Entry>, body: map<string, Row>, e: Entry)
    requires Entries(x, es) && PersistedFrom(es, body) && e in es && !e.kind.Run?
    requires next.memo == x'.memo + body && x.resume.Some? && x.resume.value.stepId == e.id
    requires StandsFor(next.memo, x.resume.value)
    ensures StandsFor(x'.memo, x.resume.value)
  {
    NotBody(x, es, body, e);
  }

  /** From one attempt to the next: the undisturbed run goes on where it parked, and the next attempt
      starts from it with rows of bodies that it executes. */
  lemma {:induction false} StepForward(
    p: Prog, x: Exec, a: Attempt, bodies: map<string, Row>, s: Saved, next: Attempt, x': Exec)
    requires Backed(p, x, a, bodies) && Follows(a, s, next)
    requires x' == x.(memo := x.memo + s.late, resume := next.exec.resume)
    ensures Extends(Eval(x, [], map[], p), Eval(x', [], map[], p))
    ensures next.exec == x'.(memo := x'.memo + (bodies + s.body))
    ensures PersistedFrom(Eval(x', [], map[], p).entries, bodies + s.body)
  {
    var es, all := Eval(x, [], map[], p).entries, bodies + s.body;
    MoreBodies(p, x, a, bodies, s.body);
    LateOfRun(p, x, a, bodies, s.late);
    RunEntries(p, x, es);
    RowsApart(x, es, all, s.late);
    TableSplit(x.memo, bodies, s.body, s.late);
    assert next.exec.memo == x'.memo + all;
    forall e | e in es && !e.kind.Run?
      ensures x'.resume == x.resume || (x.resume.Some? && x.resume.value.stepId == e.id ==>
                                        StandsFor(x'.memo, x.resume.value))
    {
      if x'.resume != x.resume && x.resume.Some? && x.resume.value.stepId == e.id {
        ResumeStands(x, x', next.exec, es, all, e);
      }
    }
    LateAnswers(x, x', es, s.late);
    EvalExtends(x, x', [], map[], p);
    BodiesStay(Eval(x, [], map[], p), Eval(x', [], map[], p), all);
  }

  // ------------------------------------------------------------- whole histories

  lemma {:induction false} NextReference(h: seq<Attempt>, saved: seq<Saved>, j: nat)
    requires j < |saved| && |h| == |saved| + 1
    ensures Bodies(saved[..j + 1]) == Bodies(saved[..j]) + saved[j].body
    ensures var x := Reference(h, saved, j);
            Reference(h, saved, j + 1) == x.(memo := x.memo + saved[j].late, resume := h[j + 1].exec.resume)
  {
    assert saved[..j + 1][..j] == saved[..j];
    var memo, lates, late := h[0].exec.memo, Lates(saved[..j]), saved[j].late;
    assert memo + (lates + late) == memo + lates + late;
  }

  lemma {:induction false} FirstReference(h: seq<Attempt>, saved: seq<Saved>)
    requires |h| == |saved| + 1
    ensures Bodies(saved[..0]) == map[] && Reference(h, saved, 0) == h[0].exec
  {
    assert h[0].exec.memo + map[] == h[0].exec.memo;
  }

  lemma {:induction false} FirstBacked(p: Prog, h: seq<Attempt>, saved: seq<Saved>)
    requires Replays(p, h, saved)
    ensures Backed(p, Reference(h, saved, 0), h[0], Bodies(saved[..0]))
  {
    FirstReference(h, saved);
    var x := h[0].exec;
    assert x == x.(memo := x.memo + map[]) by { assert x.memo + map[] == x.memo; }
    assert Unaliased(x.run, Undisturbed(p, h, saved, 0).entries);
  }

  lemma {:induction false} NextBacked(p: Prog, h: seq<Attempt>, saved: seq<Saved>, k: nat, x: Exec, x': Exec)
    requires Replays(p, h, saved) && k < |saved| && x == Reference(h, saved, k) && x' == Reference(h, saved, k + 1)
    requires Backed(p, x, h[k], Bodies(saved[..k]))
    ensures Backed(p, x', h[k + 1], Bodies(saved[..k + 1]))
    ensures Extends(Eval(x, [], map[], p), Eval(x', [], map[], p))
  {
    NextReference(h, saved, k);
    assert Follows(h[k], saved[k], h[k + 1]);
    StepForward(p, x, h[k], Bodies(saved[..k]), saved[k], h[k + 1], x');
    assert Unaliased(x.run, Undisturbed(p, h, saved, k + 1).entries);
  }

  lemma {:induction false} HistoryBacked(p: Prog, h: seq<Attempt>, saved: seq<Saved>, j: nat)
    requires Replays(p, h, saved) && j < |h|
    ensures Backed(p, Reference(h, saved, j), h[j], Bodies(saved[..j]))
  {
    if j == 0 {
      FirstBacked(p, h, saved);
    } else {
      HistoryBacked(p, h, saved, j - 1);
      NextBacked(p, h, saved, j - 1, Reference(h, saved, j - 1), Reference(h, saved, j));
    }
  }

  lemma {:induction false} NextExtends(p: Prog, h: seq<Attempt>, saved: seq<Saved>, k: nat)
    requires Replays(p, h, saved) && k < |saved|
    ensures Extends(Undisturbed(p, h, saved, k), Undisturbed(p, h, saved, k + 1))
  {
    HistoryBacked(p, h, saved, k);
    NextBacked(p, h, saved, k, Reference(h, saved, k), Reference(h, saved, k + 1));
  }

  /** The claim as the undisturbed run makes it, except that its body may have run before. */
  predicate SameClaim(e: Entry, f: Entry) {
    e == f || (f.how.Ran? && f.how.reply.Ok? && e == f.(how := Memoized(f.how.reply)))
  }

  /** Over any history of interleaved attempts that crash anywhere, persist any part of what they
      executed, park at sleeps, waits and invokes and are resumed or given results, every attempt
      makes only the claims of the undisturbed run from the first table whose parked steps reply the
      values known so far, under the same ids and with the same replies; and every attempt that
      finishes made all of them and ended with that run's outcome. */
  lemma {:induction false} HistoryReplaysUndisturbed(p: Prog, h: seq<Attempt>, saved: seq<Saved>, j: nat)
    requires Replays(p, h, saved) && j < |h|
    ensures forall e | e in Flatten(h[j].logs) ::
              exists f | f in Undisturbed(p, h, saved, j).entries :: SameClaim(e, f)
    ensures var last := h[j].threads[|h[j].logs|];
            last.Done? ==>
              && last.outcome == Undisturbed(p, h, saved, j).outcome
              && forall f | f in Undisturbed(p, h, saved, j).entries ::
                   exists e | e in Flatten(h[j].logs) :: SameClaim(e, f)
  {
    var x, a, bodies := Reference(h, saved, j), h[j], Bodies(saved[..j]);
    HistoryBacked(p, h, saved, j);
    forall e | e in Flatten(a.logs) ensures exists f | f in Undisturbed(p, h, saved, j).entries :: SameClaim(e, f) {
      var f := LogEntry(p, x, a, bodies, e);
      assert SameClaim(e, f);
    }
    if a.threads[|a.logs|].Done? { FinishedAll(p, x, a, bodies); }
  }

  lemma {:induction false} FinishedAll(p: Prog, x: Exec, a: Attempt, bodies: map<string, Row>)
    requires Backed(p, x, a, bodies) && a.threads[|a.logs|].Done?
    ensures a.threads[|a.logs|].outcome == Eval(x, [], map[], p).outcome
    ensures forall f | f in Eval(x, [], map[], p).entries :: exists e | e in Flatten(a.logs) :: SameClaim(e, f)
  {
    var m, m' := Eval(x, [], map[], p), Eval(a.exec, [], map[], p);
    ScheduleIndependent(a.exec, p, a.threads, a.logs);
    ReplayIsMemoOverride(x, p, bodies);
    forall f | f in m.entries ensures exists e | e in Flatten(a.logs) :: SameClaim(e, f) {
      var i :| 0 <= i < |m.entries| && m.entries[i] == f;
      var e := m'.entries[i];
      assert e in multiset(m'.entries);
      assert e in multiset(Flatten(a.logs));
      assert SameClaim(e, f);
    }
  }

  /** The undisturbed runs of a history are one run that gets further: each goes on where an earlier
      one parked, with every claim, id and reply before that unchanged, and equals it if it did not. */
  lemma {:induction false} UndisturbedRunsExtend(p: Prog, h: seq<Attempt>, saved: seq<Saved>, i: nat, j: nat)
    requires Replays(p, h, saved) && i <= j < |h|
    ensures Extends(Undisturbed(p, h, saved, i), Undisturbed(p, h, saved, j))
    decreases j
  {
    if i == j {
      assert forall e | e in Undisturbed(p, h, saved, i).entries :: Later(e, e);
    } else {
      var k := j - 1;
      UndisturbedRunsExtend(p, h, saved, i, k);
      NextExtends(p, h, saved, k);
      ExtendsTransitive(Undisturbed(p, h, saved, i), Undisturbed(p, h, saved, k), Undisturbed(p, h, saved, j));
    }
  }

  /** So any two attempts agree: a claim they both make has one id and, unless it was parked in the
      earlier one, one reply. */
  lemma {:induction false} AttemptsAgree(
    p: Prog, h: seq<Attempt>, saved: seq<Saved>, i: nat, j: nat, e: Entry, f: Entry)
    requires Replays(p, h, saved) && i <= j < |h|
    requires e in Flatten(h[i].logs) && f in Flatten(h[j].logs) && e.claim == f.claim
    ensures f.id == e.id && f.kind == e.kind
    ensures !e.how.Parked? ==> !f.how.Parked? && f.how.reply == e.how.reply
  {
    var e0 := UndisturbedEntry(p, h, saved, i, e);
    var f0 := UndisturbedEntry(p, h, saved, j, f);
    UndisturbedRunsExtend(p, h, saved, i, j);
    ClaimsDistinct(Reference(h, saved, j), [], map[], {}, p);
    SameReply(Undisturbed(p, h, saved, i).entries, Undisturbed(p, h, saved, j).entries, e0, f0);
  }

  lemma {:induction false} UndisturbedEntry(p: Prog, h: seq<Attempt>, saved: seq<Saved>, j: nat, e: Entry)
    returns (f: Entry)
    requires Replays(p, h, saved) && j < |h| && e in Flatten(h[j].logs)
    ensures f in Undisturbed(p, h, saved, j).entries && SameClaim(e, f)
  {
    HistoryBacked(p, h, saved, j);
    f := LogEntry(p, Reference(h, saved, j), h[j], Bodies(saved[..j]), e);
  }

  lemma {:induction false} SameReply(es: seq<Entry>, fs: seq<Entry>, e: Entry, f: Entry)
    requires AllLater(es, fs) && Distinct(fs) && e in es && f in fs && e.claim == f.claim
    ensures Later(e, f)
  {
    var g :| g in fs && Later(e, g);
    assert g == f;
  }

  /** An attempt that ended without parking decided the run: every later attempt that finishes ends
      the same way. */
  lemma {:induction false} OutcomeStays(p: Prog, h: seq<Attempt>, saved: seq<Saved>, i: nat, j: nat)
    requires Replays(p, h, saved) && i <= j < |h|
    requires h[i].threads[|h[i].logs|].Done? && h[j].threads[|h[j].logs|].Done?
    requires !h[i].threads[|h[i].logs|].outcome.Yielded?
    ensures h[j].threads[|h[j].logs|].outcome == h[i].threads[|h[i].logs|].outcome
  {
    HistoryReplaysUndisturbed(p, h, saved, i);
    HistoryReplaysUndisturbed(p, h, saved, j);
    UndisturbedRunsExtend(p, h, saved, i, j);
  }

  lemma {:induction false} SameTableAnswer(x: Exec, bodies: map<string, Row>, kind: Kind, id: string)
    requires id !in bodies
    ensures Answer(x.(memo := x.memo + bodies), kind, id) == Answer(x, kind, id)
  {
  }

  lemma {:induction false} ParkedHasNoBody(p: Prog, x: Exec, e: Entry)
    requires e in Eval(x, [], map[], p).entries && e.how.Parked?
    ensures !e.kind.Run?
  {
    EvalAnswers(x, [], map[], p, e);
  }

  lemma {:induction false} AnsweredNow(p: Prog, x: Exec, a: Attempt, bodies: map<string, Row>, f: Entry, r: Reply)
    requires Backed(p, x, a, bodies) && f in Eval(x, [], map[], p).entries && !f.kind.Run?
    requires Answer(a.exec, f.kind, f.id) == Some(r)
    ensures f.how == Memoized(r)
  {
    RunEntries(p, x, Eval(x, [], map[], p).entries);
    NotBody(x, Eval(x, [], map[], p).entries, bodies, f);
    SameTableAnswer(x, bodies, f.kind, f.id);
    assert f == Answered(x, f.claim, f.kind);
  }

  /** A parked step passes: once the next attempt's table or resume context holds a reply for it, the
      undisturbed run makes the claim under the same id and gets that reply. */
  lemma {:induction false} ParkedStepReplies(
    p: Prog, h: seq<Attempt>, saved: seq<Saved>, j: nat, e: Entry, r: Reply)
    requires Replays(p, h, saved) && j + 1 < |h| && e in Flatten(h[j].logs) && e.how.Parked?
    requires Tells(h[j + 1].exec, e.kind, e.id, r)
    ensures e.(how := Memoized(r)) in Undisturbed(p, h, saved, j + 1).entries
  {
    var k := j + 1;
    TellsAnswer(h[k].exec, e.kind, e.id, r);
    var f := ParkedLater(p, h, saved, j, e);
    HistoryBacked(p, h, saved, k);
    AnsweredNow(p, Reference(h, saved, k), h[k], Bodies(saved[..k]), f, r);
    assert f == e.(how := Memoized(r));
  }

  lemma {:induction false} ParkedLater(p: Prog, h: seq<Attempt>, saved: seq<Saved>, j: nat, e: Entry) returns (f: Entry)
    requires Replays(p, h, saved) && j + 1 < |h| && e in Flatten(h[j].logs) && e.how.Parked?
    ensures f in Undisturbed(p, h, saved, j + 1).entries && Later(e, f) && !e.kind.Run?
  {
    var e0 := UndisturbedEntry(p, h, saved, j, e);
    ParkedHasNoBody(p, Reference(h, saved, j), e0);
    NextExtends(p, h, saved, j);
    f :| f in Undisturbed(p, h, saved, j + 1).entries && Later(e0, f);
  }

  /** And ever after: every later claim of the step, in any attempt, gets exactly that reply under that
      id, failures and timeouts of an invoke included. */
  lemma {:induction false} StoredReplyStays(
    p: Prog, h: seq<Attempt>, saved: seq<Saved>, i: nat, j: nat, e: Entry, later: Entry, r: Reply)
    requires Replays(p, h, saved) && i < j < |h| && e in Flatten(h[i].logs) && e.how.Parked?
    requires Tells(h[i + 1].exec, e.kind, e.id, r)
    requires later in Flatten(h[j].logs) && later.claim == e.claim
    ensures later == e.(how := Memoized(r))
  {
    var now := e.(how := Memoized(r));
    ParkedStepReplies(p, h, saved, i, e, r);
    UndisturbedRunsExtend(p, h, saved, i + 1, j);
    var f := UndisturbedEntry(p, h, saved, j, later);
    ClaimsDistinct(Reference(h, saved, j), [], map[], {}, p);
    SameReply(Undisturbed(p, h, saved, i + 1).entries, Undisturbed(p, h, saved, j).entries, now, f);
  }

  // ------------------------------------------------------ a history that passes a sleep

  const NAP := Claim([], "nap", 0)

  /** A handler that sleeps once and returns. */
  ghost function Napper(): Prog {
    Step(Sleep, "nap", Always(Return(Null)))
  }

  /** It claims one step, which parks it or is answered. */
  lemma {:induction false} NapMeaning(x: Exec)
    ensures Eval(x, [], map[], Napper()).entries == [Answered(x, NAP, Sleep)]
  {
    EvalStepNode(x, [], map[], Napper());
    assert AnyReply(Ok(Null)) && Cont(Always(Return(Null)), Ok(Null)) == Return(Null);
  }

  /** An attempt that parks at the sleep. */
  ghost function Parking(x: Exec): Attempt {
    var e := Answered(x, NAP, Sleep);
    Attempt(x, [Active(map[], Napper()), Done(Yielded(e.id))], [[e]])
  }

  /** An attempt that passes it. */
  ghost function Passing(x: Exec): Attempt {
    Attempt(x, [Active(map[], Napper()), Active(map["nap" := 1], Return(Null)), Done(Returned(Null))],
            [[Answered(x, NAP, Sleep)], []])
  }

  lemma {:induction false} ParkingIsAttempt(x: Exec)
    requires Answered(x, NAP, Sleep).how.Parked?
    ensures IsAttempt(Napper(), Parking(x))
  {
    AdvanceStepNode(x, [], map[], Napper(), Answered(x, NAP, Sleep));
  }

  lemma {:induction false} PassingIsAttempt(x: Exec)
    requires Answered(x, NAP, Sleep).how == Memoized(Ok(Null))
    ensures IsAttempt(Napper(), Passing(x))
  {
    var a := Passing(x);
    AdvanceStepNode(x, [], map[], Napper(), Answered(x, NAP, Sleep));
    assert AnyReply(Ok(Null)) && Cont(Always(Return(Null)), Ok(Null)) == Return(Null);
    assert map[]["nap" := 1] == map["nap" := 1];
    assert StepTo(x, [], a.threads[0], a.logs[0], a.threads[1]);
    assert StepTo(x, [], a.threads[1], a.logs[1], a.threads[2]);
  }

  /** The row the server stores when the sleep is over. */
  function Woken(run: string): Saved {
    Saved(map[], map[Id(run, NAP) := Row(Completed, Null, "")])
  }

  /** The results are about histories that pass parked steps: the first attempt parks at a sleep, the
      server stores its row, and the second attempt returns. */
  lemma {:induction false} SleepIsPassed(run: string, world: Claim -> Reply) returns (h: seq<Attempt>)
    ensures Replays(Napper(), h, [Woken(run)])
    ensures h[0].threads[|h[0].logs|] == Done(Yielded(Id(run, NAP)))
    ensures h[1].threads[|h[1].logs|] == Done(Returned(Null))
  {
    var x := Exec(run, map[], None, world);
    var x' := x.(memo := Woken(run).late);
    ParkingIsAttempt(x);
    PassingIsAttempt(x');
    h := [Parking(x), Passing(x')];
    WokenFollows(x, x', h);
    NapServed(h, [Woken(run)]);
  }

  lemma {:induction false} WokenFollows(x: Exec, x': Exec, h: seq<Attempt>)
    requires x.memo == map[] && x.resume == None && x' == x.(memo := Woken(x.run).late)
    requires h == [Parking(x), Passing(x')]
    ensures Follows(h[0], Woken(x.run), h[1])
  {
    var e, s := Answered(x, NAP, Sleep), Woken(x.run);
    assert h[0].logs[1..] == [] && Flatten(h[0].logs) == [e];
    assert e in Flatten(h[0].logs) && e.id == Id(x.run, NAP) && LateRow(e, s.late[e.id]);
    assert x.memo + s.body + s.late == s.late;
  }

  lemma {:induction false} NapServed(h: seq<Attempt>, saved: seq<Saved>)
    requires IsServed(Napper(), h, saved)
    ensures Replays(Napper(), h, saved)
  {
    forall j | 0 <= j < |h| ensures Unaliased(h[0].exec.run, Undisturbed(Napper(), h, saved, j).entries) {
      NapMeaning(Reference(h, saved, j));
    }
  }
}
