/** Durable step execution (ironflow/step.go, ironflow/parallel.go, ironflow/job_executor.go).

    A handler is a program tree: its next action depends only on the replies it has seen.
    `Eval` is the sequential meaning of a handler against a memo table; `StepTo` is one
    atomic action of one goroutine, so its runs are all interleavings of nested fan-outs. */
module Durable {
  import opened StepIds
  import opened Optional

  // ------------------------------------------------------------------ data

  datatype Value = Null | Data(n: int) | List(items: seq<Value>)

  datatype Reply = Ok(value: Value) | Failed(error: string)

  datatype Kind = Run | Sleep | Wait(optional: bool) | Invoke | InvokeAsync

  datatype Status = Completed | RowFailed | TimedOut | Pending

  /** A row of the memo table: exec.completedSteps. */
  datatype Row = Row(status: Status, output: Value, error: string)

  datatype Resume = Resume(stepId: string, kind: string, data: Value)

  /** ParallelOptions: `limit` 0 means no concurrency limit, `settled` is "allSettled". */
  datatype Options = Options(limit: nat, settled: bool)

  /** A handler.  A reply that `k` does not map makes the handler return UNHANDLED. */
  datatype Prog =
    | Return(value: Value)
    | Fail(error: string)
    | Step(kind: Kind, name: string, k: imap<Reply, Prog>)
    | Fan(name: string, branches: seq<Prog>, opts: Options, k: imap<Reply, Prog>)

  const UNHANDLED := "unhandled reply"

  ghost function Cont(k: imap<Reply, Prog>, r: Reply): Prog {
    if r in k then k[r] else Fail(UNHANDLED)
  }

  /** One invocation: run id, memo table, resume context, and what each step body replies
      if it is executed (a step timeout is a Failed reply). */
  datatype Exec = Exec(run: string, memo: map<string, Row>, resume: Option<Resume>, world: Claim -> Reply)

  datatype How = Memoized(reply: Reply) | Ran(reply: Reply) | Parked

  /** A claimed step: how it was answered. */
  datatype Entry = Entry(claim: Claim, kind: Kind, id: string, how: How)

  datatype Outcome = Returned(value: Value) | Errored(error: string) | Yielded(id: string)

  // ------------------------------------------------------ one step primitive

  predicate ResumesFrom(x: Exec, id: string, kind: string) {
    x.resume.Some? && x.resume.value.stepId == id && x.resume.value.kind == kind
  }

  /** waitForEventImpl's decode: a null result is an error unless the wait is optional. */
  function DecodeWait(data: Value, optional: bool): Reply {
    if data == Null && !optional then Failed("wait result is null") else Ok(data)
  }

  /** The reply the memo table or the resume context already holds for an id. */
  function Answer(x: Exec, kind: Kind, id: string): Option<Reply> {
    var status := if id in x.memo then x.memo[id].status else Pending;
    match kind
    case Run =>
      if status == Completed then Some(Ok(x.memo[id].output)) else None
    case Sleep =>
      if ResumesFrom(x, id, "sleep") || status == Completed then Some(Ok(Null)) else None
    case Wait(optional) =>
      if status == Completed then Some(DecodeWait(x.memo[id].output, optional))
      else if ResumesFrom(x, id, "wait_for_event") && x.resume.value.data != Null
      then Some(DecodeWait(x.resume.value.data, optional))
      else None
    case Invoke =>
      if status == Completed then Some(Ok(x.memo[id].output))
      else if status == RowFailed then Some(Failed(x.memo[id].error))
      else if status == TimedOut then Some(Failed("invoke timed out"))
      else None
    case InvokeAsync =>
      if status == Completed then Some(Ok(x.memo[id].output))
      else if status == RowFailed then Some(Failed(x.memo[id].error))
      else None
  }

  type Counters = map<string, nat>

  function Count(cnt: Counters, name: string): nat {
    if name in cnt then cnt[name] else 0
  }

  /** Claim a step: take the id, then answer it from the table, run its body, or yield. */
  function ClaimStep(x: Exec, path: seq<Element>, cnt: Counters, kind: Kind, name: string): Entry {
    Answered(x, Claim(path, name, Count(cnt, name)), kind)
  }

  function Answered(x: Exec, c: Claim, kind: Kind): Entry {
    AnsweredAs(x, c, kind, Resolve(x.run, x.memo.Keys, c))
  }

  function AnsweredAs(x: Exec, c: Claim, kind: Kind, id: string): Entry {
    var known := Answer(x, kind, id);
    Entry(c, kind, id,
          if known.Some? then Memoized(known.value) else if kind == Run then Ran(x.world(c)) else Parked)
  }

  // ------------------------------------------------------------ fan-out verdict

  datatype Verdict = Pause(id: string) | Proceed(reply: Reply)

  function FirstYield(os: seq<Outcome>): Option<string> {
    if os == [] then None else if os[0].Yielded? then Some(os[0].id) else FirstYield(os[1..])
  }

  function FirstError(os: seq<Outcome>): Option<string> {
    if os == [] then None else if os[0].Errored? then Some(os[0].error) else FirstError(os[1..])
  }

  /** What Parallel returns once every branch has ended: the lowest-index yield, else (unless
      allSettled) the lowest-index error, else the results in order. */
  function Combine(settled: bool, os: seq<Outcome>): Verdict {
    if FirstYield(os).Some? then Pause(FirstYield(os).value)
    else if !settled && FirstError(os).Some? then Proceed(Failed(FirstError(os).value))
    else Proceed(Ok(List(seq(|os|, i requires 0 <= i < |os| => if os[i].Returned? then os[i].value else Null))))
  }

  /** The verdict by branch index, without recursion: a yield when some branch yielded, and then
      the one no lower branch precedes; otherwise, unless allSettled, an error in the same way;
      otherwise every result in its branch's place. */
  lemma {:induction false} VerdictByIndex(settled: bool, os: seq<Outcome>)
    ensures FirstYield(os).Some? <==> exists i | 0 <= i < |os| :: os[i].Yielded?
    ensures FirstError(os).Some? <==> exists i | 0 <= i < |os| :: os[i].Errored?
    ensures forall i | 0 <= i < |os| && os[i].Yielded? && (forall j | 0 <= j < i :: !os[j].Yielded?) ::
              Combine(settled, os) == Pause(os[i].id)
    ensures forall i | 0 <= i < |os| && os[i].Errored? && (forall j | 0 <= j < i :: !os[j].Errored?) ::
              !settled && FirstYield(os).None? ==> Combine(settled, os) == Proceed(Failed(os[i].error))
    ensures FirstYield(os).None? && (settled || FirstError(os).None?) ==>
              exists vs :: Combine(settled, os) == Proceed(Ok(List(vs))) && |vs| == |os| &&
                forall i | 0 <= i < |os| :: vs[i] == if os[i].Returned? then os[i].value else Null
  {
    FirstYieldByIndex(os);
    FirstErrorByIndex(os);
  }

  lemma {:induction false} FirstYieldByIndex(os: seq<Outcome>)
    ensures FirstYield(os).None? <==> forall i | 0 <= i < |os| :: !os[i].Yielded?
    ensures forall i | 0 <= i < |os| && os[i].Yielded? && (forall j | 0 <= j < i :: !os[j].Yielded?) ::
              FirstYield(os) == Some(os[i].id)
  {
    if os != [] { FirstYieldByIndex(os[1..]); }
  }

  lemma {:induction false} FirstErrorByIndex(os: seq<Outcome>)
    ensures FirstError(os).None? <==> forall i | 0 <= i < |os| :: !os[i].Errored?
    ensures forall i | 0 <= i < |os| && os[i].Errored? && (forall j | 0 <= j < i :: !os[j].Errored?) ::
              FirstError(os) == Some(os[i].error)
  {
    if os != [] { FirstErrorByIndex(os[1..]); }
  }

  /** What the arrays that the branches filled say about each branch. */
  function Filled(signals: seq<Option<string>>, errors: seq<Option<string>>, results: seq<Value>): seq<Outcome>
    requires |signals| == |errors| == |results|
  {
    seq(|results|, i requires 0 <= i < |results| =>
      if signals[i].Some? then Yielded(signals[i].value)
      else if errors[i].Some? then Errored(errors[i].value)
      else Returned(results[i]))
  }

  /** The end of Parallel, after wg.Wait: scan the yield signals, then the errors. */
  method JoinBranches(
    settled: bool, yieldSigs: array<Option<string>>, errors: array<Option<string>>, results: array<Value>)
    returns (v: Verdict)
    requires yieldSigs.Length == errors.Length == results.Length
    requires forall i | 0 <= i < errors.Length :: yieldSigs[i].Some? ==> errors[i].None?
    requires forall i | 0 <= i < errors.Length :: yieldSigs[i].Some? || errors[i].Some? ==> results[i] == Null
    ensures v == Combine(settled, Filled(yieldSigs[..], errors[..], results[..]))
  {
    ghost var os := Filled(yieldSigs[..], errors[..], results[..]);
    FirstYieldByIndex(os);
    FirstErrorByIndex(os);
    for i := 0 to yieldSigs.Length
      invariant forall j | 0 <= j < i :: !os[j].Yielded?
    {
      if yieldSigs[i].Some? {
        assert os[i] == Yielded(yieldSigs[i].value);
        return Pause(yieldSigs[i].value);
      }
    }
    if !settled {
      for i := 0 to errors.Length
        invariant forall j | 0 <= j < i :: !os[j].Errored?
      {
        if errors[i].Some? {
          assert os[i] == Errored(errors[i].value);
          return Proceed(Failed(errors[i].value));
        }
      }
    }
    v := Proceed(Ok(List(results[..])));
    assert results[..] == seq(|os|, i requires 0 <= i < |os| => if os[i].Returned? then os[i].value else Null);
  }

  // ------------------------------------------------------- sequential meaning

  /** What a computation will do: its outcome, its claims, and how many atomic actions it takes. */
  datatype Meaning = Meaning(outcome: Outcome, entries: seq<Entry>, work: nat)

  function Then(entries: seq<Entry>, work: nat, m: Meaning): Meaning {
    Meaning(m.outcome, entries + m.entries, work + m.work)
  }

  function Outcomes(ms: seq<Meaning>): seq<Outcome> {
    seq(|ms|, i requires 0 <= i < |ms| => ms[i].outcome)
  }

  function AllEntries(ms: seq<Meaning>): seq<Entry> {
    if ms == [] then [] else ms[0].entries + AllEntries(ms[1..])
  }

  function AllWork(ms: seq<Meaning>): nat {
    if ms == [] then 0 else ms[0].work + AllWork(ms[1..])
  }

  function Branch(path: seq<Element>, name: string, i: nat): seq<Element> {
    path + [Element(name, i)]
  }

  ghost function Eval(x: Exec, path: seq<Element>, cnt: Counters, p: Prog): Meaning
    decreases p
  {
    match p
    case Return(v) => Meaning(Returned(v), [], 1)
    case Fail(e) => Meaning(Errored(e), [], 1)
    case Step(kind, name, k) =>
      var e := ClaimStep(x, path, cnt, kind, name);
      if e.how.Parked? then Meaning(Yielded(e.id), [e], 1)
      else
        var r := e.how.reply;
        Then([e], 1,
             if r in k then Eval(x, path, cnt[name := Count(cnt, name) + 1], k[r])
             else Meaning(Errored(UNHANDLED), [], 1))
    case Fan(name, bs, opts, k) =>
      if bs == [] then
        var r := Ok(List([]));
        Then([], 1, if r in k then Eval(x, path, cnt, k[r]) else Meaning(Errored(UNHANDLED), [], 1))
      else
        var ms := seq(|bs|, i requires 0 <= i < |bs| => Then([], 1, Eval(x, Branch(path, name, i), map[], bs[i])));
        match Combine(opts.settled, Outcomes(ms))
        case Pause(id) => Meaning(Yielded(id), AllEntries(ms), 2 + AllWork(ms))
        case Proceed(r) =>
          Then(AllEntries(ms), 2 + AllWork(ms),
               if r in k then Eval(x, path, cnt, k[r]) else Meaning(Errored(UNHANDLED), [], 1))
  }

  // ----------------------------------------------------- interleaved execution

  /** A goroutine and the branches it waits for. */
  datatype Thread =
    | Active(cnt: Counters, prog: Prog)
    | Forked(cnt: Counters, name: string, opts: Options, k: imap<Reply, Prog>, children: seq<Thread>)
    | Queued(prog: Prog)   // not yet past the semaphore
    | Skipped              // cancelled while queued
    | Done(outcome: Outcome)

  predicate Ended(t: Thread) {
    t.Done? || t.Skipped?
  }

  function Result(t: Thread): Outcome
    requires Ended(t)
  {
    if t.Done? then t.outcome else Returned(Null)
  }

  function Running(cs: seq<Thread>): nat {
    if cs == [] then 0
    else (if cs[0].Active? || cs[0].Forked? then 1 else 0) + Running(cs[1..])
  }

  /** The shared `cancelled` flag, as a function of the branches that have ended. */
  predicate Cancelled(opts: Options, cs: seq<Thread>) {
    exists i | 0 <= i < |cs| ::
      cs[i].Done? && (cs[i].outcome.Yielded? || (cs[i].outcome.Errored? && !opts.settled))
  }

  /** A queued branch takes a semaphore slot and starts, or finds the fan-out cancelled. */
  predicate Dequeue(opts: Options, cs: seq<Thread>, i: nat, c': Thread)
    requires i < |cs|
  {
    && cs[i].Queued?
    && (opts.limit == 0 || Running(cs) < opts.limit)
    && (|| (c' == Active(map[], cs[i].prog) && !(opts.limit > 0 && !opts.settled && Cancelled(opts, cs)))
        || (c' == Skipped && opts.limit > 0 && !opts.settled && Cancelled(opts, cs)))
  }

  /** One atomic action of one goroutine; `log` is the step it claims, if any. */
  ghost predicate StepTo(x: Exec, path: seq<Element>, t: Thread, log: seq<Entry>, t': Thread)
    decreases t
  {
    match t
    case Active(cnt, p) => (log, t') == Advance(x, path, cnt, p)
    case Forked(cnt, name, opts, k, cs) =>
      || (log == [] && (forall i | 0 <= i < |cs| :: Ended(cs[i])) && t' == Joined(t))
      || (exists i, c' | 0 <= i < |cs| ::
            && t' == t.(children := cs[i := c'])
            && (|| (log == [] && Dequeue(opts, cs, i, c'))
                || StepTo(x, Branch(path, name, i), cs[i], log, c')))
    case Queued(_) => false
    case Skipped => false
    case Done(_) => false
  }

  ghost function Advance(x: Exec, path: seq<Element>, cnt: Counters, p: Prog): (seq<Entry>, Thread) {
    match p
    case Return(v) => ([], Done(Returned(v)))
    case Fail(e) => ([], Done(Errored(e)))
    case Step(kind, name, k) =>
      var e := ClaimStep(x, path, cnt, kind, name);
      ([e], if e.how.Parked? then Done(Yielded(e.id))
            else Active(cnt[name := Count(cnt, name) + 1], Cont(k, e.how.reply)))
    case Fan(name, bs, opts, k) =>
      ([], if bs == [] then Active(cnt, Cont(k, Ok(List([]))))
           else Forked(cnt, name, opts, k, seq(|bs|, i requires 0 <= i < |bs| => Queued(bs[i]))))
  }

  /** wg.Wait returned: re-panic the yield or hand the reply to the caller. */
  ghost function Joined(t: Thread): Thread
    requires t.Forked? && forall i | 0 <= i < |t.children| :: Ended(t.children[i])
  {
    match Combine(t.opts.settled, Results(t.children))
    case Pause(id) => Done(Yielded(id))
    case Proceed(r) => Active(t.cnt, Cont(t.k, r))
  }

  function Results(cs: seq<Thread>): seq<Outcome>
    requires forall i | 0 <= i < |cs| :: Ended(cs[i])
  {
    seq(|cs|, i requires 0 <= i < |cs| => Result(cs[i]))
  }

  /** The meaning of what a thread has left to do. */
  ghost function Future(x: Exec, path: seq<Element>, t: Thread): Meaning
    decreases t
  {
    match t
    case Active(cnt, p) => Eval(x, path, cnt, p)
    case Queued(p) => Then([], 1, Eval(x, path, map[], p))
    case Skipped => Meaning(Returned(Null), [], 0)
    case Done(o) => Meaning(o, [], 0)
    case Forked(cnt, name, opts, k, cs) =>
      Settle(x, path, cnt, opts, k, seq(|cs|, i requires 0 <= i < |cs| => Future(x, Branch(path, name, i), cs[i])))
  }

  /** The meaning of a fan-out from the meanings of its branches. */
  ghost function Settle(
    x: Exec, path: seq<Element>, cnt: Counters, opts: Options, k: imap<Reply, Prog>, ms: seq<Meaning>): Meaning
  {
    match Combine(opts.settled, Outcomes(ms))
    case Pause(id) => Meaning(Yielded(id), AllEntries(ms), 1 + AllWork(ms))
    case Proceed(r) => Then(AllEntries(ms), 1 + AllWork(ms), Eval(x, path, cnt, Cont(k, r)))
  }

  ghost function BranchMeanings(x: Exec, path: seq<Element>, name: string, bs: seq<Prog>): seq<Meaning> {
    seq(|bs|, i requires 0 <= i < |bs| => Then([], 1, Eval(x, Branch(path, name, i), map[], bs[i])))
  }

  lemma {:induction false} EvalFan(x: Exec, path: seq<Element>, cnt: Counters, p: Prog)
    requires p.Fan? && p.branches != []
    ensures Eval(x, path, cnt, p) ==
              Then([], 1, Settle(x, path, cnt, p.opts, p.k, BranchMeanings(x, path, p.name, p.branches)))
  {
    var bs, name := p.branches, p.name;
    var ms := BranchMeanings(x, path, name, bs);
    assert ms == seq(|bs|, i requires 0 <= i < |bs| => Then([], 1, Eval(x, Branch(path, name, i), map[], bs[i])));
  }

  /** Every fan-out runs without a concurrency limit or with allSettled. */
  ghost predicate NoSkips(p: Prog) {
    match p
    case Return(_) => true
    case Fail(_) => true
    case Step(_, _, k) => forall r | r in k :: NoSkips(k[r])
    case Fan(_, bs, opts, k) =>
      && (opts.limit == 0 || opts.settled)
      && (forall i | 0 <= i < |bs| :: NoSkips(bs[i]))
      && (forall r | r in k :: NoSkips(k[r]))
  }

  ghost predicate ThreadNoSkips(t: Thread) {
    match t
    case Active(_, p) => NoSkips(p)
    case Queued(p) => NoSkips(p)
    case Skipped => true
    case Done(_) => true
    case Forked(_, _, opts, k, cs) =>
      && (opts.limit == 0 || opts.settled)
      && (forall i | 0 <= i < |cs| :: ThreadNoSkips(cs[i]))
      && (forall r | r in k :: NoSkips(k[r]))
  }

  // --------------------------------------------- schedule independence: proof

  /** Consuming one atomic action from a meaning. */
  ghost predicate Consumes(m: Meaning, log: seq<Entry>, m': Meaning) {
    && m.outcome == m'.outcome
    && multiset(m.entries) == multiset(log) + multiset(m'.entries)
    && m.work == 1 + m'.work
  }

  lemma {:induction false} AllUpdate(ms: seq<Meaning>, i: nat, log: seq<Entry>, m': Meaning)
    requires i < |ms| && Consumes(ms[i], log, m')
    ensures multiset(AllEntries(ms)) == multiset(log) + multiset(AllEntries(ms[i := m']))
    ensures AllWork(ms) == 1 + AllWork(ms[i := m'])
  {
    var us := ms[i := m'];
    if i == 0 {
      assert us[1..] == ms[1..];
    } else {
      AllUpdate(ms[1..], i - 1, log, m');
      assert us[1..] == ms[1..][i - 1 := m'];
    }
  }

  lemma {:induction false} AllEnded(ms: seq<Meaning>)
    requires forall i | 0 <= i < |ms| :: ms[i].entries == [] && ms[i].work == 0
    ensures AllEntries(ms) == [] && AllWork(ms) == 0
  {
    if ms != [] { AllEnded(ms[1..]); }
  }

  lemma {:induction false} EvalStepNode(x: Exec, path: seq<Element>, cnt: Counters, p: Prog)
    requires p.Step?
    ensures var e := ClaimStep(x, path, cnt, p.kind, p.name);
            Eval(x, path, cnt, p) ==
              if e.how.Parked? then Meaning(Yielded(e.id), [e], 1)
              else Then([e], 1, Eval(x, path, cnt[p.name := Count(cnt, p.name) + 1], Cont(p.k, e.how.reply)))
  {
  }

  lemma {:induction false} ThenConsumes(e: Entry, m: Meaning)
    ensures Consumes(Then([e], 1, m), [e], m)
  {
    assert multiset([e] + m.entries) == multiset([e]) + multiset(m.entries);
  }

  lemma {:induction false} AdvanceStepNode(x: Exec, path: seq<Element>, cnt: Counters, p: Prog, e: Entry)
    requires p.Step? && e == ClaimStep(x, path, cnt, p.kind, p.name)
    ensures Advance(x, path, cnt, p) ==
              ([e], if e.how.Parked? then Done(Yielded(e.id))
                    else Active(cnt[p.name := Count(cnt, p.name) + 1], Cont(p.k, e.how.reply)))
  {
  }

  lemma {:induction false} ContNoSkips(p: Prog, r: Reply)
    requires p.Step? && NoSkips(p)
    ensures NoSkips(Cont(p.k, r))
  {
  }

  lemma {:induction false} StepNodeConsumes(x: Exec, path: seq<Element>, cnt: Counters, p: Prog)
    requires p.Step? && NoSkips(p)
    ensures Consumes(Eval(x, path, cnt, p), Advance(x, path, cnt, p).0, Future(x, path, Advance(x, path, cnt, p).1))
    ensures ThreadNoSkips(Advance(x, path, cnt, p).1)
  {
    var e := ClaimStep(x, path, cnt, p.kind, p.name);
    EvalStepNode(x, path, cnt, p);
    AdvanceStepNode(x, path, cnt, p, e);
    if !e.how.Parked? {
      ContNoSkips(p, e.how.reply);
      ThenConsumes(e, Eval(x, path, cnt[p.name := Count(cnt, p.name) + 1], Cont(p.k, e.how.reply)));
    } else {
      assert Consumes(Meaning(Yielded(e.id), [e], 1), [e], Meaning(Yielded(e.id), [], 0));
    }
  }

  /** The thread a fan-out with branches becomes. */
  ghost function ForkedFrom(cnt: Counters, p: Prog): Thread
    requires p.Fan?
  {
    var bs := p.branches;
    Forked(cnt, p.name, p.opts, p.k, seq(|bs|, i requires 0 <= i < |bs| => Queued(bs[i])))
  }

  lemma {:induction false} ForkMeaning(x: Exec, path: seq<Element>, cnt: Counters, p: Prog)
    requires p.Fan?
    ensures Future(x, path, ForkedFrom(cnt, p)) ==
              Settle(x, path, cnt, p.opts, p.k, BranchMeanings(x, path, p.name, p.branches))
  {
    var cs := ForkedFrom(cnt, p).children;
    var fs := seq(|cs|, i requires 0 <= i < |cs| => Future(x, Branch(path, p.name, i), cs[i]));
    assert fs == BranchMeanings(x, path, p.name, p.branches);
  }

  lemma {:induction false} FanNodeConsumes(x: Exec, path: seq<Element>, cnt: Counters, p: Prog)
    requires p.Fan? && NoSkips(p)
    ensures var (log, t') := Advance(x, path, cnt, p);
            Consumes(Eval(x, path, cnt, p), log, Future(x, path, t')) && ThreadNoSkips(t')
  {
    if p.branches == [] {
      assert Advance(x, path, cnt, p).1 == Active(cnt, Cont(p.k, Ok(List([]))));
    } else {
      EvalFan(x, path, cnt, p);
      ForkMeaning(x, path, cnt, p);
      assert Advance(x, path, cnt, p) == ([], ForkedFrom(cnt, p));
    }
  }

  lemma {:induction false} AdvanceConsumes(x: Exec, path: seq<Element>, cnt: Counters, p: Prog)
    requires NoSkips(p)
    ensures var (log, t') := Advance(x, path, cnt, p);
            Consumes(Eval(x, path, cnt, p), log, Future(x, path, t')) && ThreadNoSkips(t')
  {
    match p
    case Return(_) =>
    case Fail(_) =>
    case Step(_, _, _) => StepNodeConsumes(x, path, cnt, p);
    case Fan(_, _, _, _) => FanNodeConsumes(x, path, cnt, p);
  }

  lemma {:induction false} JoinConsumes(x: Exec, path: seq<Element>, t: Thread)
    requires t.Forked? && ThreadNoSkips(t)
    requires forall i | 0 <= i < |t.children| :: Ended(t.children[i])
    ensures Consumes(Future(x, path, t), [], Future(x, path, Joined(t))) && ThreadNoSkips(Joined(t))
  {
    var cs, name := t.children, t.name;
    var ms := seq(|cs|, i requires 0 <= i < |cs| => Future(x, Branch(path, name, i), cs[i]));
    AllEnded(ms);
    assert Outcomes(ms) == Results(cs);
  }

  /** Every action of every goroutine leaves the outcome unchanged and moves one action, with
      its claim, from the future into the log. */
  lemma {:induction false} StepConsumes(x: Exec, path: seq<Element>, t: Thread, log: seq<Entry>, t': Thread)
    requires StepTo(x, path, t, log, t') && ThreadNoSkips(t)
    ensures Consumes(Future(x, path, t), log, Future(x, path, t')) && ThreadNoSkips(t')
    decreases t
  {
    match t
    case Active(cnt, p) => AdvanceConsumes(x, path, cnt, p);
    case Forked(cnt, name, opts, k, cs) =>
      if log == [] && (forall i | 0 <= i < |cs| :: Ended(cs[i])) && t' == Joined(t) {
        JoinConsumes(x, path, t);
      } else {
        var i, c' :| 0 <= i < |cs| && t' == t.(children := cs[i := c'])
          && ((log == [] && Dequeue(opts, cs, i, c')) || StepTo(x, Branch(path, name, i), cs[i], log, c'));
        if log == [] && Dequeue(opts, cs, i, c') {
          DequeueConsumes(x, Branch(path, name, i), t, i, c');
        } else {
          StepConsumes(x, Branch(path, name, i), cs[i], log, c');
        }
        ChildConsumes(x, path, t, i, log, c');
        ChildNoSkips(t, i, c');
      }
    case Queued(_) =>
    case Skipped =>
    case Done(_) =>
  }

  lemma {:induction false} DequeueConsumes(x: Exec, scope: seq<Element>, t: Thread, i: nat, c': Thread)
    requires t.Forked? && ThreadNoSkips(t) && i < |t.children| && Dequeue(t.opts, t.children, i, c')
    ensures Consumes(Future(x, scope, t.children[i]), [], Future(x, scope, c')) && ThreadNoSkips(c')
  {
    assert ThreadNoSkips(t.children[i]);
  }

  lemma {:induction false} ChildNoSkips(t: Thread, i: nat, c': Thread)
    requires t.Forked? && ThreadNoSkips(t) && i < |t.children| && ThreadNoSkips(c')
    ensures ThreadNoSkips(t.(children := t.children[i := c']))
  {
  }

  lemma {:induction false} ChildConsumes(x: Exec, path: seq<Element>, t: Thread, i: nat, log: seq<Entry>, c': Thread)
    requires t.Forked? && i < |t.children|
    requires Consumes(Future(x, Branch(path, t.name, i), t.children[i]), log, Future(x, Branch(path, t.name, i), c'))
    ensures Consumes(Future(x, path, t), log, Future(x, path, t.(children := t.children[i := c'])))
  {
    var cs, name := t.children, t.name;
    var us := cs[i := c'];
    var m' := Future(x, Branch(path, name, i), c');
    var ms := seq(|cs|, j requires 0 <= j < |cs| => Future(x, Branch(path, name, j), cs[j]));
    assert ms[i := m'] == seq(|us|, j requires 0 <= j < |us| => Future(x, Branch(path, name, j), us[j]));
    SettleConsumes(x, path, t.cnt, t.opts, t.k, ms, i, log, m');
  }

  lemma {:induction false} SettleConsumes(
    x: Exec, path: seq<Element>, cnt: Counters, opts: Options, k: imap<Reply, Prog>, ms: seq<Meaning>, i: nat,
    log: seq<Entry>, m': Meaning)
    requires i < |ms| && Consumes(ms[i], log, m')
    ensures Consumes(Settle(x, path, cnt, opts, k, ms), log, Settle(x, path, cnt, opts, k, ms[i := m']))
  {
    AllUpdate(ms, i, log, m');
    assert Outcomes(ms) == Outcomes(ms[i := m']);
  }

  // ---------------------------------------------------- schedule independence

  /** A run: the threads it passes through and the claims each action logs. */
  ghost predicate IsRun(x: Exec, path: seq<Element>, ts: seq<Thread>, logs: seq<seq<Entry>>) {
    && |ts| == |logs| + 1
    && forall i | 0 <= i < |logs| :: StepTo(x, path, ts[i], logs[i], ts[i + 1])
  }

  function Flatten(logs: seq<seq<Entry>>): seq<Entry> {
    if logs == [] then [] else logs[0] + Flatten(logs[1..])
  }

  lemma {:induction false} RunConsumes(x: Exec, path: seq<Element>, ts: seq<Thread>, logs: seq<seq<Entry>>)
    requires IsRun(x, path, ts, logs) && ThreadNoSkips(ts[0])
    ensures var m, m' := Future(x, path, ts[0]), Future(x, path, ts[|logs|]);
            && m.outcome == m'.outcome
            && multiset(m.entries) == multiset(Flatten(logs)) + multiset(m'.entries)
            && m.work == |logs| + m'.work
    decreases |logs|
  {
    if logs != [] {
      StepConsumes(x, path, ts[0], logs[0], ts[1]);
      var us, rest := ts[1..], logs[1..];
      forall i | 0 <= i < |rest| ensures StepTo(x, path, us[i], rest[i], us[i + 1]) {
        assert StepTo(x, path, ts[i + 1], logs[i + 1], ts[i + 1 + 1]);
      }
      RunConsumes(x, path, us, rest);
      assert us[|rest|] == ts[|logs|];
      assert multiset(Flatten(logs)) == multiset(logs[0]) + multiset(Flatten(rest));
    }
  }

  /** Schedule independence.  Whatever the interleaving, a handler whose fan-outs cannot skip
      a branch claims the steps of its sequential meaning, answers each of them the same way,
      and ends with the same outcome after the same number of actions. */
  lemma {:induction false} ScheduleIndependent(x: Exec, p: Prog, ts: seq<Thread>, logs: seq<seq<Entry>>)
    requires NoSkips(p)
    requires IsRun(x, [], ts, logs) && ts[0] == Active(map[], p)
    ensures var m := Eval(x, [], map[], p);
            && |logs| <= m.work
            && multiset(Flatten(logs)) <= multiset(m.entries)
            && (ts[|logs|].Done? ==>
                  ts[|logs|].outcome == m.outcome && multiset(Flatten(logs)) == multiset(m.entries))
            && (|logs| == m.work ==> ts[|logs|].Done?)
  {
    RunConsumes(x, [], ts, logs);
    var last := ts[|logs|];
    if !last.Done? {
      RunNeverQueues(x, [], ts, logs);
      WorkIsPositive(x, [], last);
    }
  }

  lemma {:induction false} RunNeverQueues(x: Exec, path: seq<Element>, ts: seq<Thread>, logs: seq<seq<Entry>>)
    requires IsRun(x, path, ts, logs) && !ts[0].Skipped?
    ensures !ts[|logs|].Skipped?
    decreases |logs|
  {
    if logs != [] {
      var n := |logs| - 1;
      assert StepTo(x, path, ts[n], logs[n], ts[n + 1]);
    }
  }

  lemma {:induction false} WorkIsPositive(x: Exec, path: seq<Element>, t: Thread)
    requires !Ended(t)
    ensures Future(x, path, t).work > 0
  {
  }

  /** No schedule gets stuck: a thread that has not ended can always act. */
  lemma {:induction false} Progress(x: Exec, path: seq<Element>, t: Thread)
    requires !Ended(t) && !t.Queued?
    ensures exists log, t' :: StepTo(x, path, t, log, t')
    decreases t
  {
    match t
    case Active(cnt, p) =>
      var (log, t') := Advance(x, path, cnt, p);
      assert StepTo(x, path, t, log, t');
    case Forked(cnt, name, opts, k, cs) =>
      if forall i | 0 <= i < |cs| :: Ended(cs[i]) {
        assert StepTo(x, path, t, [], Joined(t));
      } else if i :| 0 <= i < |cs| && !Ended(cs[i]) && !cs[i].Queued? {
        Progress(x, Branch(path, name, i), cs[i]);
        var log, c' :| StepTo(x, Branch(path, name, i), cs[i], log, c');
        assert StepTo(x, path, t, log, t.(children := cs[i := c']));
      } else {
        var i :| 0 <= i < |cs| && !Ended(cs[i]);
        NoneRunning(cs);
        var c' := if opts.limit > 0 && !opts.settled && Cancelled(opts, cs) then Skipped else Active(map[], cs[i].prog);
        assert Dequeue(opts, cs, i, c');
        assert StepTo(x, path, t, [], t.(children := cs[i := c']));
      }
  }

  lemma {:induction false} NoneRunning(cs: seq<Thread>)
    requires forall i | 0 <= i < |cs| :: !cs[i].Active? && !cs[i].Forked?
    ensures Running(cs) == 0
  {
    if cs != [] { NoneRunning(cs[1..]); }
  }
}
