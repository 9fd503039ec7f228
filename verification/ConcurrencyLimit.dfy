/** The concurrency limit of a fan-out (ironflow/parallel.go).

    A branch is at work from the moment it has a semaphore slot until it returns.  The results are
    about every interleaving of every handler, with fan-outs nested to any depth. */
module ConcurrencyLimit {
  import opened StepIds
  import opened Durable

  /** The branch has left the queue and has not returned. */
  predicate AtWork(t: Thread) {
    t.Active? || t.Forked?
  }

  /** The branches at work. */
  function Working(cs: seq<Thread>): set<nat> {
    set i | 0 <= i < |cs| && AtWork(cs[i])
  }

  /** No fan-out of the thread, at any depth, has more branches at work than its limit. */
  predicate WithinLimits(t: Thread) {
    t.Forked? ==>
      && (t.opts.limit > 0 ==> |Working(t.children)| <= t.opts.limit)
      && forall i | 0 <= i < |t.children| :: WithinLimits(t.children[i])
  }

  function Shifted(s: set<nat>): set<nat> {
    set i | i in s :: i + 1
  }

  lemma {:induction false} InShifted(s: set<nat>, n: nat)
    ensures n in Shifted(s) <==> n > 0 && n - 1 in s
  {
    if n > 0 && n - 1 in s { assert (n - 1) + 1 == n; }
  }

  lemma {:induction false} ShiftedSize(s: set<nat>)
    ensures |Shifted(s)| == |s|
  {
    if s != {} {
      var k :| k in s;
      var rest := s - {k};
      ShiftedSize(rest);
      forall n: nat ensures n in Shifted(s) <==> n in Shifted(rest) + {k + 1} {
        InShifted(s, n);
        InShifted(rest, n);
      }
      InShifted(rest, k + 1);
      assert Shifted(s) == Shifted(rest) + {k + 1};
    }
  }

  /** The semaphore's count is the number of branches at work. */
  lemma {:induction false} RunningCounts(cs: seq<Thread>)
    ensures Running(cs) == |Working(cs)|
    decreases |cs|
  {
    if cs != [] {
      var rest := cs[1..];
      RunningCounts(rest);
      ShiftedSize(Working(rest));
      var first: set<nat> := if AtWork(cs[0]) then {0} else {};
      forall n: nat ensures n in Working(cs) <==> n in first + Shifted(Working(rest)) { InShifted(Working(rest), n); }
      InShifted(Working(rest), 0);
      assert Working(cs) == first + Shifted(Working(rest));
    }
  }

  /** One branch changes; it takes a slot only if it had none and there was room. */
  lemma {:induction false} OneBranch(cs: seq<Thread>, i: nat, c': Thread)
    requires i < |cs|
    ensures |Working(cs[i := c'])| <= |Working(cs)| + if AtWork(c') && !AtWork(cs[i]) then 1 else 0
  {
    var more := if AtWork(c') && !AtWork(cs[i]) then {i} else {};
    var was, now := Working(cs), Working(cs[i := c']);
    assert now <= was + more;
    Fewer(now, was + more);
  }

  lemma {:induction false} Fewer(a: set<nat>, b: set<nat>)
    requires a <= b
    ensures |a| <= |b|
  {
    assert b == a + (b - a);
  }

  lemma {:induction false} AdvanceWithin(x: Exec, path: seq<Element>, cnt: Counters, p: Prog)
    ensures WithinLimits(Advance(x, path, cnt, p).1)
  {
    var t := Advance(x, path, cnt, p).1;
    if t.Forked? { assert Working(t.children) == {}; }
  }

  lemma {:induction false} BranchWithin(t: Thread, i: nat, c': Thread)
    requires t.Forked? && WithinLimits(t) && i < |t.children| && WithinLimits(c')
    requires AtWork(c') && !AtWork(t.children[i]) ==> t.opts.limit == 0 || Running(t.children) < t.opts.limit
    ensures WithinLimits(t.(children := t.children[i := c']))
  {
    OneBranch(t.children, i, c');
    RunningCounts(t.children);
  }

  lemma {:induction false} StepWithin(x: Exec, path: seq<Element>, t: Thread, log: seq<Entry>, t': Thread)
    requires StepTo(x, path, t, log, t') && WithinLimits(t)
    ensures WithinLimits(t')
    decreases t
  {
    match t
    case Active(cnt, p) => AdvanceWithin(x, path, cnt, p);
    case Forked(cnt, name, opts, k, cs) =>
      if !(log == [] && (forall i | 0 <= i < |cs| :: Ended(cs[i])) && t' == Durable.Joined(t)) {
        var i, c' :| 0 <= i < |cs| && t' == t.(children := cs[i := c'])
          && ((log == [] && Dequeue(opts, cs, i, c')) || StepTo(x, Branch(path, name, i), cs[i], log, c'));
        if !(log == [] && Dequeue(opts, cs, i, c')) { StepWithin(x, Branch(path, name, i), cs[i], log, c'); }
        BranchWithin(t, i, c');
      }
  }

  /** In every state of every run of every handler, each fan-out with a limit, however deeply it is
      nested, has at most that many branches at work. */
  lemma {:induction false} NeverOverLimit(x: Exec, p: Prog, ts: seq<Thread>, logs: seq<seq<Entry>>, n: nat)
    requires IsRun(x, [], ts, logs) && ts[0] == Active(map[], p) && n <= |logs|
    ensures WithinLimits(ts[n])
  {
    if n > 0 {
      var m := n - 1;
      NeverOverLimit(x, p, ts, logs, m);
      assert StepTo(x, [], ts[m], logs[m], ts[m + 1]);
      StepWithin(x, [], ts[m], logs[m], ts[m + 1]);
    }
  }

  /** A fan-out starts with every branch queued, and keeps its options while it is open. */
  lemma {:induction false} FanStep(x: Exec, path: seq<Element>, t: Thread, log: seq<Entry>, t': Thread)
    requires StepTo(x, path, t, log, t') && t'.Forked?
    ensures t.Forked? ==> t'.opts == t.opts && |t'.children| == |t.children|
    ensures t.Active? && t.prog.Fan? ==> t'.opts == t.prog.opts && |t'.children| == |t.prog.branches|
    ensures t.Active? && t.prog.Fan? ==>
              forall i | 0 <= i < |t.prog.branches| :: t'.children[i] == Queued(t.prog.branches[i])
  {
  }

  /** So the limit that holds is the one the handler asked for. */
  lemma {:induction false} FanHasItsLimit(x: Exec, p: Prog, ts: seq<Thread>, logs: seq<seq<Entry>>, n: nat)
    requires IsRun(x, [], ts, logs) && ts[0] == Active(map[], p) && 0 < n <= |logs|
    requires p.Fan? && p.branches != [] && forall m | 0 < m <= n :: ts[m].Forked?
    ensures ts[n].opts == p.opts && |ts[n].children| == |p.branches|
    ensures p.opts.limit > 0 ==> |Working(ts[n].children)| <= p.opts.limit
  {
    var m := n - 1;
    assert StepTo(x, [], ts[m], logs[m], ts[m + 1]);
    if m > 0 { FanHasItsLimit(x, p, ts, logs, m); }
    FanStep(x, [], ts[m], logs[m], ts[m + 1]);
    NeverOverLimit(x, p, ts, logs, n);
  }

  /** Branch i has left the queue: it started, with a scope of its own, unless a limited failFast
      fan-out already has a branch that failed or yielded. */
  predicate LeftQueue(t: Thread, t': Thread, i: nat)
    requires t.Forked? && i < |t.children| && t.children[i].Queued?
  {
    && t'.Forked? && |t'.children| == |t.children|
    && t'.children[i] ==
         if t.opts.limit > 0 && !t.opts.settled
            && exists j | 0 <= j < |t.children| :: t.children[j].Done? && !t.children[j].outcome.Returned?
         then Skipped else Active(map[], t.children[i].prog)
  }

  /** A queued branch can leave the queue exactly when there is no limit or fewer branches than the
      limit are at work. */
  lemma {:induction false} LeavesQueueIff(x: Exec, path: seq<Element>, t: Thread, i: nat)
    requires t.Forked? && i < |t.children| && t.children[i].Queued?
    ensures (exists log, t' :: StepTo(x, path, t, log, t') && LeftQueue(t, t', i)) <==>
              t.opts.limit == 0 || |Working(t.children)| < t.opts.limit
  {
    RunningCounts(t.children);
    if t.opts.limit == 0 || |Working(t.children)| < t.opts.limit {
      var c' := if t.opts.limit > 0 && !t.opts.settled && Cancelled(t.opts, t.children)
                then Skipped else Active(map[], t.children[i].prog);
      assert Dequeue(t.opts, t.children, i, c');
      var t' := t.(children := t.children[i := c']);
      assert StepTo(x, path, t, [], t');
      assert LeftQueue(t, t', i);
    }
    forall log, t' | StepTo(x, path, t, log, t') && LeftQueue(t, t', i)
      ensures t.opts.limit == 0 || Running(t.children) < t.opts.limit
    {
      OnlyDequeueLeaves(x, path, t, i, log, t');
    }
  }

  lemma {:induction false} OnlyDequeueLeaves(
    x: Exec, path: seq<Element>, t: Thread, i: nat, log: seq<Entry>, t': Thread)
    requires t.Forked? && i < |t.children| && t.children[i].Queued?
    requires StepTo(x, path, t, log, t') && LeftQueue(t, t', i)
    ensures t.opts.limit == 0 || Running(t.children) < t.opts.limit
  {
    var cs := t.children;
    assert !Ended(cs[i]);
    var j, c' :| 0 <= j < |cs| && t' == t.(children := cs[j := c'])
      && ((log == [] && Dequeue(t.opts, cs, j, c')) || StepTo(x, Branch(path, t.name, j), cs[j], log, c'));
    assert j == i;
  }

  /** And nothing else happens to a queued branch: it stays queued or leaves as stated. */
  lemma {:induction false} QueuedOrLeft(x: Exec, path: seq<Element>, t: Thread, i: nat, log: seq<Entry>, t': Thread)
    requires t.Forked? && i < |t.children| && t.children[i].Queued? && StepTo(x, path, t, log, t')
    ensures t'.Forked? && |t'.children| == |t.children| && (t'.children[i] == t.children[i] || LeftQueue(t, t', i))
  {
    var cs := t.children;
    assert !Ended(cs[i]);
    var j, c' :| 0 <= j < |cs| && t' == t.(children := cs[j := c'])
      && ((log == [] && Dequeue(t.opts, cs, j, c')) || StepTo(x, Branch(path, t.name, j), cs[j], log, c'));
  }
}
