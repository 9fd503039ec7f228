/** Fan-outs under a concurrency limit and failFast (ironflow/parallel.go).

    A branch still queued behind the limit is skipped once the fan-out is cancelled, so which
    branches run depends on the schedule, and so may what a branch with such a fan-out inside it
    ends with.  All schedules nevertheless reach one verdict exactly when every failure any branch
    can end with is the same and some branch cannot avoid it, or none can fail and each branch can
    end only one way. */
module FanOutLimits {
  import opened StepIds
  import opened Durable
  import opened Optional

  /** The branches are arbitrary: they may hold fan-outs of this kind again. */
  ghost predicate IsLimitedFan(p: Prog) {
    p.Fan? && p.branches != [] && p.opts.limit > 0 && !p.opts.settled
  }

  ghost predicate AllBranchesEnded(t: Thread) {
    t.Forked? && forall i | 0 <= i < |t.children| :: Ended(t.children[i])
  }

  ghost function VerdictOf(t: Thread): Verdict
    requires AllBranchesEnded(t)
  {
    Combine(t.opts.settled, Results(t.children))
  }

  /** `ts` schedules the fan-out from its fork until the first moment every branch has ended. */
  ghost predicate Schedules(x: Exec, path: seq<Element>, cnt: Counters, p: Prog, ts: seq<Thread>, logs: seq<seq<Entry>>)
    requires p.Fan?
  {
    && IsRun(x, path, ts, logs) && ts[0] == ForkedFrom(cnt, p) && AllBranchesEnded(ts[|logs|])
    && AllOpen(ts, |logs|)
  }

  /** wg.Wait has not returned yet at any of the first `n` threads. */
  ghost predicate AllOpen(ts: seq<Thread>, n: nat) {
    n <= |ts| && forall m | 0 <= m < n :: ts[m].Forked? && !AllBranchesEnded(ts[m])
  }

  // ------------------------------------------------------- how a branch can end

  /** This run of `p` leads from its first action to thread `t`. */
  ghost predicate RunsTo(
    x: Exec, path: seq<Element>, p: Prog, ts: seq<Thread>, logs: seq<seq<Entry>>, t: Thread)
  {
    IsRun(x, path, ts, logs) && ts[0] == Active(map[], p) && ts[|logs|] == t
  }

  ghost predicate Reaches(x: Exec, path: seq<Element>, p: Prog, t: Thread) {
    exists ts, logs :: RunsTo(x, path, p, ts, logs, t)
  }

  /** Under some schedule of its own, branch `i` ends with this outcome. */
  ghost predicate CanEnd(x: Exec, path: seq<Element>, p: Prog, i: nat, o: Outcome)
    requires p.Fan?
  {
    i < |p.branches| && Reaches(x, Branch(path, p.name, i), p.branches[i], Done(o))
  }

  ghost predicate FailuresAgree(x: Exec, path: seq<Element>, p: Prog)
    requires p.Fan?
  {
    forall i: nat, o, j: nat, q
      | CanEnd(x, path, p, i, o) && CanEnd(x, path, p, j, q) && !o.Returned? && !q.Returned? :: o == q
  }

  ghost predicate CanFail(x: Exec, path: seq<Element>, p: Prog)
    requires p.Fan?
  {
    exists i: nat, o :: CanEnd(x, path, p, i, o) && !o.Returned?
  }

  ghost predicate CanReturn(x: Exec, path: seq<Element>, p: Prog, i: nat)
    requires p.Fan?
  {
    exists o :: CanEnd(x, path, p, i, o) && o.Returned?
  }

  ghost predicate SomeMustFail(x: Exec, path: seq<Element>, p: Prog)
    requires p.Fan?
  {
    exists i | 0 <= i < |p.branches| :: !CanReturn(x, path, p, i)
  }

  ghost predicate OneOutcomeEach(x: Exec, path: seq<Element>, p: Prog)
    requires p.Fan?
  {
    forall i: nat, o, q | CanEnd(x, path, p, i, o) && CanEnd(x, path, p, i, q) :: o == q
  }

  /** The condition: one failure that some branch cannot avoid, or no failure and one outcome of
      each branch. */
  ghost predicate OneVerdict(x: Exec, path: seq<Element>, p: Prog)
    requires p.Fan?
  {
    if CanFail(x, path, p) then FailuresAgree(x, path, p) && SomeMustFail(x, path, p)
    else OneOutcomeEach(x, path, p)
  }

  // --------------------------------------------- what a schedule can lead to

  ghost predicate Tracks(x: Exec, path: seq<Element>, p: Prog, cnt: Counters, t: Thread)
    requires p.Fan?
  {
    && t.Forked? && t.cnt == cnt && t.name == p.name && t.opts == p.opts && t.k == p.k
    && |t.children| == |p.branches|
    && (forall i | 0 <= i < |t.children| :: TracksChild(x, path, p, i, t.children[i]))
    && ((exists i | 0 <= i < |t.children| :: t.children[i].Skipped?) ==> Cancelled(t.opts, t.children))
  }

  /** The branch waits, was skipped, or got where it is by a run of its own. */
  ghost predicate TracksChild(x: Exec, path: seq<Element>, p: Prog, i: nat, c: Thread)
    requires p.Fan? && i < |p.branches|
  {
    c.Skipped? || c == Queued(p.branches[i]) || Reaches(x, Branch(path, p.name, i), p.branches[i], c)
  }

  /** Branch i of the fan-out moves from c to c'. */
  ghost predicate Moves(x: Exec, path: seq<Element>, t: Thread, i: nat, log: seq<Entry>, c': Thread)
    requires t.Forked? && i < |t.children|
  {
    || (log == [] && Dequeue(t.opts, t.children, i, c'))
    || StepTo(x, Branch(path, t.name, i), t.children[i], log, c')
  }

  lemma {:induction false} ReachesStart(x: Exec, path: seq<Element>, p: Prog)
    ensures Reaches(x, path, p, Active(map[], p))
  {
    assert RunsTo(x, path, p, [Active(map[], p)], [], Active(map[], p));
  }

  lemma {:induction false} ReachesFurther(x: Exec, path: seq<Element>, p: Prog, c: Thread, log: seq<Entry>, c': Thread)
    requires Reaches(x, path, p, c) && StepTo(x, path, c, log, c')
    ensures Reaches(x, path, p, c')
  {
    var ts, logs :| RunsTo(x, path, p, ts, logs, c);
    var first := [c, c'];
    assert IsRun(x, path, first, [log]);
    ConcatRuns(x, path, ts, logs, first, [log]);
    assert RunsTo(x, path, p, ts + first[1..], logs + [log], c');
  }

  lemma {:induction false} MoveTracks(
    x: Exec, path: seq<Element>, p: Prog, cnt: Counters, t: Thread, i: nat, log: seq<Entry>, c': Thread)
    requires IsLimitedFan(p) && Tracks(x, path, p, cnt, t) && i < |t.children| && Moves(x, path, t, i, log, c')
    ensures TracksChild(x, path, p, i, c') && !t.children[i].Done? && !t.children[i].Skipped?
    ensures c'.Skipped? ==> Cancelled(t.opts, t.children)
  {
    var scope := Branch(path, p.name, i);
    assert TracksChild(x, path, p, i, t.children[i]);
    if log == [] && Dequeue(t.opts, t.children, i, c') {
      QueuedNotReached(x, scope, p.branches[i], t.children[i]);
      ReachesStart(x, scope, p.branches[i]);
    } else {
      NeverBecomesSkipped(x, scope, t.children[i], log, c');
      ReachesFurther(x, scope, p.branches[i], t.children[i], log, c');
    }
  }

  lemma {:induction false} QueuedNotReached(x: Exec, path: seq<Element>, p: Prog, c: Thread)
    requires c.Queued?
    ensures !Reaches(x, path, p, c)
  {
    if ts, logs :| RunsTo(x, path, p, ts, logs, c) {
      var n := |logs| - 1;
      NeverBecomesSkipped(x, path, ts[n], logs[n], ts[n + 1]);
      assert false;
    }
  }

  lemma {:induction false} StepTracks(
    x: Exec, path: seq<Element>, p: Prog, cnt: Counters, t: Thread, log: seq<Entry>, t': Thread)
    requires IsLimitedFan(p) && Tracks(x, path, p, cnt, t) && StepTo(x, path, t, log, t') && !AllBranchesEnded(t)
    ensures Tracks(x, path, p, cnt, t')
  {
    var cs := t.children;
    var i, c' :| 0 <= i < |cs| && t' == t.(children := cs[i := c'])
      && ((log == [] && Dequeue(t.opts, cs, i, c')) || StepTo(x, Branch(path, t.name, i), cs[i], log, c'));
    MoveTracks(x, path, p, cnt, t, i, log, c');
    UpdateTracks(x, path, p, cnt, t, i, c');
  }

  lemma {:induction false} UpdateTracks(
    x: Exec, path: seq<Element>, p: Prog, cnt: Counters, t: Thread, i: nat, c': Thread)
    requires p.Fan? && Tracks(x, path, p, cnt, t) && i < |t.children| && TracksChild(x, path, p, i, c')
    requires !t.children[i].Done? && (c'.Skipped? ==> Cancelled(t.opts, t.children))
    ensures Tracks(x, path, p, cnt, t.(children := t.children[i := c']))
  {
    var cs, us := t.children, t.children[i := c'];
    forall j | 0 <= j < |us| ensures TracksChild(x, path, p, j, us[j]) {
      assert TracksChild(x, path, p, j, cs[j]);
    }
    if Cancelled(t.opts, cs) {
      var f :| 0 <= f < |cs| && cs[f].Done? && (cs[f].outcome.Yielded? || (cs[f].outcome.Errored? && !t.opts.settled));
      assert us[f] == cs[f];
      assert Cancelled(t.opts, us);
    }
    if j :| 0 <= j < |us| && us[j].Skipped? { assert j != i ==> cs[j].Skipped?; }
  }

  /** A step never leads to a skipped or queued thread, nor on from an ended one. */
  lemma {:induction false} NeverBecomesSkipped(x: Exec, path: seq<Element>, t: Thread, log: seq<Entry>, t': Thread)
    requires StepTo(x, path, t, log, t')
    ensures !t'.Skipped? && !t'.Queued? && !t.Done? && !t.Skipped? && !t.Queued?
  {
  }

  lemma {:induction false} ForkTracks(x: Exec, path: seq<Element>, p: Prog, cnt: Counters)
    requires IsLimitedFan(p)
    ensures Tracks(x, path, p, cnt, ForkedFrom(cnt, p))
  {
    var t := ForkedFrom(cnt, p);
    forall i | 0 <= i < |t.children| ensures TracksChild(x, path, p, i, t.children[i]) {
      assert t.children[i] == Queued(p.branches[i]);
    }
  }

  lemma {:induction false} RunTracks(
    x: Exec, path: seq<Element>, p: Prog, cnt: Counters, ts: seq<Thread>, logs: seq<seq<Entry>>, n: nat)
    requires IsLimitedFan(p) && Schedules(x, path, cnt, p, ts, logs) && n <= |logs|
    ensures Tracks(x, path, p, cnt, ts[n])
  {
    if n == 0 {
      ForkTracks(x, path, p, cnt);
    } else {
      var m := n - 1;
      RunTracks(x, path, p, cnt, ts, logs, m);
      StepAt(x, path, p, cnt, ts, logs, m);
    }
  }

  lemma {:induction false} StepAt(
    x: Exec, path: seq<Element>, p: Prog, cnt: Counters, ts: seq<Thread>, logs: seq<seq<Entry>>, m: nat)
    requires IsLimitedFan(p) && m < |logs| && |ts| == |logs| + 1 && StepTo(x, path, ts[m], logs[m], ts[m + 1])
    requires Tracks(x, path, p, cnt, ts[m]) && !AllBranchesEnded(ts[m])
    ensures Tracks(x, path, p, cnt, ts[m + 1])
  {
    StepTracks(x, path, p, cnt, ts[m], logs[m], ts[m + 1]);
  }

  // --------------------------------------------------------- verdicts of failures

  function FailureVerdict(o: Outcome): Verdict
    requires !o.Returned?
  {
    if o.Yielded? then Pause(o.id) else Proceed(Failed(o.error))
  }

  lemma {:induction false} CombineOneFailure(os: seq<Outcome>, f: Outcome)
    requires !f.Returned? && f in os
    requires forall i | 0 <= i < |os| :: os[i].Returned? || os[i] == f
    ensures Combine(false, os) == FailureVerdict(f)
  {
    FindOneFailure(os, f);
  }

  lemma {:induction false} FindOneFailure(os: seq<Outcome>, f: Outcome)
    requires !f.Returned? && f in os
    requires forall i | 0 <= i < |os| :: os[i].Returned? || os[i] == f
    ensures f.Yielded? ==> FirstYield(os) == Some(f.id)
    ensures f.Errored? ==> FirstYield(os) == None && FirstError(os) == Some(f.error)
  {
    if os[0].Returned? {
      assert f in os[1..];
      FindOneFailure(os[1..], f);
    } else if f.Errored? {
      NoYield(os, f);
    }
  }

  lemma {:induction false} NoYield(os: seq<Outcome>, f: Outcome)
    requires f.Errored? && forall i | 0 <= i < |os| :: os[i].Returned? || os[i] == f
    ensures FirstYield(os) == None
  {
    if os != [] { NoYield(os[1..], f); }
  }

  lemma {:induction false} CombineNoFailure(os: seq<Outcome>)
    requires forall i | 0 <= i < |os| :: os[i].Returned?
    ensures exists vs :: Combine(false, os) == Proceed(Ok(List(vs))) && |vs| == |os| &&
              forall i | 0 <= i < |os| :: vs[i] == os[i].value
  {
    VerdictByIndex(false, os);
  }

  /** What has ended did so by a run of its own. */
  lemma {:induction false} EndedBranch(x: Exec, path: seq<Element>, p: Prog, cnt: Counters, t: Thread, i: nat)
    requires IsLimitedFan(p) && Tracks(x, path, p, cnt, t) && AllBranchesEnded(t) && i < |t.children|
    ensures t.children[i].Skipped? || CanEnd(x, path, p, i, Results(t.children)[i])
  {
    assert TracksChild(x, path, p, i, t.children[i]);
  }

  /** A fan-out with a skipped branch has one that failed. */
  lemma {:induction false} CancelledBy(t: Thread) returns (i: nat)
    requires AllBranchesEnded(t) && Cancelled(t.opts, t.children)
    ensures i < |t.children| && t.children[i].Done? && !Results(t.children)[i].Returned?
  {
    var cs := t.children;
    i :| 0 <= i < |cs| && cs[i].Done? && (cs[i].outcome.Yielded? || (cs[i].outcome.Errored? && !t.opts.settled));
  }

  // --------------------------------------------------- the condition is sufficient

  /** When one failure is the only one and some branch cannot avoid it, it is the verdict. */
  lemma {:induction false} AgreedFailure(
    x: Exec, path: seq<Element>, p: Prog, cnt: Counters, t: Thread, j: nat, f: Outcome)
    requires IsLimitedFan(p) && Tracks(x, path, p, cnt, t) && AllBranchesEnded(t)
    requires FailuresAgree(x, path, p) && SomeMustFail(x, path, p) && CanEnd(x, path, p, j, f) && !f.Returned?
    ensures VerdictOf(t) == FailureVerdict(f)
  {
    var rs, cs := Results(t.children), t.children;
    forall i | 0 <= i < |rs| ensures rs[i].Returned? || rs[i] == f { EndedBranch(x, path, p, cnt, t, i); }
    if s :| 0 <= s < |cs| && cs[s].Skipped? {
      var i := CancelledBy(t);
      assert rs[i] == f;
    } else {
      var i :| 0 <= i < |p.branches| && !CanReturn(x, path, p, i);
      EndedBranch(x, path, p, cnt, t, i);
      assert rs[i] == f;
    }
    CombineOneFailure(rs, f);
  }

  /** When nothing can fail, nothing is skipped, and every branch ends the one way it can. */
  lemma {:induction false} AgreedResults(x: Exec, path: seq<Element>, p: Prog, cnt: Counters, t: Thread, u: Thread)
    requires IsLimitedFan(p) && Tracks(x, path, p, cnt, t) && AllBranchesEnded(t)
    requires Tracks(x, path, p, cnt, u) && AllBranchesEnded(u)
    requires !CanFail(x, path, p) && OneOutcomeEach(x, path, p)
    ensures VerdictOf(t) == VerdictOf(u)
  {
    NothingSkipped(x, path, p, cnt, t);
    NothingSkipped(x, path, p, cnt, u);
    forall i | 0 <= i < |t.children| ensures Results(t.children)[i] == Results(u.children)[i] {
      EndedBranch(x, path, p, cnt, t, i);
      EndedBranch(x, path, p, cnt, u, i);
    }
    assert Results(t.children) == Results(u.children);
  }

  lemma {:induction false} NothingSkipped(x: Exec, path: seq<Element>, p: Prog, cnt: Counters, t: Thread)
    requires IsLimitedFan(p) && Tracks(x, path, p, cnt, t) && AllBranchesEnded(t) && !CanFail(x, path, p)
    ensures forall i | 0 <= i < |t.children| :: !t.children[i].Skipped?
  {
    if i :| 0 <= i < |t.children| && t.children[i].Skipped? {
      var f := CancelledBy(t);
      EndedBranch(x, path, p, cnt, t, f);
      assert false;
    }
  }

  lemma {:induction false} AgreedVerdict(x: Exec, path: seq<Element>, p: Prog, cnt: Counters, t: Thread, u: Thread)
    requires IsLimitedFan(p) && OneVerdict(x, path, p)
    requires Tracks(x, path, p, cnt, t) && AllBranchesEnded(t) && Tracks(x, path, p, cnt, u) && AllBranchesEnded(u)
    ensures VerdictOf(t) == VerdictOf(u)
  {
    if CanFail(x, path, p) {
      var j: nat, f :| CanEnd(x, path, p, j, f) && !f.Returned?;
      AgreedFailure(x, path, p, cnt, t, j, f);
      AgreedFailure(x, path, p, cnt, u, j, f);
    } else {
      AgreedResults(x, path, p, cnt, t, u);
    }
  }

  // ------------------------------------------------------------ putting runs together

  lemma {:induction false} ConcatRuns(
    x: Exec, path: seq<Element>, ts: seq<Thread>, logs: seq<seq<Entry>>, us: seq<Thread>, mogs: seq<seq<Entry>>)
    requires IsRun(x, path, ts, logs) && IsRun(x, path, us, mogs) && ts[|logs|] == us[0]
    ensures IsRun(x, path, ts + us[1..], logs + mogs)
    ensures (ts + us[1..])[0] == ts[0] && (ts + us[1..])[|logs + mogs|] == us[|mogs|]
    ensures AllOpen(ts, |logs|) && AllOpen(us, |mogs|) ==> AllOpen(ts + us[1..], |logs + mogs|)
  {
    var vs, both := ts + us[1..], logs + mogs;
    assert forall m | 0 <= m < |both| :: vs[m] == if m < |logs| then ts[m] else us[m - |logs|];
    forall i | 0 <= i < |both| ensures StepTo(x, path, vs[i], both[i], vs[i + 1]) {
      if i < |logs| {
        assert StepTo(x, path, ts[i], logs[i], ts[i + 1]);
      } else {
        var j := i - |logs|;
        assert StepTo(x, path, us[j], mogs[j], us[j + 1]);
        assert vs[i] == us[j] && vs[i + 1] == us[j + 1];
      }
    }
  }

  /** A step of branch i is a step of its fan-out, which has not ended yet. */
  lemma {:induction false} LiftStep(
    x: Exec, path: seq<Element>, t: Thread, i: nat, c: Thread, log: seq<Entry>, c': Thread)
    requires t.Forked? && i < |t.children| && StepTo(x, Branch(path, t.name, i), c, log, c')
    ensures var u, u' := t.(children := t.children[i := c]), t.(children := t.children[i := c']);
            StepTo(x, path, u, log, u') && u.Forked? && !AllBranchesEnded(u)
  {
    var u, u' := t.(children := t.children[i := c]), t.(children := t.children[i := c']);
    assert u' == u.(children := u.children[i := c']);
    assert u.children[i] == c;
    NeverBecomesSkipped(x, Branch(path, t.name, i), c, log, c');
  }

  lemma {:induction false} LiftRun(
    x: Exec, path: seq<Element>, t: Thread, i: nat, ts: seq<Thread>, logs: seq<seq<Entry>>)
    requires t.Forked? && i < |t.children| && IsRun(x, Branch(path, t.name, i), ts, logs)
    ensures IsRun(x, path, Lifted(t, i, ts), logs) && AllOpen(Lifted(t, i, ts), |logs|)
  {
    var us := Lifted(t, i, ts);
    forall n | 0 <= n < |logs|
      ensures StepTo(x, path, us[n], logs[n], us[n + 1]) && us[n].Forked? && !AllBranchesEnded(us[n])
    {
      LiftAt(x, path, t, i, ts, logs, n);
    }
  }

  lemma {:induction false} LiftAt(
    x: Exec, path: seq<Element>, t: Thread, i: nat, ts: seq<Thread>, logs: seq<seq<Entry>>, n: nat)
    requires t.Forked? && i < |t.children| && IsRun(x, Branch(path, t.name, i), ts, logs) && n < |logs|
    ensures var us := Lifted(t, i, ts);
            StepTo(x, path, us[n], logs[n], us[n + 1]) && us[n].Forked? && !AllBranchesEnded(us[n])
  {
    assert StepTo(x, Branch(path, t.name, i), ts[n], logs[n], ts[n + 1]);
    LiftStep(x, path, t, i, ts[n], logs[n], ts[n + 1]);
  }

  ghost function Lifted(t: Thread, i: nat, ts: seq<Thread>): seq<Thread>
    requires t.Forked? && i < |t.children|
  {
    seq(|ts|, n requires 0 <= n < |ts| => t.(children := t.children[i := ts[n]]))
  }

  /** A stretch of a schedule from `t` to `u`, before which wg.Wait cannot return. */
  ghost predicate Stretch(x: Exec, path: seq<Element>, t: Thread, u: Thread, ts: seq<Thread>, logs: seq<seq<Entry>>) {
    IsRun(x, path, ts, logs) && ts[0] == t && ts[|logs|] == u && AllOpen(ts, |logs|)
  }

  lemma {:induction false} Stretches(
    x: Exec, path: seq<Element>, t: Thread, u: Thread, v: Thread, ts: seq<Thread>, logs: seq<seq<Entry>>,
    us: seq<Thread>, mogs: seq<seq<Entry>>)
    requires Stretch(x, path, t, u, ts, logs) && Stretch(x, path, u, v, us, mogs)
    ensures Stretch(x, path, t, v, ts + us[1..], logs + mogs)
  {
    ConcatRuns(x, path, ts, logs, us, mogs);
  }

  /** A queued branch leaves the queue while no other runs. */
  lemma {:induction false} DequeueStretch(x: Exec, path: seq<Element>, t: Thread, i: nat, c': Thread)
    requires t.Forked? && i < |t.children| && Dequeue(t.opts, t.children, i, c')
    ensures var u := t.(children := t.children[i := c']); Stretch(x, path, t, u, [t, u], [[]])
  {
    var u := t.(children := t.children[i := c']);
    assert StepTo(x, path, t, [], u);
    assert !Ended(t.children[i]);
    assert IsRun(x, path, [t, u], [[]]);
  }

  ghost predicate NoneAtWork(cs: seq<Thread>) {
    forall i | 0 <= i < |cs| :: !cs[i].Active? && !cs[i].Forked?
  }

  /** A branch that starts while no other runs can go on alone to wherever its own run leads. */
  lemma {:induction false} BranchAlone(
    x: Exec, path: seq<Element>, t: Thread, i: nat, solo: seq<Thread>, soloLogs: seq<seq<Entry>>, c': Thread)
    returns (ts: seq<Thread>, logs: seq<seq<Entry>>)
    requires t.Forked? && i < |t.children| && t.children[i].Queued? && NoneAtWork(t.children)
    requires !(t.opts.limit > 0 && !t.opts.settled && Cancelled(t.opts, t.children))
    requires RunsTo(x, Branch(path, t.name, i), t.children[i].prog, solo, soloLogs, c')
    ensures Stretch(x, path, t, t.(children := t.children[i := c']), ts, logs)
  {
    var start := Active(map[], t.children[i].prog);
    NoneRunning(t.children);
    DequeueStretch(x, path, t, i, start);
    LiftRun(x, path, t, i, solo, soloLogs);
    var u, lifted := t.(children := t.children[i := start]), Lifted(t, i, solo);
    assert Stretch(x, path, u, t.(children := t.children[i := c']), lifted, soloLogs);
    Stretches(x, path, t, u, t.(children := t.children[i := c']), [t, u], [[]], lifted, soloLogs);
    ts, logs := [t, u] + lifted[1..], [[]] + soloLogs;
  }

  // ------------------------------------------------------------- every handler can end

  /** From every start, some schedule runs to an end, however limits and fan-outs nest. */
  lemma {:induction false} CanFinish(x: Exec, path: seq<Element>, cnt: Counters, p: Prog)
    returns (ts: seq<Thread>, logs: seq<seq<Entry>>, o: Outcome)
    ensures IsRun(x, path, ts, logs) && ts[0] == Active(cnt, p) && ts[|logs|] == Done(o)
    decreases p, 2
  {
    var t := Active(cnt, p);
    var (log, t') := Advance(x, path, cnt, p);
    assert StepTo(x, path, t, log, t');
    assert IsRun(x, path, [t, t'], [log]);
    ts, logs := [t, t'], [log];
    if t'.Done? {
      o := t'.outcome;
    } else {
      var us, mogs;
      if t'.Active? {
        us, mogs, o := FinishNext(x, path, cnt, p, t');
      } else {
        us, mogs, o := FinishFan(x, path, cnt, p);
      }
      ConcatRuns(x, path, ts, logs, us, mogs);
      ts, logs := ts + us[1..], logs + mogs;
    }
  }

  /** A continuation of `p`. */
  ghost predicate ContinuationOf(p: Prog, q: Prog) {
    (p.Step? || p.Fan?) && exists r :: q == Cont(p.k, r)
  }

  lemma {:induction false} FinishNext(x: Exec, path: seq<Element>, cnt: Counters, p: Prog, t: Thread)
    returns (ts: seq<Thread>, logs: seq<seq<Entry>>, o: Outcome)
    requires t.Active? && ContinuationOf(p, t.prog)
    ensures IsRun(x, path, ts, logs) && ts[0] == t && ts[|logs|] == Done(o)
    decreases p, 0
  {
    var r :| t.prog == Cont(p.k, r);
    if r in p.k {
      ts, logs, o := CanFinish(x, path, t.cnt, p.k[r]);
    } else {
      o := Errored(UNHANDLED);
      ts, logs := [t, Done(o)], [[]];
      assert StepTo(x, path, t, [], Done(o));
    }
  }

  lemma {:induction false} FinishFan(x: Exec, path: seq<Element>, cnt: Counters, p: Prog)
    returns (ts: seq<Thread>, logs: seq<seq<Entry>>, o: Outcome)
    requires p.Fan?
    ensures IsRun(x, path, ts, logs) && ts[0] == ForkedFrom(cnt, p) && ts[|logs|] == Done(o)
    decreases p, 1
  {
    var t := ForkedFrom(cnt, p);
    var u;
    ts, logs, u := FinishBranches(x, path, p, t, 0);
    var v := Durable.Joined(u);
    assert StepTo(x, path, u, [], v);
    assert IsRun(x, path, [u, v], [[]]);
    ConcatRuns(x, path, ts, logs, [u, v], [[]]);
    ts, logs := ts + [u, v][1..], logs + [[]];
    if v.Done? {
      o := v.outcome;
    } else {
      var us, mogs;
      us, mogs, o := FinishNext(x, path, cnt, p, v);
      ConcatRuns(x, path, ts, logs, us, mogs);
      ts, logs := ts + us[1..], logs + mogs;
    }
  }

  /** The fan-out of `p`, with the branches before `n` ended and the others queued. */
  ghost predicate EndedBefore(p: Prog, t: Thread, n: nat) {
    && p.Fan? && t.Forked? && t.name == p.name && t.opts == p.opts && t.k == p.k
    && n <= |t.children| == |p.branches|
    && (forall i | 0 <= i < n :: Ended(t.children[i]))
    && (forall i | n <= i < |t.children| :: t.children[i] == Queued(p.branches[i]))
  }

  lemma {:induction false} FinishBranches(x: Exec, path: seq<Element>, p: Prog, t: Thread, n: nat)
    returns (ts: seq<Thread>, logs: seq<seq<Entry>>, u: Thread)
    requires EndedBefore(p, t, n)
    ensures IsRun(x, path, ts, logs) && ts[0] == t && ts[|logs|] == u
    ensures AllBranchesEnded(u) && u.k == t.k && u.cnt == t.cnt
    decreases p, 0, |t.children| - n
  {
    if n == |t.children| {
      ts, logs, u := [t], [], t;
    } else {
      var us, mogs, c := FinishBranch(x, path, p, t, n);
      var t' := t.(children := t.children[n := c]);
      ts, logs, u := FinishBranches(x, path, p, t', n + 1);
      ConcatRuns(x, path, us, mogs, ts, logs);
      ts, logs := us + ts[1..], mogs + logs;
    }
  }

  lemma {:induction false} FinishBranch(x: Exec, path: seq<Element>, p: Prog, t: Thread, n: nat)
    returns (ts: seq<Thread>, logs: seq<seq<Entry>>, c: Thread)
    requires EndedBefore(p, t, n) && n < |t.children|
    ensures Ended(c) && Stretch(x, path, t, t.(children := t.children[n := c]), ts, logs)
    decreases p, 0, 0
  {
    var cs := t.children;
    assert NoneAtWork(cs);
    if t.opts.limit > 0 && !t.opts.settled && Cancelled(t.opts, cs) {
      NoneRunning(cs);
      c := Skipped;
      DequeueStretch(x, path, t, n, c);
      ts, logs := [t, t.(children := cs[n := c])], [[]];
    } else {
      var solo, soloLogs, o := CanFinish(x, Branch(path, p.name, n), map[], p.branches[n]);
      c := Done(o);
      ts, logs := BranchAlone(x, path, t, n, solo, soloLogs, c);
    }
  }

  lemma {:induction false} SomeOutcome(x: Exec, path: seq<Element>, p: Prog, i: nat) returns (o: Outcome)
    requires p.Fan? && i < |p.branches|
    ensures CanEnd(x, path, p, i, o)
  {
    var ts, logs;
    ts, logs, o := CanFinish(x, Branch(path, p.name, i), map[], p.branches[i]);
    assert RunsTo(x, Branch(path, p.name, i), p.branches[i], ts, logs, Done(o));
  }

  // ---------------------------------------------------- the condition is necessary

  /** Once branch `i` has failed, every branch still queued can be skipped. */
  lemma {:induction false} SkipRest(x: Exec, path: seq<Element>, t: Thread, i: nat, n: nat)
    returns (ts: seq<Thread>, logs: seq<seq<Entry>>, last: Thread)
    requires t.Forked? && t.opts.limit > 0 && !t.opts.settled && i < |t.children| && n <= |t.children|
    requires t.children[i].Done? && !t.children[i].outcome.Returned?
    requires forall j | 0 <= j < |t.children| && j != i :: t.children[j] == Skipped || (j >= n && t.children[j].Queued?)
    ensures Stretch(x, path, t, last, ts, logs) && AllBranchesEnded(last)
    ensures last.opts == t.opts && |last.children| == |t.children| && last.children[i] == t.children[i]
    ensures forall j | 0 <= j < |t.children| && j != i :: last.children[j] == Skipped
    decreases |t.children| - n
  {
    var cs := t.children;
    if n == |cs| {
      ts, logs, last := [t], [], t;
    } else if n == i || cs[n] == Skipped {
      ts, logs, last := SkipRest(x, path, t, i, n + 1);
    } else {
      assert NoneAtWork(cs);
      NoneRunning(cs);
      assert Cancelled(t.opts, cs) by { assert cs[i].Done?; }
      DequeueStretch(x, path, t, n, Skipped);
      var t' := t.(children := cs[n := Skipped]);
      var us, mogs;
      us, mogs, last := SkipRest(x, path, t', i, n + 1);
      Stretches(x, path, t, t', last, [t, t'], [[]], us, mogs);
      ts, logs := [t, t'] + us[1..], [[]] + mogs;
    }
  }

  /** The schedule in which branch `i` runs first, fails, and all others are skipped. */
  lemma {:induction false} FirstFails(x: Exec, path: seq<Element>, cnt: Counters, p: Prog, i: nat, o: Outcome)
    returns (ts: seq<Thread>, logs: seq<seq<Entry>>)
    requires IsLimitedFan(p) && CanEnd(x, path, p, i, o) && !o.Returned?
    ensures Schedules(x, path, cnt, p, ts, logs) && VerdictOf(ts[|logs|]) == FailureVerdict(o)
  {
    var t := ForkedFrom(cnt, p);
    var solo, soloLogs :| RunsTo(x, Branch(path, p.name, i), p.branches[i], solo, soloLogs, Done(o));
    assert t.children[i] == Queued(p.branches[i]) && NoneAtWork(t.children);
    var us, mogs := BranchAlone(x, path, t, i, solo, soloLogs, Done(o));
    var failed := t.(children := t.children[i := Done(o)]);
    var rest, restLogs, last := SkipRest(x, path, failed, i, 0);
    Stretches(x, path, t, failed, last, us, mogs, rest, restLogs);
    ts, logs := us + rest[1..], mogs + restLogs;
    var rs := Results(last.children);
    assert rs[i] == o;
    CombineOneFailure(rs, o);
  }

  /** Branches before `n` have returned these outcomes, the others are queued. */
  ghost predicate ReturnedBefore(p: Prog, t: Thread, os: seq<Outcome>, n: nat) {
    && EndedBefore(p, t, n) && |os| == |p.branches|
    && forall i | 0 <= i < n :: t.children[i] == Done(os[i])
  }

  lemma {:induction false} ReturnRest(x: Exec, path: seq<Element>, p: Prog, t: Thread, os: seq<Outcome>, n: nat)
    returns (ts: seq<Thread>, logs: seq<seq<Entry>>, last: Thread)
    requires IsLimitedFan(p) && ReturnedBefore(p, t, os, n)
    requires forall i | 0 <= i < |os| :: os[i].Returned? && CanEnd(x, path, p, i, os[i])
    ensures Stretch(x, path, t, last, ts, logs) && ReturnedBefore(p, last, os, |os|)
    decreases |os| - n
  {
    if n == |os| {
      ts, logs, last := [t], [], t;
    } else {
      assert NoneAtWork(t.children) && !Cancelled(t.opts, t.children);
      assert CanEnd(x, path, p, n, os[n]);
      var solo, soloLogs :| RunsTo(x, Branch(path, p.name, n), p.branches[n], solo, soloLogs, Done(os[n]));
      var us, mogs := BranchAlone(x, path, t, n, solo, soloLogs, Done(os[n]));
      var t' := t.(children := t.children[n := Done(os[n])]);
      ts, logs, last := ReturnRest(x, path, p, t', os, n + 1);
      Stretches(x, path, t, t', last, us, mogs, ts, logs);
      ts, logs := us + ts[1..], mogs + logs;
    }
  }

  /** The schedule in which the branches run one after the other and return these outcomes. */
  lemma {:induction false} AllReturn(x: Exec, path: seq<Element>, cnt: Counters, p: Prog, os: seq<Outcome>)
    returns (ts: seq<Thread>, logs: seq<seq<Entry>>)
    requires IsLimitedFan(p) && |os| == |p.branches|
    requires forall i | 0 <= i < |os| :: os[i].Returned? && CanEnd(x, path, p, i, os[i])
    ensures Schedules(x, path, cnt, p, ts, logs) && VerdictOf(ts[|logs|]) == Combine(false, os)
  {
    var t, last := ForkedFrom(cnt, p), Skipped;
    ts, logs, last := ReturnRest(x, path, p, t, os, 0);
    assert Results(last.children) == os;
  }

  /** Two schedules that disagree. */
  ghost predicate Disagree(x: Exec, path: seq<Element>, cnt: Counters, p: Prog)
    requires p.Fan?
  {
    exists ts, logs, us, mogs | Schedules(x, path, cnt, p, ts, logs) && Schedules(x, path, cnt, p, us, mogs) ::
      VerdictOf(ts[|logs|]) != VerdictOf(us[|mogs|])
  }

  lemma {:induction false} FailuresDiffer(x: Exec, path: seq<Element>, cnt: Counters, p: Prog)
    requires IsLimitedFan(p) && !FailuresAgree(x, path, p)
    ensures Disagree(x, path, cnt, p)
  {
    var i: nat, o, j: nat, q :|
      CanEnd(x, path, p, i, o) && CanEnd(x, path, p, j, q) && !o.Returned? && !q.Returned? && o != q;
    var ts, logs := FirstFails(x, path, cnt, p, i, o);
    var us, mogs := FirstFails(x, path, cnt, p, j, q);
    assert VerdictOf(ts[|logs|]) != VerdictOf(us[|mogs|]);
  }

  lemma {:induction false} ReturningOutcomes(x: Exec, path: seq<Element>, p: Prog, n: nat) returns (os: seq<Outcome>)
    requires p.Fan? && n <= |p.branches| && forall i | 0 <= i < n :: CanReturn(x, path, p, i)
    ensures |os| == n && forall i | 0 <= i < n :: os[i].Returned? && CanEnd(x, path, p, i, os[i])
  {
    os := [];
    if n > 0 {
      os := ReturningOutcomes(x, path, p, n - 1);
      var m := n - 1;
      assert CanReturn(x, path, p, m);
      var o :| CanEnd(x, path, p, m, o) && o.Returned?;
      os := os + [o];
    }
  }

  lemma {:induction false} FailureAvoidable(x: Exec, path: seq<Element>, cnt: Counters, p: Prog)
    requires IsLimitedFan(p) && CanFail(x, path, p) && !SomeMustFail(x, path, p)
    ensures Disagree(x, path, cnt, p)
  {
    var i: nat, o :| CanEnd(x, path, p, i, o) && !o.Returned?;
    var ts, logs := FirstFails(x, path, cnt, p, i, o);
    var os := ReturningOutcomes(x, path, p, |p.branches|);
    var us, mogs := AllReturn(x, path, cnt, p, os);
    CombineNoFailure(os);
    assert VerdictOf(ts[|logs|]) != VerdictOf(us[|mogs|]);
  }

  lemma {:induction false} ResultsDiffer(x: Exec, path: seq<Element>, cnt: Counters, p: Prog)
    requires IsLimitedFan(p) && !CanFail(x, path, p) && !OneOutcomeEach(x, path, p)
    ensures Disagree(x, path, cnt, p)
  {
    var i: nat, o, q :| CanEnd(x, path, p, i, o) && CanEnd(x, path, p, i, q) && o != q;
    forall j | 0 <= j < |p.branches| ensures CanReturn(x, path, p, j) { var _ := SomeOutcome(x, path, p, j); }
    var os := ReturningOutcomes(x, path, p, |p.branches|);
    var ts, logs := AllReturn(x, path, cnt, p, os[i := o]);
    var us, mogs := AllReturn(x, path, cnt, p, os[i := q]);
    CombineNoFailure(os[i := o]);
    CombineNoFailure(os[i := q]);
    assert os[i := o][i] == o && os[i := q][i] == q;
    assert VerdictOf(ts[|logs|]) != VerdictOf(us[|mogs|]);
  }

  // -------------------------------------------------------------- main results

  /** Under a limit and failFast, whatever the branches hold, all schedules reach one verdict if and
      only if every failure any branch can end with is the same and some branch cannot avoid it, or
      no branch can fail and each can end only one way. */
  lemma {:induction false} LimitedVerdictIff(x: Exec, path: seq<Element>, cnt: Counters, p: Prog)
    requires IsLimitedFan(p)
    ensures !Disagree(x, path, cnt, p) <==> OneVerdict(x, path, p)
  {
    if OneVerdict(x, path, p) {
      forall ts, logs, us, mogs | Schedules(x, path, cnt, p, ts, logs) && Schedules(x, path, cnt, p, us, mogs)
        ensures VerdictOf(ts[|logs|]) == VerdictOf(us[|mogs|])
      {
        RunTracks(x, path, p, cnt, ts, logs, |logs|);
        RunTracks(x, path, p, cnt, us, mogs, |mogs|);
        AgreedVerdict(x, path, p, cnt, ts[|logs|], us[|mogs|]);
      }
    } else if !CanFail(x, path, p) {
      ResultsDiffer(x, path, cnt, p);
    } else if !FailuresAgree(x, path, p) {
      FailuresDiffer(x, path, cnt, p);
    } else {
      FailureAvoidable(x, path, cnt, p);
    }
  }

  /** What each branch does when it runs, if its own fan-outs skip nothing. */
  ghost function BranchOutcomes(x: Exec, path: seq<Element>, p: Prog): seq<Outcome>
    requires p.Fan?
  {
    var bs, name := p.branches, p.name;
    seq(|bs|, i requires 0 <= i < |bs| => Eval(x, Branch(path, name, i), map[], bs[i]).outcome)
  }

  /** Such a branch ends with its sequential outcome and no other. */
  lemma {:induction false} SingleOutcome(x: Exec, path: seq<Element>, p: Prog, i: nat, o: Outcome)
    requires p.Fan? && i < |p.branches| && NoSkips(p.branches[i])
    ensures CanEnd(x, path, p, i, o) <==> o == BranchOutcomes(x, path, p)[i]
  {
    var q := SomeOutcome(x, path, p, i);
    EndsAsEval(x, path, p, i, q);
    if CanEnd(x, path, p, i, o) { EndsAsEval(x, path, p, i, o); }
  }

  lemma {:induction false} EndsAsEval(x: Exec, path: seq<Element>, p: Prog, i: nat, o: Outcome)
    requires p.Fan? && i < |p.branches| && NoSkips(p.branches[i]) && CanEnd(x, path, p, i, o)
    ensures o == BranchOutcomes(x, path, p)[i]
  {
    var scope := Branch(path, p.name, i);
    var ts, logs :| RunsTo(x, scope, p.branches[i], ts, logs, Done(o));
    RunConsumes(x, scope, ts, logs);
  }

  ghost predicate OneFailure(os: seq<Outcome>) {
    forall i, j | 0 <= i < |os| && 0 <= j < |os| && !os[i].Returned? && !os[j].Returned? :: os[i] == os[j]
  }

  /** So with branches that skip nothing, the verdict is one exactly when all branches that fail fail
      the same way. */
  lemma {:induction false} PlainVerdictIff(x: Exec, path: seq<Element>, cnt: Counters, p: Prog)
    requires IsLimitedFan(p) && forall i | 0 <= i < |p.branches| :: NoSkips(p.branches[i])
    ensures !Disagree(x, path, cnt, p) <==> OneFailure(BranchOutcomes(x, path, p))
  {
    LimitedVerdictIff(x, path, cnt, p);
    var os := BranchOutcomes(x, path, p);
    forall i: nat, o | i < |p.branches| ensures CanEnd(x, path, p, i, o) <==> o == os[i] {
      SingleOutcome(x, path, p, i, o);
    }
    PlainCondition(x, path, p, os);
  }

  lemma {:induction false} PlainCondition(x: Exec, path: seq<Element>, p: Prog, os: seq<Outcome>)
    requires p.Fan? && |os| == |p.branches|
    requires forall i: nat, o | i < |p.branches| :: CanEnd(x, path, p, i, o) <==> o == os[i]
    ensures OneVerdict(x, path, p) <==> OneFailure(os)
  {
    forall i | 0 <= i < |os| ensures CanEnd(x, path, p, i, os[i]) {}
    if CanFail(x, path, p) {
      var i: nat, o :| CanEnd(x, path, p, i, o) && !o.Returned?;
      assert !CanReturn(x, path, p, i);
    } else {
      assert forall i | 0 <= i < |os| :: os[i].Returned?;
    }
  }
}
