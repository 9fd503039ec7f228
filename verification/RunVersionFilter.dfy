/** RunVersionFilter (ironflow/run_events.go).

    A bounded filter that drops frames older than one already seen for their run or step, and
    late frames of deleted runs.  It is compared with the same filter with unlimited memory. */
module RunVersionFilter {
  import opened Optional

  const DEFAULT_MAX_RUNS := 10_000

  const TOMBSTONE := -1

  /** A frame; `version` is its payload's version, None when the payload does not decode. */
  datatype Frame = Frame(topic: string, version: Option<int>)

  // --------------------------------------------------------------------- topics

  /** strings.Split(s, "."). */
  function Split(s: string): (parts: seq<string>)
    ensures parts != []
  {
    if s == "" then [""]
    else
      var rest := Split(s[1..]);
      if s[0] == '.' then [""] + rest else [[s[0]] + rest[0]] + rest[1..]
  }

  /** strings.Join(parts, "."). */
  function Join(parts: seq<string>): string
    requires parts != []
  {
    if |parts| == 1 then parts[0] else parts[0] + "." + Join(parts[1..])
  }

  predicate NoDots(s: string) {
    forall i | 0 <= i < |s| :: s[i] != '.'
  }

  datatype Subject = Other | RunFrame(run: string, deleted: bool) | StepFrame(run: string, key: string)

  /** system.run.{runID}.{event} or system.run.{runID}.step.{stepID}.{event}. */
  function SubjectOf(topic: string): Subject {
    var parts := Split(topic);
    var isStep := |parts| >= 6 && parts[3] == "step";
    if (!isStep && |parts| != 4) || parts[0] != "system" || parts[1] != "run" then Other
    else if isStep then StepFrame(parts[2], Join(parts[2..|parts| - 1]))
    else RunFrame(parts[2], parts[3] == "deleted")
  }

  function KeyOf(s: Subject): string
    requires !s.Other?
  {
    if s.StepFrame? then s.key else s.run
  }

  /** The run a remembered key belongs to. */
  function RunOf(key: string): string {
    Split(key)[0]
  }

  lemma {:induction false} SplitHasNoDots(s: string)
    ensures forall i | 0 <= i < |Split(s)| :: NoDots(Split(s)[i])
  {
    if s != "" { SplitHasNoDots(s[1..]); }
  }

  lemma {:induction false} SplitHead(a: string, b: string)
    requires NoDots(a)
    ensures Split(a)[0] == a && Split(a + "." + b)[0] == a
  {
    if a == "" {
      assert a + "." + b == "." + b;
    } else {
      var s := a + "." + b;
      assert s[1..] == a[1..] + "." + b && s[0] == a[0];
      SplitHead(a[1..], b);
      assert a == [a[0]] + a[1..];
    }
  }

  /** A frame's key names its run. */
  lemma KeyNamesRun(topic: string)
    requires !SubjectOf(topic).Other?
    ensures RunOf(KeyOf(SubjectOf(topic))) == SubjectOf(topic).run
    ensures RunOf(SubjectOf(topic).run) == SubjectOf(topic).run
  {
    var parts := Split(topic);
    SplitHasNoDots(topic);
    SplitHead(parts[2], "");
    if SubjectOf(topic).StepFrame? {
      var ps := parts[2..|parts| - 1];
      SplitHead(parts[2], Join(ps[1..]));
      assert Join(ps) == ps[0] + "." + Join(ps[1..]);
    }
  }

  lemma {:induction false} JoinSplit(s: string)
    ensures Join(Split(s)) == s
  {
    if s != "" {
      JoinSplit(s[1..]);
      var rest := Split(s[1..]);
      assert s == [s[0]] + s[1..];
      if s[0] == '.' {
        assert ([""] + rest)[1..] == rest;
      } else {
        var parts := [[s[0]] + rest[0]] + rest[1..];
        assert parts[1..] == rest[1..];
        if |rest| > 1 { assert [s[0]] + (rest[0] + "." + Join(rest[1..])) == [s[0]] + rest[0] + "." + Join(rest[1..]); }
      }
    }
  }

  lemma {:induction false} SplitFirst(a: string, b: string)
    requires NoDots(a)
    ensures Split(a) == [a] && Split(a + "." + b) == [a] + Split(b)
  {
    if a == "" {
      assert a + "." + b == "." + b && ("." + b)[1..] == b;
    } else {
      var s := a + "." + b;
      assert s[1..] == a[1..] + "." + b && s[0] == a[0];
      SplitFirst(a[1..], b);
      assert a == [a[0]] + a[1..];
      assert ([a[1..]] + Split(b))[1..] == Split(b);
    }
  }

  lemma {:induction false} SplitJoin(parts: seq<string>)
    requires parts != [] && forall i | 0 <= i < |parts| :: NoDots(parts[i])
    ensures Split(Join(parts)) == parts
  {
    if |parts| == 1 {
      SplitFirst(parts[0], "");
    } else {
      SplitJoin(parts[1..]);
      SplitFirst(parts[0], Join(parts[1..]));
      assert parts == [parts[0]] + parts[1..];
    }
  }

  /** The topic system.run.{run}.{event}. */
  lemma RunTopic(run: string, event: string)
    requires NoDots(run) && NoDots(event)
    ensures SubjectOf(Join(["system", "run", run, event])) == RunFrame(run, event == "deleted")
    ensures KeyOf(SubjectOf(Join(["system", "run", run, event]))) == run
  {
    SplitJoin(["system", "run", run, event]);
  }

  /** The topic system.run.{run}.step.{id}.{event}, whose step id may hold dots. */
  lemma StepTopic(run: string, id: seq<string>, event: string)
    requires NoDots(run) && NoDots(event) && id != [] && forall i | 0 <= i < |id| :: NoDots(id[i])
    ensures SubjectOf(Join(["system", "run", run, "step"] + id + [event])) == StepFrame(run, Join([run, "step"] + id))
    ensures KeyOf(SubjectOf(Join(["system", "run", run, "step"] + id + [event]))) == Join([run, "step"] + id)
  {
    var parts := ["system", "run", run, "step"] + id + [event];
    StepParts(run, id, event, parts);
    SplitJoin(parts);
    StepSubject(Join(parts), parts);
  }

  lemma StepParts(run: string, id: seq<string>, event: string, parts: seq<string>)
    requires NoDots(run) && NoDots(event) && id != [] && forall i | 0 <= i < |id| :: NoDots(id[i])
    requires parts == ["system", "run", run, "step"] + id + [event]
    ensures |parts| >= 6 && parts[0] == "system" && parts[1] == "run" && parts[2] == run && parts[3] == "step"
    ensures parts[2..|parts| - 1] == [run, "step"] + id
    ensures forall i | 0 <= i < |parts| :: NoDots(parts[i])
  {
    assert forall i | 0 <= i < |id| :: parts[i + 4] == id[i];
  }

  lemma StepSubject(topic: string, parts: seq<string>)
    requires Split(topic) == parts && |parts| >= 6
    requires parts[0] == "system" && parts[1] == "run" && parts[3] == "step"
    ensures SubjectOf(topic) == StepFrame(parts[2], Join(parts[2..|parts| - 1]))
  {
  }

  /** And no other topic is a frame of a run. */
  lemma OnlyRunTopics(topic: string)
    ensures SubjectOf(topic).RunFrame? ==>
              exists event :: NoDots(event) && NoDots(SubjectOf(topic).run)
                && topic == Join(["system", "run", SubjectOf(topic).run, event])
    ensures SubjectOf(topic).StepFrame? ==>
              exists id: seq<string>, event :: id != [] && NoDots(event)
                && topic == Join(["system", "run", SubjectOf(topic).run, "step"] + id + [event])
  {
    var parts := Split(topic);
    JoinSplit(topic);
    SplitHasNoDots(topic);
    if SubjectOf(topic).RunFrame? {
      assert parts == ["system", "run", parts[2], parts[3]] && NoDots(parts[3]);
    } else if SubjectOf(topic).StepFrame? {
      var n := |parts| - 1;
      assert parts == ["system", "run", parts[2], "step"] + parts[4..n] + [parts[n]] && NoDots(parts[n]);
    }
  }

  // -------------------------------------------------------------------- deciding

  type Versions = map<string, int>

  datatype Verdict = Drop | Pass | Remember(key: string, version: int)

  predicate Tombstoned(seen: Versions, run: string) {
    run in seen && seen[run] == TOMBSTONE
  }

  /** What a filter that remembers `seen` does with a frame. */
  function Decide(seen: Versions, f: Frame): Verdict {
    var s := SubjectOf(f.topic);
    if s.Other? then Pass
    else
      var deleted := s.RunFrame? && s.deleted;
      var key := KeyOf(s);
      if !deleted && Tombstoned(seen, s.run) then Drop
      else if deleted then Remember(key, TOMBSTONE)
      else if f.version.None? || f.version.value < 1 then Pass
      else if key in seen && f.version.value < seen[key] then Drop
      else Remember(key, f.version.value)
  }

  /** The filter with unlimited memory. */
  function Unbounded(seen: Versions, f: Frame): Versions {
    var v := Decide(seen, f);
    if v.Remember? then seen[v.key := v.version] else seen
  }

  /** The bounded filter: the versions and the keys, least recently seen first. */
  datatype Bounded = Bounded(highest: Versions, recency: seq<string>)

  function Without(keys: seq<string>, key: string): seq<string> {
    if keys == [] then []
    else if keys[0] == key then keys[1..]
    else [keys[0]] + Without(keys[1..], key)
  }

  function Evict(limit: nat, b: Bounded): Bounded
    decreases |b.recency|
  {
    if |b.recency| <= limit then b
    else Evict(limit, Bounded(b.highest - {b.recency[0]}, b.recency[1..]))
  }

  function BoundedNext(limit: nat, b: Bounded, f: Frame): Bounded {
    var v := Decide(b.highest, f);
    if !v.Remember? then b
    else if v.key in b.highest then
      Bounded(b.highest[v.key := v.version], Without(b.recency, v.key) + [v.key])
    else Evict(limit, Bounded(b.highest[v.key := v.version], b.recency + [v.key]))
  }

  /** Map and recency list hold the same keys, each once. */
  ghost predicate Agree(b: Bounded) {
    && (forall k :: k in b.highest <==> k in b.recency)
    && (forall i, j | 0 <= i < j < |b.recency| :: b.recency[i] != b.recency[j])
  }

  lemma {:induction false} WithoutKeeps(keys: seq<string>, key: string)
    requires key in keys && forall i, j | 0 <= i < j < |keys| :: keys[i] != keys[j]
    ensures |Without(keys, key)| == |keys| - 1
    ensures forall k :: k in Without(keys, key) <==> k in keys && k != key
    ensures var w := Without(keys, key); forall i, j | 0 <= i < j < |w| :: w[i] != w[j]
  {
    if keys[0] != key {
      var rest := keys[1..];
      forall i, j | 0 <= i < j < |rest| ensures rest[i] != rest[j] { assert keys[i + 1] != keys[j + 1]; }
      WithoutKeeps(rest, key);
      assert forall k :: k in keys <==> k == keys[0] || k in rest;
      forall k ensures k in Without(keys, key) <==> k in keys && k != key {
        assert k in Without(keys, key) <==> k == keys[0] || k in Without(rest, key);
      }
      assert keys[0] !in rest;
    } else {
      forall k ensures k in keys[1..] <==> k in keys && k != key {
        if k in keys && k != key {
          var i :| 0 <= i < |keys| && keys[i] == k;
          assert keys[1..][i - 1] == k;
        }
      }
    }
  }

  lemma {:induction false} EvictKeeps(limit: nat, b: Bounded)
    requires Agree(b)
    ensures var e := Evict(limit, b);
            && Agree(e) && (|e.recency| <= limit || e == b)
            && |e.recency| <= |b.recency|
            && (forall k | k in e.highest :: k in b.highest && e.highest[k] == b.highest[k])
            && (|b.recency| > limit ==> |e.recency| == limit)
    decreases |b.recency|
  {
    if |b.recency| > limit {
      var k0 := b.recency[0];
      var next := Bounded(b.highest - {k0}, b.recency[1..]);
      forall k ensures k in next.highest <==> k in next.recency {
        if k in b.recency && k != k0 {
          var i :| 0 <= i < |b.recency| && b.recency[i] == k;
          assert next.recency[i - 1] == k;
        }
      }
      EvictKeeps(limit, next);
    }
  }

  lemma BoundedKeeps(limit: nat, b: Bounded, f: Frame)
    requires Agree(b) && |b.recency| <= limit
    ensures Agree(BoundedNext(limit, b, f)) && |BoundedNext(limit, b, f).recency| <= limit
  {
    var v := Decide(b.highest, f);
    if v.Remember? {
      if v.key in b.highest {
        WithoutKeeps(b.recency, v.key);
      } else {
        EvictKeeps(limit, Bounded(b.highest[v.key := v.version], b.recency + [v.key]));
      }
    }
  }

  // ------------------------------------------------------------------- the class

  class Filter {
    const maxRuns: int
    var highest: Versions
    var recency: seq<string>

    function Limit(): nat {
      if maxRuns <= 0 then DEFAULT_MAX_RUNS else maxRuns
    }

    ghost function View(): Bounded
      reads this
    {
      Bounded(highest, recency)
    }

    ghost predicate Valid()
      reads this
    {
      Agree(View()) && |recency| <= Limit()
    }

    constructor (maxRuns: int)
      ensures Valid() && this.maxRuns == maxRuns && View() == Bounded(map[], [])
    {
      this.maxRuns, highest, recency := maxRuns, map[], [];
    }

    method Accept(f: Frame) returns (accepted: bool)
      requires Valid()
      modifies this
      ensures Valid()
      ensures accepted <==> !Decide(old(highest), f).Drop?
      ensures View() == BoundedNext(Limit(), old(View()), f)
    {
      BoundedKeeps(Limit(), View(), f);
      var s := SubjectOf(f.topic);
      if s.Other? { return true; }
      var deleted := s.RunFrame? && s.deleted;
      if s.run in highest && !deleted {
        if highest[s.run] == TOMBSTONE { return false; }
      }
      var key, version := KeyOf(s), TOMBSTONE;
      if !deleted {
        if f.version.None? || f.version.value < 1 { return true; }
        version := f.version.value;
      }
      if key in highest {
        if !deleted && version < highest[key] { return false; }
        highest := highest[key := version];
        recency := Without(recency, key) + [key];
        return true;
      }
      highest := highest[key := version];
      recency := recency + [key];
      ghost var pushed := View();
      while |recency| > Limit()
        invariant Evict(Limit(), View()) == Evict(Limit(), pushed)
        decreases |recency|
      {
        var oldest := recency[0];
        recency := recency[1..];
        highest := highest - {oldest};
      }
      return true;
    }
  }

  // ---------------------------------------------------------------- main results

  function RunBounded(limit: nat, b: Bounded, fs: seq<Frame>): Bounded {
    if fs == [] then b else BoundedNext(limit, RunBounded(limit, b, fs[..|fs| - 1]), fs[|fs| - 1])
  }

  function RunUnbounded(seen: Versions, fs: seq<Frame>): Versions {
    if fs == [] then seen else Unbounded(RunUnbounded(seen, fs[..|fs| - 1]), fs[|fs| - 1])
  }

  /** Everything the bounded filter remembers is implied by the unlimited one. */
  ghost predicate Implied(b: Versions, u: Versions) {
    forall k | k in b :: Tombstoned(u, RunOf(k)) || (k in u && 1 <= b[k] <= u[k])
  }

  lemma DropsAgree(b: Versions, u: Versions, f: Frame)
    requires Implied(b, u) && Decide(b, f).Drop?
    ensures Decide(u, f).Drop?
  {
    KeyNamesRun(f.topic);
  }

  /** Unlimited memory never forgets: tombstones stay and versions only rise until deletion. */
  lemma UnboundedMonotone(u: Versions, f: Frame, k: string)
    ensures var u' := Unbounded(u, f);
            && (Tombstoned(u, RunOf(k)) ==> Tombstoned(u', RunOf(k)))
            && (k in u ==> Tombstoned(u', RunOf(k)) || (k in u' && u[k] <= u'[k]))
  {
    SplitHasNoDots(k);
    SplitHead(RunOf(k), "");
    if !SubjectOf(f.topic).Other? { KeyNamesRun(f.topic); }
  }

  lemma NextImplied(limit: nat, b: Bounded, u: Versions, f: Frame)
    requires Agree(b) && |b.recency| <= limit && Implied(b.highest, u)
    ensures Implied(BoundedNext(limit, b, f).highest, Unbounded(u, f))
  {
    var v, u' := Decide(b.highest, f), Unbounded(u, f);
    if !SubjectOf(f.topic).Other? { KeyNamesRun(f.topic); }
    if Decide(u, f).Remember? && Decide(b.highest, f).Drop? { DropsAgree(b.highest, u, f); }
    forall k | k in b.highest && !(v.Remember? && k == v.key)
      ensures Tombstoned(u', RunOf(k)) || (k in u' && 1 <= b.highest[k] <= u'[k])
    {
      UnboundedMonotone(u, f, k);
    }
    if v.Remember? {
      var pushed := Bounded(b.highest[v.key := v.version], b.recency + [v.key]);
      assert Implied(pushed.highest, u');
      if v.key !in b.highest { EvictKeeps(limit, pushed); }
    }
  }

  /** The bounded filter is a sound cache: over every sequence of frames, each frame it drops
      is also dropped by the filter with unlimited memory; map and list agree within the limit. */
  lemma {:induction false} EvictionOnlyPermits(limit: nat, fs: seq<Frame>, f: Frame)
    ensures var b := RunBounded(limit, Bounded(map[], []), fs);
            var u := RunUnbounded(map[], fs);
            && Agree(b) && |b.recency| <= limit
            && Implied(b.highest, u)
            && (Decide(b.highest, f).Drop? ==> Decide(u, f).Drop?)
    decreases |fs|
  {
    var b, u := RunBounded(limit, Bounded(map[], []), fs), RunUnbounded(map[], fs);
    if fs != [] {
      var init, last := fs[..|fs| - 1], fs[|fs| - 1];
      EvictionOnlyPermits(limit, init, f);
      var b0, u0 := RunBounded(limit, Bounded(map[], []), init), RunUnbounded(map[], init);
      BoundedKeeps(limit, b0, last);
      NextImplied(limit, b0, u0, last);
    }
    if Decide(b.highest, f).Drop? { DropsAgree(b.highest, u, f); }
  }

  /** While the distinct keys fit, the bounded filter is the unlimited one. */
  lemma {:induction false} ExactWhileItFits(limit: nat, fs: seq<Frame>)
    requires |RunUnbounded(map[], fs)| <= limit
    ensures RunBounded(limit, Bounded(map[], []), fs).highest == RunUnbounded(map[], fs)
    decreases |fs|
  {
    if fs != [] {
      var init, last := fs[..|fs| - 1], fs[|fs| - 1];
      var b0, u0 := RunBounded(limit, Bounded(map[], []), init), RunUnbounded(map[], init);
      var u := Unbounded(u0, last);
      assert u0.Keys <= u.Keys;
      SubsetSize(u0.Keys, u.Keys);
      ExactWhileItFits(limit, init);
      EvictionOnlyPermits(limit, init, last);
      var v := Decide(b0.highest, last);
      if v.Remember? && v.key !in b0.highest {
        ListSize(b0);
        assert u.Keys == u0.Keys + {v.key};
      }
    }
  }

  lemma SubsetSize<T>(a: set<T>, b: set<T>)
    requires a <= b
    ensures |a| <= |b|
  {
    assert |b| == |a| + |b - a| by { assert a + (b - a) == b; }
  }

  lemma {:induction false} ListSize(b: Bounded)
    requires Agree(b)
    ensures |b.recency| == |b.highest|
    decreases |b.recency|
  {
    if b.recency == [] {
      assert b.highest.Keys == {};
    } else {
      var k0 := b.recency[0];
      var next := Bounded(b.highest - {k0}, b.recency[1..]);
      WithoutFirst(b, next);
      ListSize(next);
      assert b.highest.Keys == next.highest.Keys + {k0};
    }
  }

  lemma {:induction false} WithoutFirst(b: Bounded, next: Bounded)
    requires Agree(b) && b.recency != [] && next == Bounded(b.highest - {b.recency[0]}, b.recency[1..])
    ensures Agree(next)
  {
    forall k ensures k in next.highest <==> k in next.recency {
      if k in b.recency && k != b.recency[0] {
        var i :| 0 <= i < |b.recency| && b.recency[i] == k;
        assert next.recency[i - 1] == k;
      }
    }
  }

  predicate IsDeletion(f: Frame) {
    var s := SubjectOf(f.topic);
    s.RunFrame? && s.deleted
  }

  /** What remembering guarantees: after a frame of version v was accepted for a key, no later
      frame of that key with a smaller version passes; and after a run was deleted, no other
      frame of the run or of its steps passes. */
  lemma {:induction false} OrderIsKept(fs: seq<Frame>, i: nat, later: Frame)
    requires i < |fs| && !SubjectOf(later.topic).Other? && !SubjectOf(fs[i].topic).Other? && !IsDeletion(later)
    requires Decide(RunUnbounded(map[], fs[..i]), fs[i]).Remember?
    ensures IsDeletion(fs[i]) && SubjectOf(later.topic).run == SubjectOf(fs[i].topic).run ==>
              Decide(RunUnbounded(map[], fs), later).Drop?
    ensures KeyOf(SubjectOf(later.topic)) == KeyOf(SubjectOf(fs[i].topic)) && later.version.Some? && fs[i].version.Some?
            && 1 <= later.version.value < fs[i].version.value && !IsDeletion(fs[i]) ==>
              Decide(RunUnbounded(map[], fs), later).Drop?
    decreases |fs|
  {
    var key := KeyOf(SubjectOf(fs[i].topic));
    var v := Decide(RunUnbounded(map[], fs[..i]), fs[i]).version;
    KeyNamesRun(later.topic);
    KeyNamesRun(fs[i].topic);
    Remembered(fs, i);
  }

  lemma {:induction false} Remembered(fs: seq<Frame>, i: nat)
    requires i < |fs| && !SubjectOf(fs[i].topic).Other? && Decide(RunUnbounded(map[], fs[..i]), fs[i]).Remember?
    ensures var key := KeyOf(SubjectOf(fs[i].topic));
            var v := Decide(RunUnbounded(map[], fs[..i]), fs[i]).version;
            var u := RunUnbounded(map[], fs);
            Tombstoned(u, RunOf(key)) || (v >= 1 && key in u && u[key] >= v)
    decreases |fs|
  {
    var init, last := fs[..|fs| - 1], fs[|fs| - 1];
    if i == |fs| - 1 {
      KeyNamesRun(last.topic);
    } else {
      assert init[..i] == fs[..i] && init[i] == fs[i];
      Remembered(init, i);
      UnboundedMonotone(RunUnbounded(map[], init), last, KeyOf(SubjectOf(fs[i].topic)));
    }
  }
  // ----------------------------------------------------------- exactly what is dropped

  /** The run was deleted. */
  ghost predicate Deletes(fs: seq<Frame>, run: string) {
    exists i | 0 <= i < |fs| :: IsDeletion(fs[i]) && SubjectOf(fs[i].topic).run == run
  }

  /** The frame is of this key and carries version v. */
  predicate Carries(f: Frame, key: string, v: int) {
    !SubjectOf(f.topic).Other? && !IsDeletion(f) && KeyOf(SubjectOf(f.topic)) == key && f.version == Some(v) && v >= 1
  }

  ghost predicate CarriedBy(fs: seq<Frame>, key: string, v: int) {
    exists i | 0 <= i < |fs| :: Carries(fs[i], key, v)
  }

  lemma {:induction false} DeletesMore(fs: seq<Frame>, f: Frame, run: string)
    ensures Deletes(fs + [f], run) <==> Deletes(fs, run) || (IsDeletion(f) && SubjectOf(f.topic).run == run)
  {
    var more := fs + [f];
    assert more[|fs|] == f && forall i | 0 <= i < |fs| :: more[i] == fs[i];
  }

  lemma {:induction false} CarriedMore(fs: seq<Frame>, f: Frame, key: string, v: int)
    ensures CarriedBy(fs + [f], key, v) <==> CarriedBy(fs, key, v) || Carries(f, key, v)
  {
    var more := fs + [f];
    assert more[|fs|] == f && forall i | 0 <= i < |fs| :: more[i] == fs[i];
  }

  /** What unlimited memory holds: a tombstone for each deleted run, and for every key of another run the
      largest version its frames carried. */
  ghost predicate Holds(u: Versions, fs: seq<Frame>, key: string) {
    && (Tombstoned(u, RunOf(key)) <==> Deletes(fs, RunOf(key)))
    && (!Tombstoned(u, RunOf(key)) ==>
          && (key in u ==> u[key] >= 1 && CarriedBy(fs, key, u[key]))
          && (forall v | CarriedBy(fs, key, v) :: key in u && v <= u[key]))
  }

  lemma {:induction false} NextHolds(u: Versions, fs: seq<Frame>, f: Frame, key: string)
    requires Holds(u, fs, key) && (SubjectOf(f.topic).Other? || Holds(u, fs, KeyOf(SubjectOf(f.topic))))
    ensures Holds(Unbounded(u, f), fs + [f], key)
  {
    DeletesMore(fs, f, RunOf(key));
    forall v ensures CarriedBy(fs + [f], key, v) <==> CarriedBy(fs, key, v) || Carries(f, key, v) {
      CarriedMore(fs, f, key, v);
    }
    if !SubjectOf(f.topic).Other? { KeyNamesRun(f.topic); }
  }

  lemma {:induction false} MemoryHolds(fs: seq<Frame>, key: string)
    ensures Holds(RunUnbounded(map[], fs), fs, key)
    decreases |fs|
  {
    if fs != [] {
      var init, last := fs[..|fs| - 1], fs[|fs| - 1];
      assert fs == init + [last];
      MemoryHolds(init, key);
      if !SubjectOf(last.topic).Other? { MemoryHolds(init, KeyOf(SubjectOf(last.topic))); }
      NextHolds(RunUnbounded(map[], init), init, last, key);
    }
  }

  /** Unlimited memory drops a frame if and only if its run was deleted before and it is not itself a
      deletion, or a frame of its key before it carried a larger version: nothing newer is ever lost. */
  lemma {:induction false} DroppedIff(fs: seq<Frame>, f: Frame)
    ensures Decide(RunUnbounded(map[], fs), f).Drop? <==>
              && !SubjectOf(f.topic).Other? && !IsDeletion(f)
              && (|| Deletes(fs, SubjectOf(f.topic).run)
                  || (f.version.Some? && f.version.value >= 1
                      && exists v :: CarriedBy(fs, KeyOf(SubjectOf(f.topic)), v) && f.version.value < v))
  {
    if !SubjectOf(f.topic).Other? {
      KeyNamesRun(f.topic);
      MemoryHolds(fs, KeyOf(SubjectOf(f.topic)));
    }
  }
}
