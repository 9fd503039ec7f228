/** Incremental checkpoints (ironflow/job_executor.go, ironflow/encode_guard.go).

    The polling worker flushes executed steps by offset while the handler appends to them, and
    sends the rest with the terminal report.  A report may be refused, or its reply lost. */
module Checkpoints {
  import opened Optional

  const MAX_CHECKPOINT_STEPS: nat := 500

  /** A step result; `encodable` stands for json.Marshal succeeding on it. */
  datatype StepResult = StepResult(id: string, encodable: bool)

  /** What becomes of one report: ReplyLost was applied but looks failed to the worker. */
  datatype Net = Delivered | ReplyLost | Refused

  predicate Encodes(steps: seq<StepResult>, lo: nat, hi: nat)
    requires hi <= |steps|
  {
    forall i | lo <= i < hi :: steps[i].encodable
  }

  /** The position at or after `lo` of the first step JSON cannot encode, or the end. */
  function FirstBad(steps: seq<StepResult>, lo: nat): (n: nat)
    requires lo <= |steps|
    ensures lo <= n <= |steps| && Encodes(steps, lo, n) && (n < |steps| ==> !steps[n].encodable)
    decreases |steps| - lo
  {
    if lo == |steps| || !steps[lo].encodable then lo else FirstBad(steps, lo + 1)
  }

  /** encodableSteps: the longest prefix that encodes, and the step it stopped at. */
  method EncodableSteps(steps: seq<StepResult>) returns (kept: seq<StepResult>, bad: Option<StepResult>)
    ensures kept == steps[..FirstBad(steps, 0)]
    ensures bad == if FirstBad(steps, 0) == |steps| then None else Some(steps[FirstBad(steps, 0)])
  {
    var i := 0;
    while i < |steps|
      invariant i <= |steps| && FirstBad(steps, 0) == FirstBad(steps, i)
    {
      if !steps[i].encodable { return steps[..i], Some(steps[i]); }
      i := i + 1;
    }
    return steps, None;
  }

  /** The prefix scan of a slice stops where the scan of the whole stops, or at its end. */
  lemma {:induction false} SliceFirstBad(all: seq<StepResult>, c: nat, d: nat, k: nat)
    requires c <= d <= |all| && k <= d - c
    ensures c + FirstBad(all[c..d], k) == Lesser(FirstBad(all, c + k), d)
    decreases d - c - k
  {
    if k < d - c && all[c..d][k].encodable { SliceFirstBad(all, c, d, k + 1); }
  }

  function Lesser(a: nat, b: nat): nat { if a < b then a else b }

  function Longer(a: nat, b: nat): nat { if a > b then a else b }

  // ------------------------------------------------------------------- server

  type Rows = map<nat, StepResult>

  /** The server stores the steps of a report one after the other from its offset. */
  function Write(rows: Rows, offset: nat, steps: seq<StepResult>): Rows
    decreases |steps|
  {
    if steps == [] then rows else Write(rows[offset := steps[0]], offset + 1, steps[1..])
  }

  /** So position offset + i holds steps[i], and no other position changes. */
  lemma {:induction false} WriteAt(rows: Rows, offset: nat, steps: seq<StepResult>, k: nat)
    ensures k in Write(rows, offset, steps) <==> k in rows || offset <= k < offset + |steps|
    ensures k in Write(rows, offset, steps) ==>
              Write(rows, offset, steps)[k] == if offset <= k < offset + |steps| then steps[k - offset] else rows[k]
    decreases |steps|
  {
    if steps != [] { WriteAt(rows[offset := steps[0]], offset + 1, steps[1..], k); }
  }

  function Apply(rows: Rows, net: Net, offset: nat, steps: seq<StepResult>): Rows {
    if net == Refused then rows else Write(rows, offset, steps)
  }

  /** Writing a later slice of one array over an earlier one leaves the longer of the two. */
  lemma {:induction false} Overwrite(rows: Rows, base: nat, all: seq<StepResult>, w: nat, c: nat, d: nat)
    requires c <= w <= |all| && c <= d <= |all|
    ensures Write(Write(rows, base, all[..w]), base + c, all[c..d]) == Write(rows, base, all[..Longer(w, d)])
  {
    var first := Write(rows, base, all[..w]);
    var left, right := Write(first, base + c, all[c..d]), Write(rows, base, all[..Longer(w, d)]);
    forall k: nat ensures (k in left <==> k in right) && (k in left ==> left[k] == right[k]) {
      WriteAt(rows, base, all[..w], k);
      WriteAt(first, base + c, all[c..d], k);
      WriteAt(rows, base, all[..Longer(w, d)], k);
    }
  }

  // ----------------------------------------------------------------- protocol

  /** Executed steps, the worker's cursor and what the server stores. */
  datatype State = State(executed: seq<StepResult>, cursor: nat, rows: Rows)

  datatype Event = Record(step: StepResult) | Checkpoint(net: Net)

  /** What a checkpoint sends: at most MAX_CHECKPOINT_STEPS encodable steps past the cursor. */
  function Chunk(s: State): seq<StepResult>
    requires s.cursor <= |s.executed|
  {
    s.executed[s.cursor..Lesser(FirstBad(s.executed, s.cursor), s.cursor + MAX_CHECKPOINT_STEPS)]
  }

  /** What the cursor has not passed. */
  function Tail(s: State): seq<StepResult>
    requires s.cursor <= |s.executed|
  {
    s.executed[s.cursor..]
  }

  function Next(base: nat, s: State, e: Event): (s': State)
    requires s.cursor <= |s.executed|
    ensures s'.cursor <= |s'.executed|
  {
    match e
    case Record(step) => s.(executed := s.executed + [step])
    case Checkpoint(net) =>
      var steps := Chunk(s);
      if steps == [] then s
      else s.(rows := Apply(s.rows, net, base + s.cursor, steps),
              cursor := if net == Delivered then s.cursor + |steps| else s.cursor)
  }

  function Run(base: nat, s: State, es: seq<Event>): (s': State)
    requires s.cursor <= |s.executed|
    ensures s'.cursor <= |s'.executed|
    decreases |es|
  {
    if es == [] then s else Run(base, Next(base, s, es[0]), es[1..])
  }

  /** stepCheckpointer together with the executed steps it reads. */
  class StepCheckpointer {
    const base: nat
    var executedSteps: seq<StepResult>
    var cursor: nat
    ghost const rows0: Rows  // what the server stored before
    ghost var rows: Rows     // what the server stores now
    ghost var written: nat   // how many of the executed steps it stores

    /** The server stores a prefix of the executed steps, at least up to the cursor. */
    ghost predicate Valid()
      reads this
    {
      Conserved(rows0, base, View(), written)
    }

    ghost function View(): State
      reads this
    {
      State(executedSteps, cursor, rows)
    }

    constructor (base: nat, ghost rows: Rows)
      ensures Valid() && this.base == base && this.rows0 == rows && View() == State([], 0, rows)
    {
      this.base, executedSteps, cursor, this.rows0, this.rows, written := base, [], 0, rows, rows, 0;
    }

    /** recordStep, from the handler. */
    method Append(step: StepResult)
      requires Valid()
      modifies this`executedSteps, this`written
      ensures Valid() && View() == Next(base, old(View()), Record(step))
    {
      written := NextConserves(rows0, base, View(), Record(step), written);
      executedSteps := executedSteps + [step];
    }

    /** The part of the unsaved steps that one progress report carries. */
    method Unsaved() returns (steps: seq<StepResult>)
      requires Valid()
      ensures steps == Chunk(View())
    {
      steps := executedSteps[cursor..];
      if |steps| > MAX_CHECKPOINT_STEPS { steps := steps[..MAX_CHECKPOINT_STEPS]; }
      ghost var d := cursor + |steps|;
      assert steps == executedSteps[cursor..d];
      SliceFirstBad(executedSteps, cursor, d, 0);
      var bad;
      steps, bad := EncodableSteps(steps);
    }

    /** flush; `net` is what becomes of its progress report. */
    method Flush(net: Net) returns (ok: bool)
      requires Valid()
      modifies this`cursor, this`rows, this`written
      ensures Valid() && View() == Next(base, old(View()), Checkpoint(net))
      ensures ok <==> Chunk(old(View())) == [] || net == Delivered
    {
      var steps := Unsaved();
      written := NextConserves(rows0, base, View(), Checkpoint(net), written);
      if |steps| == 0 { return true; }
      rows := Apply(rows, net, base + cursor, steps);
      if net != Delivered { return false; }
      cursor := cursor + |steps|;
      ok := true;
    }

    /** finish: the steps the terminal report carries, and their offset.  Writing them completes
        the server's array; the failure path writes their longest encodable prefix, and the array
        then ends where the executed steps stop encoding. */
    method Finish() returns (steps: seq<StepResult>, offset: nat)
      requires Valid()
      ensures steps == Tail(View()) && offset == base + cursor
      ensures Write(rows, offset, steps) == Write(rows0, base, executedSteps)
      ensures Write(rows, offset, steps[..FirstBad(steps, 0)]) ==
              Write(rows0, base, executedSteps[..FirstBad(executedSteps, 0)])
    {
      steps, offset := executedSteps[cursor..], base + cursor;
      FinalReport(rows0, base, View(), written, Delivered);
    }
  }

  // --------------------------------------------------------------------- runs

  /** Every position from `base` on holds the executed step of that position: no hole and no
      shift, and at least the steps that the cursor counts are there. */
  ghost predicate Conserved(rows0: Rows, base: nat, s: State, written: nat) {
    && s.cursor <= written <= |s.executed|
    && Encodes(s.executed, 0, written)
    && s.rows == Write(rows0, base, s.executed[..written])
  }

  lemma {:induction false} NextConserves(rows0: Rows, base: nat, s: State, e: Event, w: nat) returns (w': nat)
    requires Conserved(rows0, base, s, w)
    ensures Conserved(rows0, base, Next(base, s, e), w')
    ensures w <= w'
  {
    match e
    case Record(step) =>
      w' := w;
      assert Next(base, s, e).executed[..w] == s.executed[..w];
    case Checkpoint(net) =>
      w' := if Chunk(s) == [] || net == Refused then w else Longer(w, s.cursor + |Chunk(s)|);
      CheckpointConserves(rows0, base, s, net, w, w');
  }

  lemma {:induction false} CheckpointConserves(rows0: Rows, base: nat, s: State, net: Net, w: nat, w': nat)
    requires Conserved(rows0, base, s, w)
    requires w' == if Chunk(s) == [] || net == Refused then w else Longer(w, s.cursor + |Chunk(s)|)
    ensures Conserved(rows0, base, Next(base, s, Checkpoint(net)), w')
  {
    var steps := Chunk(s);
    if steps != [] && net != Refused {
      var d := s.cursor + |steps|;
      SendSlice(rows0, base, s, w, steps, d);
      ChunkEncodes(s);
      var s' := Next(base, s, Checkpoint(net));
      assert s'.rows == Write(rows0, base, s.executed[..w']) && s'.executed == s.executed;
    }
  }

  lemma {:induction false} ChunkEncodes(s: State)
    requires s.cursor <= |s.executed|
    ensures s.cursor + |Chunk(s)| <= |s.executed| && Encodes(s.executed, s.cursor, s.cursor + |Chunk(s)|)
  {
  }

  /** Sending executed steps from the cursor to `d` keeps the array whole. */
  lemma {:induction false} SendSlice(rows0: Rows, base: nat, s: State, w: nat, steps: seq<StepResult>, d: nat)
    requires Conserved(rows0, base, s, w)
    requires s.cursor <= d <= |s.executed| && steps == s.executed[s.cursor..d]
    ensures Write(s.rows, base + s.cursor, steps) == Write(rows0, base, s.executed[..Longer(w, d)])
  {
    Overwrite(rows0, base, s.executed, w, s.cursor, d);
  }

  lemma {:induction false} RunConserves(rows0: Rows, base: nat, s: State, es: seq<Event>, w: nat) returns (w': nat)
    requires Conserved(rows0, base, s, w)
    ensures Conserved(rows0, base, Run(base, s, es), w')
    decreases |es|
  {
    if es == [] {
      w' := w;
    } else {
      w' := NextConserves(rows0, base, s, es[0], w);
      w' := RunConserves(rows0, base, Next(base, s, es[0]), es[1..], w');
    }
  }

  /** Checkpointing conserves steps.  After every interleaving of appends and delivered,
      refused or reply-lost checkpoints, a terminal report that reaches the server leaves it
      with exactly the executed steps, and on the failure path with their longest encodable
      prefix. */
  lemma {:induction false} CheckpointsConserveSteps(rows0: Rows, base: nat, es: seq<Event>, net: Net)
    requires net != Refused
    ensures FinalRowsRight(rows0, base, Run(base, State([], 0, rows0), es), net)
  {
    var s0 := State([], 0, rows0);
    assert s0.rows == Write(rows0, base, s0.executed[..0]);
    var w := RunConserves(rows0, base, s0, es, 0);
    FinalReport(rows0, base, Run(base, s0, es), w, net);
  }

  /** The failure path sends the encodable part of the tail. */
  ghost predicate EncodableTailRight(rows0: Rows, base: nat, s: State, net: Net)
    requires s.cursor <= |s.executed|
  {
    var kept := Tail(s)[..FirstBad(Tail(s), 0)];
    Apply(s.rows, net, base + s.cursor, kept) == Write(rows0, base, s.executed[..FirstBad(s.executed, 0)])
  }

  /** The success and yield paths send the whole tail. */
  ghost predicate WholeTailRight(rows0: Rows, base: nat, s: State, net: Net)
    requires s.cursor <= |s.executed|
  {
    Apply(s.rows, net, base + s.cursor, Tail(s)) == Write(rows0, base, s.executed)
  }

  /** The terminal report of state `s` leaves the right rows, on the failure path and on the success
      and yield paths. */
  ghost predicate FinalRowsRight(rows0: Rows, base: nat, s: State, net: Net)
    requires s.cursor <= |s.executed|
  {
    EncodableTailRight(rows0, base, s, net) && WholeTailRight(rows0, base, s, net)
  }

  /** The scan from 0 passes over every position up to which all steps encode. */
  lemma {:induction false} ScanPasses(steps: seq<StepResult>, lo: nat, w: nat)
    requires lo <= w <= |steps| && Encodes(steps, lo, w)
    ensures FirstBad(steps, lo) == FirstBad(steps, w)
    decreases w - lo
  {
    if lo < w { ScanPasses(steps, lo + 1, w); }
  }

  /** What the failure path keeps of the tail, and what all steps then amount to. */
  lemma {:induction false} TailFacts(all: seq<StepResult>, c: nat, w: nat)
    requires c <= w <= |all| && Encodes(all, 0, w)
    ensures var tail, d := all[c..], FirstBad(all, c);
            tail[..FirstBad(tail, 0)] == all[c..d] && FirstBad(all, 0) == Longer(w, d)
  {
    TailScan(all, c);
    ScanPasses(all, 0, c);
    ScanPasses(all, c, w);
  }

  lemma {:induction false} TailScan(all: seq<StepResult>, c: nat)
    requires c <= |all|
    ensures FirstBad(all[c..], 0) == FirstBad(all, c) - c
    ensures all[c..][..FirstBad(all[c..], 0)] == all[c..FirstBad(all, c)]
  {
    assert all[c..|all|] == all[c..];
    SliceFirstBad(all, c, |all|, 0);
  }

  lemma {:induction false} FinalReport(rows0: Rows, base: nat, s: State, w: nat, net: Net)
    requires Conserved(rows0, base, s, w) && net != Refused
    ensures FinalRowsRight(rows0, base, s, net)
  {
    EncodableTail(rows0, base, s, w, net);
    WholeTail(rows0, base, s, w, net);
  }

  lemma {:induction false} EncodableTail(rows0: Rows, base: nat, s: State, w: nat, net: Net)
    requires Conserved(rows0, base, s, w) && net != Refused
    ensures EncodableTailRight(rows0, base, s, net)
  {
    var tail := s.executed[s.cursor..];
    TailFacts(s.executed, s.cursor, w);
    SendSlice(rows0, base, s, w, tail[..FirstBad(tail, 0)], FirstBad(s.executed, s.cursor));
  }

  lemma {:induction false} WholeTail(rows0: Rows, base: nat, s: State, w: nat, net: Net)
    requires Conserved(rows0, base, s, w) && net != Refused
    ensures WholeTailRight(rows0, base, s, net)
  {
    var all, n := s.executed, |s.executed|;
    assert all[s.cursor..n] == all[s.cursor..] && all[..n] == all;
    SendSlice(rows0, base, s, w, all[s.cursor..n], n);
  }
}
