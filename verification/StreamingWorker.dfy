/** Admission and graceful drain (ironflow/worker_streaming.go, ironflow/worker.go).

    Every atomic access of the receive loop, the job goroutines, the drains, the send loop and
    the compare-and-swap loops on the worker state is one step, so a run is any interleaving
    of them on one connection; the flush loop's test of its queue and CloseRequest are two.
    Jobs of an earlier connection may still be running. */
module StreamingWorker {
  import opened Optional

  datatype Phase = Idle | Connecting | Connected | Draining | Stopped

  datatype Message = Report(job: nat) | Control(n: nat)

  /** handleJobAssignment, between its atomic accesses. */
  datatype Receiver =
    | Waiting
    | Fresh(key: nat)              // no active job has this key
    | Counted(key: nat, count: int) // jobCount.Add(1) returned count
    | NotDraining(key: nat, count: int)
    | Admitted(key: nat)

  /** A job goroutine. */
  datatype Job = Job(key: nat, pc: JobPc)
  datatype JobPc = Executing | Ending(reported: bool) | Removed(reported: bool)

  /** The send loop: Closing is after its last test of the queue and before CloseRequest. */
  datatype Sender = Looping | Flushing | Closing | HalfClosed | Gone

  /** A compare-and-swap loop: storeStateUnlessStopped (draining) or storeStateUnlessDraining. */
  datatype Cas = Cas(next: Phase, loaded: Option<Phase>)
  datatype Worker = Worker(
    phase: Phase,
    jobCount: int,
    activeKeys: set<nat>,
    jobs: map<nat, Job>,
    receiver: Receiver,
    cas: map<nat, Cas>,
    drains: nat,        // drain calls that are past their store of Draining
    flush: bool,        // flushCh is closed: a drain has read a zero count
    outCh: seq<Message>,
    sender: Sender,
    wire: seq<Message>,
    queued: seq<Message>,   // history: everything ever in outCh on this connection
    finished: map<nat, bool>) // history: ended jobs, and whether each queued its report

  datatype Limits = Limits(maxConcurrentJobs: nat, outCap: nat)

  datatype Step =
    | Assign(key: nat)
    | Count
    | CheckDraining
    | CheckCapacity
    | Spawn(job: nat)
    | Convert                       // the assignment does not convert
    | QueueReport(job: nat)
    | GiveUpReport(job: nat)        // the job's context ended first
    | RemoveActive(job: nat)
    | Uncount(job: nat)
    | QueueControl(n: nat)          // an ack, a nack or a step message
    | BeginCas(t: nat, next: Phase)
    | CasLoad(t: nat)
    | CasSwap(t: nat)
    | Stop
    | ReadZero                      // a drain reads the count
    | SendOne(ok: bool)
    | BeginFlush
    | FlushOne(ok: bool)
    | SeeEmpty                      // the flush loop finds the queue empty
    | HalfClose                     // CloseRequest
    | LoseConnection

  // --------------------------------------------------------------------- steps

  predicate Holds(r: Receiver) {
    r.Counted? || r.NotDraining? || r.Admitted?
  }

  /** Which phases make the loop give up: Stopped always, Draining unless it stores Draining. */
  predicate GivesUp(c: Cas, p: Phase) {
    p == Stopped || (c.next != Draining && p == Draining)
  }

  predicate Enabled(l: Limits, w: Worker, s: Step) {
    match s
    case Assign(_) => w.receiver.Waiting?
    case Count => w.receiver.Fresh?
    case CheckDraining => w.receiver.Counted?
    case CheckCapacity => w.receiver.NotDraining?
    case Spawn(j) => w.receiver.Admitted? && j !in w.jobs && j !in w.finished
    case Convert => w.receiver.Admitted?
    case QueueReport(j) => j in w.jobs && w.jobs[j].pc.Executing? && |w.outCh| < l.outCap
    case GiveUpReport(j) => j in w.jobs && w.jobs[j].pc.Executing?
    case RemoveActive(j) => j in w.jobs && w.jobs[j].pc.Ending?
    case Uncount(j) => j in w.jobs && w.jobs[j].pc.Removed?
    case QueueControl(_) => |w.outCh| < l.outCap
    case BeginCas(t, next) => t !in w.cas && (next == Connecting || next == Connected || next == Draining)
    case CasLoad(t) => t in w.cas && w.cas[t].loaded.None?
    case CasSwap(t) => t in w.cas && w.cas[t].loaded.Some?
    case Stop => true
    case ReadZero => w.drains > 0 && w.jobCount <= 0
    case SendOne(_) => w.sender.Looping? && w.outCh != []
    case BeginFlush => w.sender.Looping? && w.flush
    case FlushOne(_) => w.sender.Flushing? && w.outCh != []
    case SeeEmpty => w.sender.Flushing? && w.outCh == []
    case HalfClose => w.sender.Closing?
    case LoseConnection => true
  }

  function Push(w: Worker, m: Message): Worker {
    w.(outCh := w.outCh + [m], queued := w.queued + [m])
  }

  function Sent(w: Worker, ok: bool): Worker
    requires w.outCh != []
  {
    if ok then w.(outCh := w.outCh[1..], wire := w.wire + [w.outCh[0]])
    else w.(outCh := w.outCh[1..], sender := Gone)
  }

  function Next(l: Limits, w: Worker, s: Step): Worker
    requires Enabled(l, w, s)
  {
    match s
    case Assign(k) => if k in w.activeKeys then w else w.(receiver := Fresh(k))
    case Count => w.(jobCount := w.jobCount + 1, receiver := Counted(w.receiver.key, w.jobCount + 1))
    case CheckDraining =>
      if w.phase == Draining then w.(jobCount := w.jobCount - 1, receiver := Waiting)
      else w.(receiver := NotDraining(w.receiver.key, w.receiver.count))
    case CheckCapacity =>
      if w.receiver.count > l.maxConcurrentJobs then w.(jobCount := w.jobCount - 1, receiver := Waiting)
      else w.(receiver := Admitted(w.receiver.key))
    case Spawn(j) =>
      if w.receiver.key in w.activeKeys then w.(jobCount := w.jobCount - 1, receiver := Waiting)
      else w.(activeKeys := w.activeKeys + {w.receiver.key},
              jobs := w.jobs[j := Job(w.receiver.key, Executing)], receiver := Waiting)
    case Convert => w.(jobCount := w.jobCount - 1, receiver := Waiting)
    case QueueReport(j) => Push(w.(jobs := w.jobs[j := w.jobs[j].(pc := Ending(true))]), Report(j))
    case GiveUpReport(j) => w.(jobs := w.jobs[j := w.jobs[j].(pc := Ending(false))])
    case RemoveActive(j) =>
      w.(jobs := w.jobs[j := w.jobs[j].(pc := Removed(w.jobs[j].pc.reported))],
        activeKeys := w.activeKeys - {w.jobs[j].key})
    case Uncount(j) =>
      w.(jobs := w.jobs - {j}, jobCount := w.jobCount - 1, finished := w.finished[j := w.jobs[j].pc.reported])
    case QueueControl(n) => Push(w, Control(n))
    case BeginCas(t, next) => w.(cas := w.cas[t := Cas(next, None)])
    case CasLoad(t) =>
      if GivesUp(w.cas[t], w.phase) then
        w.(cas := w.cas - {t}, drains := if w.cas[t].next == Draining then w.drains + 1 else w.drains)
      else w.(cas := w.cas[t := w.cas[t].(loaded := Some(w.phase))])
    case CasSwap(t) =>
      if w.phase == w.cas[t].loaded.value then
        w.(phase := w.cas[t].next, cas := w.cas - {t},
           drains := if w.cas[t].next == Draining then w.drains + 1 else w.drains)
      else w.(cas := w.cas[t := w.cas[t].(loaded := None)])
    case Stop => w.(phase := Stopped)
    case ReadZero => w.(flush := true)
    case SendOne(ok) => Sent(w, ok)
    case BeginFlush => w.(sender := Flushing)
    case FlushOne(ok) => Sent(w, ok)
    case SeeEmpty => w.(sender := Closing)
    case HalfClose => w.(sender := HalfClosed)
    case LoseConnection => if w.sender == HalfClosed then w else w.(sender := Gone)
  }

  // ------------------------------------------------------------------ invariant

  /** A new connection: jobs of earlier connections may still run and count. */
  ghost predicate Init(l: Limits, w: Worker) {
    && w.jobCount == |w.jobs| <= l.maxConcurrentJobs
    && (forall j | j in w.jobs :: w.jobs[j].pc.Executing?) && OneJobAKey(w.jobs, w.activeKeys)
    && w.phase != Draining && w.receiver == Waiting && w.cas == map[] && w.drains == 0 && !w.flush
    && w.outCh == w.wire == w.queued == [] && w.sender == Looping && w.finished == map[]
  }

  /** Jobs that have not given up their key hold different active keys. */
  predicate OneJobAKey(jobs: map<nat, Job>, activeKeys: set<nat>) {
    && (forall j | j in jobs && !jobs[j].pc.Removed? :: jobs[j].key in activeKeys)
    && (forall i, j | i in jobs && j in jobs && !jobs[i].pc.Removed? && !jobs[j].pc.Removed? ::
          jobs[i].key == jobs[j].key ==> i == j)
  }

  /** The counter counts the jobs and the assignment in hand. */
  predicate Counts(w: Worker) {
    w.jobCount == |w.jobs| + Held(w.receiver)
  }

  /** The count an assignment got covers it and every job that still runs. */
  predicate Capacity(l: Limits, w: Worker) {
    && |w.jobs| <= l.maxConcurrentJobs
    && (w.receiver.Counted? || w.receiver.NotDraining? ==> |w.jobs| + 1 <= w.receiver.count)
    && (w.receiver.Admitted? ==> |w.jobs| + 1 <= l.maxConcurrentJobs)
  }

  /** A loop that stores Connecting or Connected never loaded Draining or Stopped. */
  predicate CasSound(c: Cas) {
    c.next != Stopped && c.next != Idle && (c.loaded.Some? ==> !GivesUp(c, c.loaded.value))
  }

  predicate CasesSound(cas: map<nat, Cas>) {
    forall t | t in cas :: CasSound(cas[t])
  }

  predicate PhaseSound(w: Worker) {
    (w.drains > 0 ==> w.phase == Draining || w.phase == Stopped) && CasesSound(w.cas)
  }

  /** Stopped is final, and Draining is left only for Stopped. */
  predicate Forward(p: Phase, q: Phase) {
    (p == Stopped ==> q == Stopped) && (p == Draining ==> q == Draining || q == Stopped)
  }

  /** Once a drain has read zero and while the worker drains, nothing runs or will start. */
  predicate Quiet(w: Worker) {
    && (w.flush ==> w.drains > 0)
    && (w.flush && w.phase == Draining ==> w.jobs == map[] && !w.receiver.NotDraining? && !w.receiver.Admitted?)
  }

  /** The send loop has seen its queue empty for the last time. */
  predicate Closed(sender: Sender) {
    sender == Closing || sender == HalfClosed
  }

  /** Messages leave in the order they were queued, and none is lost on the way. */
  predicate Fifo(w: Worker) {
    && (w.sender != Gone ==> w.queued == w.wire + w.outCh)
    && (w.sender == Flushing || Closed(w.sender) ==> w.flush)
    && (Closed(w.sender) && w.phase == Draining ==> forall m | m in w.outCh :: !m.Report?)
  }

  /** The job is past its report and queued it. */
  predicate HasReported(jobs: map<nat, Job>, finished: map<nat, bool>, j: nat) {
    (j in finished && finished[j]) || (j in jobs && !jobs[j].pc.Executing? && jobs[j].pc.reported)
  }

  /** The reports ever queued are those of the jobs that are past theirs, and a job runs once. */
  ghost predicate ReportedOf(jobs: map<nat, Job>, finished: map<nat, bool>, queued: seq<Message>) {
    && (forall j: nat :: Report(j) in queued <==> HasReported(jobs, finished, j))
    && (forall j | j in jobs :: j !in finished)
  }

  ghost predicate Reported(w: Worker) {
    ReportedOf(w.jobs, w.finished, w.queued)
  }

  ghost predicate Inv(l: Limits, w: Worker) {
    Counts(w) && Capacity(l, w) && PhaseSound(w) && Quiet(w) && Fifo(w) && Reported(w)
  }

  function SizeAfter(w: Worker, s: Step): int {
    match s
    case Uncount(_) => |w.jobs| - 1
    case Spawn(_) => if w.receiver.Admitted? && w.receiver.key !in w.activeKeys then |w.jobs| + 1 else |w.jobs|
    case _ => |w.jobs|
  }

  /** A step that ends or changes one job. */
  predicate ByJob(s: Step) {
    s.QueueReport? || s.GiveUpReport? || s.RemoveActive? || s.Uncount?
  }

  lemma JobMoves(l: Limits, w: Worker, s: Step)
    requires Enabled(l, w, s) && ByJob(s)
    ensures s.job in w.jobs
    ensures s.Uncount? ==> Next(l, w, s).jobs == w.jobs - {s.job}
    ensures !s.Uncount? ==>
              s.job in Next(l, w, s).jobs && Next(l, w, s).jobs == w.jobs[s.job := Next(l, w, s).jobs[s.job]]
  {
  }

  lemma JobsStay(l: Limits, w: Worker, s: Step)
    requires Enabled(l, w, s) && !ByJob(s) && !s.Spawn?
    ensures Next(l, w, s).jobs == w.jobs
  {
    if ByReceiver(s) { ReceiverJobs(l, w, s); }
  }

  lemma ReceiverJobs(l: Limits, w: Worker, s: Step)
    requires Enabled(l, w, s) && ByReceiver(s) && !s.Spawn?
    ensures Next(l, w, s).jobs == w.jobs
  {
  }

  /** How many jobs there are after a step. */
  lemma JobsAfter(l: Limits, w: Worker, s: Step)
    requires Enabled(l, w, s)
    ensures |Next(l, w, s).jobs| == SizeAfter(w, s)
  {
    if s.Spawn? {
      SpawnSize(l, w, s.job);
    } else if ByJob(s) {
      JobMoves(l, w, s);
      if s.Uncount? { SizeDrop(w.jobs, s.job); } else { SizePut(w.jobs, s.job, Next(l, w, s).jobs[s.job]); }
    } else {
      JobsStay(l, w, s);
    }
  }

  lemma SpawnSize(l: Limits, w: Worker, j: nat)
    requires Enabled(l, w, Spawn(j))
    ensures |Next(l, w, Spawn(j)).jobs| == SizeAfter(w, Spawn(j))
  {
    SizePut(w.jobs, j, Job(w.receiver.key, Executing));
  }

  lemma SizePut(m: map<nat, Job>, j: nat, job: Job)
    ensures |m[j := job]| == if j in m then |m| else |m| + 1
  {
    assert m[j := job].Keys == m.Keys + {j};
  }

  lemma SizeDrop(m: map<nat, Job>, j: nat)
    requires j in m
    ensures |m - {j}| == |m| - 1
  {
    assert (m - {j}).Keys == m.Keys - {j};
  }

  function Held(r: Receiver): int {
    if Holds(r) then 1 else 0
  }

  /** A step of handleJobAssignment. */
  predicate ByReceiver(s: Step) {
    s.Assign? || s.Count? || s.CheckDraining? || s.CheckCapacity? || s.Spawn? || s.Convert?
  }

  lemma ReceiverCounts(l: Limits, w: Worker, s: Step)
    requires Enabled(l, w, s) && ByReceiver(s)
    ensures Next(l, w, s).jobCount - Held(Next(l, w, s).receiver) ==
              w.jobCount - Held(w.receiver) + SizeAfter(w, s) - |w.jobs|
  {
  }

  lemma OthersCount(l: Limits, w: Worker, s: Step)
    requires Enabled(l, w, s) && !ByReceiver(s)
    ensures Next(l, w, s).receiver == w.receiver
    ensures Next(l, w, s).jobCount == w.jobCount + SizeAfter(w, s) - |w.jobs|
  {
  }

  lemma CountsKept(l: Limits, w: Worker, s: Step)
    requires Counts(w) && Enabled(l, w, s)
    ensures Counts(Next(l, w, s))
  {
    JobsAfter(l, w, s);
    if ByReceiver(s) { ReceiverCounts(l, w, s); } else { OthersCount(l, w, s); }
  }

  lemma CapacityKept(l: Limits, w: Worker, s: Step)
    requires Counts(w) && Capacity(l, w) && Enabled(l, w, s)
    ensures Capacity(l, Next(l, w, s))
  {
    JobsAfter(l, w, s);
    if !ByReceiver(s) { OthersCount(l, w, s); }
  }

  lemma PhaseKept(l: Limits, w: Worker, s: Step)
    requires PhaseSound(w) && Enabled(l, w, s)
    ensures PhaseSound(Next(l, w, s)) && Forward(w.phase, Next(l, w, s).phase)
  {
    if s.CasLoad? || s.CasSwap? { CasKept(l, w, s); }
  }

  lemma CasKept(l: Limits, w: Worker, s: Step)
    requires PhaseSound(w) && Enabled(l, w, s) && (s.CasLoad? || s.CasSwap?)
    ensures PhaseSound(Next(l, w, s)) && Forward(w.phase, Next(l, w, s).phase)
  {
    assert CasSound(w.cas[s.t]);
  }

  lemma QuietKept(l: Limits, w: Worker, s: Step)
    requires Counts(w) && PhaseSound(w) && Quiet(w) && Enabled(l, w, s)
    ensures Quiet(Next(l, w, s))
  {
    PhaseKept(l, w, s);
    if w.flush { FlushedStaysQuiet(l, w, s); } else if s.ReadZero? { assert |w.jobs| == 0; }
  }

  lemma FlushedStaysQuiet(l: Limits, w: Worker, s: Step)
    requires PhaseSound(w) && Quiet(w) && Enabled(l, w, s) && w.flush
    ensures Quiet(Next(l, w, s))
  {
    PhaseKept(l, w, s);
  }

  lemma FifoKept(l: Limits, w: Worker, s: Step)
    requires PhaseSound(w) && Quiet(w) && Fifo(w) && Enabled(l, w, s)
    ensures Fifo(Next(l, w, s))
  {
    match s
    case QueueReport(j) => PushKeeps(w, Report(j));
    case QueueControl(n) => PushKeeps(w, Control(n));
    case SendOne(ok) => SentKeeps(w, ok);
    case FlushOne(ok) => SentKeeps(w, ok);
    case _ => QueueStays(l, w, s);
  }

  lemma PushKeeps(w: Worker, m: Message)
    requires w.sender != Gone ==> w.queued == w.wire + w.outCh
    ensures w.sender != Gone ==> w.queued + [m] == w.wire + (w.outCh + [m])
  {
  }

  lemma QueueStays(l: Limits, w: Worker, s: Step)
    requires PhaseSound(w) && Fifo(w) && (w.flush ==> w.drains > 0) && Enabled(l, w, s)
    requires !s.QueueReport? && !s.QueueControl? && !s.SendOne? && !s.FlushOne?
    ensures Fifo(Next(l, w, s))
  {
    PhaseKept(l, w, s);
    SameQueues(l, w, s);
  }

  /** The step leaves the queues alone and moves the sender only as it may. */
  predicate QueuesAlone(w: Worker, s: Step, w': Worker) {
    && w'.queued == w.queued && w'.wire == w.wire && w'.outCh == w.outCh && (w.flush ==> w'.flush)
    && (|| w'.sender == w.sender || (w'.sender == Gone && w.sender != HalfClosed)
        || (s.BeginFlush? && w'.sender == Flushing) || (s.SeeEmpty? && w'.sender == Closing)
        || (s.HalfClose? && w'.sender == HalfClosed))
  }

  lemma ReceiverQueues(l: Limits, w: Worker, s: Step)
    requires Enabled(l, w, s) && ByReceiver(s)
    ensures QueuesAlone(w, s, Next(l, w, s))
  {
  }

  lemma OtherQueues(l: Limits, w: Worker, s: Step)
    requires Enabled(l, w, s) && !ByReceiver(s) && !s.QueueReport? && !s.QueueControl? && !s.SendOne? && !s.FlushOne?
    ensures QueuesAlone(w, s, Next(l, w, s))
  {
  }

  lemma SameQueues(l: Limits, w: Worker, s: Step)
    requires Enabled(l, w, s) && !s.QueueReport? && !s.QueueControl? && !s.SendOne? && !s.FlushOne?
    ensures QueuesAlone(w, s, Next(l, w, s))
  {
    if ByReceiver(s) { ReceiverQueues(l, w, s); } else { OtherQueues(l, w, s); }
  }

  lemma SentKeeps(w: Worker, ok: bool)
    requires w.outCh != []
    ensures ok ==> w.wire + w.outCh == Sent(w, ok).wire + Sent(w, ok).outCh
  {
    assert w.outCh == [w.outCh[0]] + w.outCh[1..];
  }

  lemma ReportedKept(l: Limits, w: Worker, s: Step)
    requires Reported(w) && Enabled(l, w, s)
    ensures Reported(Next(l, w, s))
  {
    match s
    case QueueReport(j) => PushReported(w.jobs, w.finished, w.queued, j);
    case QueueControl(n) => InPushed(w.queued, Control(n));
    case _ => OthersReported(l, w, s);
  }

  lemma OthersReported(l: Limits, w: Worker, s: Step)
    requires Reported(w) && Enabled(l, w, s) && !s.QueueReport? && !s.QueueControl?
    ensures Reported(Next(l, w, s))
  {
    assert Next(l, w, s).queued == w.queued;
    if ByJob(s) { JobReported(l, w, s); }
    else if s.Spawn? { SpawnReported(l, w, s.job); }
    else { JobsStay(l, w, s); assert Next(l, w, s).finished == w.finished; }
  }

  lemma JobReported(l: Limits, w: Worker, s: Step)
    requires Reported(w) && Enabled(l, w, s) && ByJob(s) && !s.QueueReport?
    ensures Reported(Next(l, w, s))
  {
    var w' := Next(l, w, s);
    assert HasReported(w'.jobs, w'.finished, s.job) <==> HasReported(w.jobs, w.finished, s.job);
    assert forall j | j != s.job :: HasReported(w'.jobs, w'.finished, j) <==> HasReported(w.jobs, w.finished, j);
  }

  lemma SpawnReported(l: Limits, w: Worker, j: nat)
    requires Reported(w) && Enabled(l, w, Spawn(j))
    ensures Reported(Next(l, w, Spawn(j)))
  {
    var w' := Next(l, w, Spawn(j));
    assert forall i :: HasReported(w'.jobs, w'.finished, i) <==> HasReported(w.jobs, w.finished, i);
  }

  lemma InPushed(queued: seq<Message>, m: Message)
    ensures forall x :: x in queued + [m] <==> x in queued || x == m
  {
  }

  lemma PushReported(jobs: map<nat, Job>, finished: map<nat, bool>, queued: seq<Message>, j: nat)
    requires ReportedOf(jobs, finished, queued) && j in jobs && jobs[j].pc.Executing?
    ensures ReportedOf(jobs[j := jobs[j].(pc := Ending(true))], finished, queued + [Report(j)])
  {
    InPushed(queued, Report(j));
  }

  lemma NextKeeps(l: Limits, w: Worker, s: Step)
    requires Inv(l, w) && Enabled(l, w, s)
    ensures Inv(l, Next(l, w, s))
    ensures Forward(w.phase, Next(l, w, s).phase)
  {
    CountsKept(l, w, s);
    CapacityKept(l, w, s);
    PhaseKept(l, w, s);
    QuietKept(l, w, s);
    FifoKept(l, w, s);
    ReportedKept(l, w, s);
  }

  // ---------------------------------------------------------------- main results

  ghost predicate IsRun(l: Limits, ws: seq<Worker>, steps: seq<Step>) {
    && |ws| == |steps| + 1 && Init(l, ws[0])
    && forall i | 0 <= i < |steps| :: Enabled(l, ws[i], steps[i]) && ws[i + 1] == Next(l, ws[i], steps[i])
  }

  lemma {:induction false} RunKeeps(l: Limits, ws: seq<Worker>, steps: seq<Step>, n: nat)
    requires IsRun(l, ws, steps) && n <= |steps|
    ensures Inv(l, ws[n])
  {
    if n > 0 {
      RunKeeps(l, ws, steps, n - 1);
      var m := n - 1;
      assert ws[m + 1] == Next(l, ws[m], steps[m]);
      NextKeeps(l, ws[m], steps[m]);
    }
  }

  /** Admission is safe: in every interleaving at most MaxConcurrentJobs jobs run. */
  lemma NeverOverCapacity(l: Limits, ws: seq<Worker>, steps: seq<Step>, n: nat)
    requires IsRun(l, ws, steps) && n <= |steps|
    ensures |ws[n].jobs| <= l.maxConcurrentJobs && ws[n].jobCount >= |ws[n].jobs|
  {
    RunKeeps(l, ws, steps, n);
  }

  /** One step of a run, as the later lemmas need it. */
  lemma RunStep(l: Limits, ws: seq<Worker>, steps: seq<Step>, i: nat)
    requires IsRun(l, ws, steps) && i < |steps|
    ensures Forward(ws[i].phase, ws[i + 1].phase) && (ws[i].flush ==> ws[i + 1].flush)
  {
    RunKeeps(l, ws, steps, i);
    assert ws[i + 1] == Next(l, ws[i], steps[i]);
    NextKeeps(l, ws[i], steps[i]);
    FlushKept(l, ws[i], steps[i]);
  }

  lemma FlushKept(l: Limits, w: Worker, s: Step)
    requires Enabled(l, w, s)
    ensures w.flush ==> Next(l, w, s).flush
  {
  }

  lemma {:induction false} ForwardFrom(ps: seq<(Phase, bool)>, m: nat, n: nat)
    requires m <= n < |ps|
    requires forall i | 0 <= i < |ps| - 1 :: Forward(ps[i].0, ps[i + 1].0) && (ps[i].1 ==> ps[i + 1].1)
    ensures Forward(ps[m].0, ps[n].0) && (ps[m].1 ==> ps[n].1)
    decreases n
  {
    if m < n {
      ForwardFrom(ps, m, n - 1);
      var k := n - 1;
      assert Forward(ps[k].0, ps[k + 1].0);
    }
  }

  /** The phase only moves forward: Stopped is absorbing and Draining is left only for it, for
      every interleaving of compare-and-swap loops; and a closed flushCh stays closed. */
  lemma PhaseMovesForward(l: Limits, ws: seq<Worker>, steps: seq<Step>, m: nat, n: nat)
    requires IsRun(l, ws, steps) && m <= n <= |steps|
    ensures Forward(ws[m].phase, ws[n].phase) && (ws[m].flush ==> ws[n].flush)
  {
    var ps := seq(|ws|, i requires 0 <= i < |ws| => (ws[i].phase, ws[i].flush));
    forall i | 0 <= i < |ps| - 1 ensures Forward(ps[i].0, ps[i + 1].0) && (ps[i].1 ==> ps[i + 1].1) {
      RunStep(l, ws, steps, i);
    }
    ForwardFrom(ps, m, n);
  }

  /** Once a drain has read a zero count, no job runs in any later state in which the worker is
      still draining, although assignments go on arriving. */
  lemma NothingStartsAfterZero(l: Limits, ws: seq<Worker>, steps: seq<Step>, m: nat, n: nat)
    requires IsRun(l, ws, steps) && m < n <= |steps| && steps[m] == ReadZero && ws[n].phase == Draining
    ensures ws[n].jobs == map[]
  {
    assert ws[m + 1] == Next(l, ws[m], steps[m]);
    PhaseMovesForward(l, ws, steps, m + 1, n);
    RunKeeps(l, ws, steps, n);
  }

  /** Queuing a message: the only steps that can come too late for the send loop. */
  predicate Queues(s: Step) {
    s.QueueReport? || s.QueueControl?
  }

  /** Once the send loop has seen its queue empty it sends nothing more. */
  lemma WireStep(l: Limits, w: Worker, s: Step)
    requires Enabled(l, w, s) && (Closed(w.sender) || w.sender == Gone)
    ensures Next(l, w, s).wire == w.wire && (Closed(Next(l, w, s).sender) || Next(l, w, s).sender == Gone)
    ensures w.sender == HalfClosed ==> Next(l, w, s).sender == HalfClosed
    ensures w.queued <= Next(l, w, s).queued && (Queues(s) <==> w.queued != Next(l, w, s).queued)
  {
    if !Queues(s) { SameQueues(l, w, s); }
  }

  /** What is on the wire ever after is everything queued by the moment the send loop saw its
      queue empty, in order, in whatever phase the worker was and is; nothing else is sent. */
  lemma {:induction false} FlushSendsAll(l: Limits, ws: seq<Worker>, steps: seq<Step>, m: nat, n: nat)
    requires IsRun(l, ws, steps) && m < n <= |steps| && steps[m] == SeeEmpty
    ensures Closed(ws[n].sender) || ws[n].sender == Gone
    ensures ws[n].wire == ws[m].queued && ws[m].queued <= ws[n].queued
    ensures forall j | j in ws[m].finished && ws[m].finished[j] :: Report(j) in ws[n].wire
    decreases n
  {
    RunKeeps(l, ws, steps, m);
    if n == m + 1 {
      assert Enabled(l, ws[m], steps[m]) && ws[m + 1] == Next(l, ws[m], steps[m]);
      assert ws[m].wire + [] == ws[m].wire;
    } else {
      var k := n - 1;
      FlushSendsAll(l, ws, steps, m, k);
      assert Enabled(l, ws[k], steps[k]) && ws[k + 1] == Next(l, ws[k], steps[k]);
      WireStep(l, ws[k], steps[k]);
    }
  }

  /** Everything queued was sent if and only if nothing was queued since the send loop saw its
      queue empty: CloseRequest does not look again. */
  lemma {:induction false} AllSentIff(l: Limits, ws: seq<Worker>, steps: seq<Step>, m: nat, n: nat)
    requires IsRun(l, ws, steps) && m < n <= |steps| && steps[m] == SeeEmpty
    ensures ws[n].wire == ws[n].queued <==> forall i | m < i < n :: !Queues(steps[i])
    decreases n
  {
    FlushSendsAll(l, ws, steps, m, n);
    if n == m + 1 {
      assert ws[m + 1] == Next(l, ws[m], steps[m]);
    } else {
      var k := n - 1;
      AllSentIff(l, ws, steps, m, k);
      FlushSendsAll(l, ws, steps, m, k);
      assert Enabled(l, ws[k], steps[k]) && ws[k + 1] == Next(l, ws[k], steps[k]);
      WireStep(l, ws[k], steps[k]);
    }
  }

  lemma ReportStep(l: Limits, w: Worker, s: Step, j: nat)
    requires Reported(w) && Enabled(l, w, s)
    ensures Report(j) in Next(l, w, s).queued <==> Report(j) in w.queued || s == QueueReport(j)
    ensures s == QueueReport(j) ==> Report(j) !in w.queued
  {
    if s.QueueReport? { InPushed(w.queued, Report(s.job)); }
    else if s.QueueControl? { InPushed(w.queued, Control(s.n)); }
    else { assert Next(l, w, s).queued == w.queued; }
  }

  lemma SliceGrows(steps: seq<Step>, from: nat, k: nat, s: Step)
    requires from <= k < |steps|
    ensures s in steps[from..k + 1] <==> s in steps[from..k] || s == steps[k]
  {
    assert steps[from..k + 1] == steps[from..k] + [steps[k]];
  }

  /** A lost connection sends nothing more, unless the stream was already half-closed. */
  lemma {:induction false} LostConnectionIsSilent(
      l: Limits, ws: seq<Worker>, steps: seq<Step>, m: nat, n: nat)
    requires IsRun(l, ws, steps) && m < n <= |steps| && steps[m] == LoseConnection && ws[m].sender != HalfClosed
    ensures ws[n].sender == Gone && ws[n].wire == ws[m].wire
    decreases n
  {
    var k := n - 1;
    assert Enabled(l, ws[k], steps[k]) && ws[k + 1] == Next(l, ws[k], steps[k]);
    if m < k {
      LostConnectionIsSilent(l, ws, steps, m, k);
      GoneStays(l, ws[k], steps[k]);
    }
  }

  lemma GoneStays(l: Limits, w: Worker, s: Step)
    requires Enabled(l, w, s) && w.sender == Gone
    ensures Next(l, w, s).sender == Gone && Next(l, w, s).wire == w.wire
  {
    if !Queues(s) { SameQueues(l, w, s); }
  }

  /** A queued report is lost if and only if its job queued it after the send loop had seen its
      queue empty. */
  lemma {:induction false} ReportLostIff(l: Limits, ws: seq<Worker>, steps: seq<Step>, m: nat, n: nat, j: nat)
    requires IsRun(l, ws, steps) && m < n <= |steps| && steps[m] == SeeEmpty
    ensures Report(j) in ws[n].queued && Report(j) !in ws[n].wire <==> QueueReport(j) in steps[m + 1..n]
    decreases n, 1
  {
    FlushSendsAll(l, ws, steps, m, n);
    if m + 1 == n {
      assert ws[m + 1] == Next(l, ws[m], steps[m]);
    } else {
      LostStep(l, ws, steps, m, n - 1, j);
    }
  }

  lemma {:induction false} LostStep(l: Limits, ws: seq<Worker>, steps: seq<Step>, m: nat, k: nat, j: nat)
    requires IsRun(l, ws, steps) && m < k < |steps| && steps[m] == SeeEmpty
    ensures Report(j) in ws[k + 1].queued && Report(j) !in ws[m].queued <==> QueueReport(j) in steps[m + 1..k + 1]
    decreases k + 1, 0
  {
    ReportLostIff(l, ws, steps, m, k, j);
    FlushSendsAll(l, ws, steps, m, k);
    SliceGrows(steps, m + 1, k, QueueReport(j));
    RunKeeps(l, ws, steps, k);
    assert Enabled(l, ws[k], steps[k]) && ws[k + 1] == Next(l, ws[k], steps[k]);
    ReportStep(l, ws[k], steps[k], j);
  }

  /** And that happens only after a Stop: once a drain has closed flushCh, a job can queue a report
      in no state but a stopped one. */
  lemma LateReportNeedsStop(l: Limits, ws: seq<Worker>, steps: seq<Step>, m: nat, n: nat, j: nat)
    requires IsRun(l, ws, steps) && m < n < |steps| && steps[m] == SeeEmpty && steps[n] == QueueReport(j)
    ensures ws[n].phase == Stopped
  {
    RunKeeps(l, ws, steps, m);
    assert Enabled(l, ws[m], steps[m]) && Enabled(l, ws[n], steps[n]);
    PhaseMovesForward(l, ws, steps, m, n);
    RunKeeps(l, ws, steps, n);
  }

  /** Every half-close follows the test that saw the queue empty. */
  lemma {:induction false} ClosedAfterSeeEmpty(l: Limits, ws: seq<Worker>, steps: seq<Step>, n: nat)
    requires IsRun(l, ws, steps) && n <= |steps| && Closed(ws[n].sender)
    ensures exists m | 0 <= m < n :: steps[m] == SeeEmpty
  {
    assert n > 0;
    var k := n - 1;
    assert Enabled(l, ws[k], steps[k]) && ws[k + 1] == Next(l, ws[k], steps[k]);
    if steps[k] != SeeEmpty {
      OnlySeeEmptyCloses(l, ws[k], steps[k]);
      ClosedAfterSeeEmpty(l, ws, steps, k);
    }
  }

  lemma OnlySeeEmptyCloses(l: Limits, w: Worker, s: Step)
    requires Enabled(l, w, s) && Closed(Next(l, w, s).sender) && s != SeeEmpty
    ensures Closed(w.sender)
  {
    if !Queues(s) && !s.SendOne? && !s.FlushOne? { SameQueues(l, w, s); }
  }

  /** Nothing is sent after the half-close. */
  lemma {:induction false} HalfClosedStays(l: Limits, ws: seq<Worker>, steps: seq<Step>, h: nat, n: nat)
    requires IsRun(l, ws, steps) && h < n <= |steps| && steps[h] == HalfClose
    ensures ws[n].sender == HalfClosed && ws[n].wire == ws[h].wire
    decreases n
  {
    var k := n - 1;
    assert Enabled(l, ws[k], steps[k]) && ws[k + 1] == Next(l, ws[k], steps[k]);
    if h < k { HalfClosedStays(l, ws, steps, h, k); }
    WireStep(l, ws[k], steps[k]);
  }

  lemma NoReportLeft(w: Worker, j: nat)
    requires Fifo(w) && Reported(w) && w.sender == HalfClosed && w.phase == Draining
    ensures Report(j) in w.queued ==> Report(j) in w.wire
    ensures j in w.finished && w.finished[j] ==> Report(j) in w.wire
  {
    if Report(j) in w.queued { assert Report(j) !in w.outCh; }
  }

  /** Graceful drain loses no report: from the half-close on, in every state in which the worker
      is still draining, every report ever queued on this connection has been sent, that of every
      ended job that queued one included; and nothing is sent after the half-close. */
  lemma DrainLosesNoReport(
      l: Limits, ws: seq<Worker>, steps: seq<Step>, h: nat, n: nat, j: nat)
    requires IsRun(l, ws, steps) && h < n <= |steps| && steps[h] == HalfClose
    ensures ws[n].sender == HalfClosed && ws[n].wire == ws[h].wire
    ensures ws[n].phase == Draining && Report(j) in ws[n].queued ==> Report(j) in ws[n].wire
    ensures ws[n].phase == Draining && j in ws[n].finished && ws[n].finished[j] ==> Report(j) in ws[n].wire
  {
    HalfClosedStays(l, ws, steps, h, n);
    RunKeeps(l, ws, steps, n);
    if ws[n].phase == Draining { NoReportLeft(ws[n], j); }
  }

  /** The worker after the steps, if each of them can be taken. */
  ghost function After(l: Limits, w: Worker, steps: seq<Step>): Option<Worker>
    decreases |steps|
  {
    if steps == [] then Some(w)
    else if !Enabled(l, w, steps[0]) then None
    else After(l, Next(l, w, steps[0]), steps[1..])
  }

  lemma {:induction false} AfterSplit(l: Limits, w: Worker, first: seq<Step>, rest: seq<Step>)
    requires After(l, w, first).Some?
    ensures After(l, w, first + rest) == After(l, After(l, w, first).value, rest)
    decreases |first|
  {
    if first == [] {
      assert first + rest == rest;
    } else {
      assert (first + rest)[1..] == first[1..] + rest;
      AfterSplit(l, Next(l, w, first[0]), first[1..], rest);
    }
  }

  lemma AfterOne(l: Limits, w: Worker, s: Step, rest: seq<Step>)
    requires Enabled(l, w, s)
    ensures After(l, w, [s] + rest) == After(l, Next(l, w, s), rest)
  {
    assert ([s] + rest)[1..] == rest;
  }

  /** A drain stores Draining. */
  const STORE_DRAINING: seq<Step> := [BeginCas(0, Draining)] + ([CasLoad(0)] + ([CasSwap(0)] + []))

  lemma StoresDraining(l: Limits, w: Worker)
    requires w.cas == map[] && w.phase != Draining && w.phase != Stopped
    ensures After(l, w, STORE_DRAINING) == Some(w.(phase := Draining, drains := w.drains + 1))
  {
    var w1 := w.(cas := map[0 := Cas(Draining, None)]);
    AfterOne(l, w, BeginCas(0, Draining), [CasLoad(0)] + ([CasSwap(0)] + []));
    assert Next(l, w, BeginCas(0, Draining)) == w1;
    StoresLoaded(l, w1);
    assert map[0 := Cas(Draining, None)] - {0} == map[];
  }

  lemma StoresLoaded(l: Limits, w: Worker)
    requires 0 in w.cas && w.cas[0] == Cas(Draining, None) && w.phase != Stopped
    ensures After(l, w, [CasLoad(0)] + ([CasSwap(0)] + [])) ==
              Some(w.(phase := Draining, drains := w.drains + 1, cas := w.cas - {0}))
  {
    var w1 := w.(cas := w.cas[0 := Cas(Draining, Some(w.phase))]);
    AfterOne(l, w, CasLoad(0), [CasSwap(0)] + []);
    assert Next(l, w, CasLoad(0)) == w1;
    AfterOne(l, w1, CasSwap(0), []);
    assert w1.cas - {0} == w.cas - {0};
  }

  function CasAlone(t: nat, next: Phase): seq<Step> {
    [BeginCas(t, next)] + ([CasLoad(t)] + ([CasSwap(t)] + []))
  }

  /** A compare-and-swap loop that nothing disturbs stores its phase, unless the worker is stopped, or
      drains and the loop is one that respects draining. */
  lemma StoresAlone(l: Limits, w: Worker, t: nat, next: Phase)
    requires t !in w.cas && (next == Connecting || next == Connected || next == Draining)
    requires w.phase != Stopped && (next == Draining || w.phase != Draining)
    ensures After(l, w, CasAlone(t, next)).Some? && After(l, w, CasAlone(t, next)).value.phase == next
  {
    var w1 := w.(cas := w.cas[t := Cas(next, None)]);
    var w2 := w.(cas := w.cas[t := Cas(next, Some(w.phase))]);
    AfterOne(l, w, BeginCas(t, next), [CasLoad(t)] + ([CasSwap(t)] + []));
    assert w1.cas[t := Cas(next, Some(w.phase))] == w2.cas;
    AfterOne(l, w1, CasLoad(t), [CasSwap(t)] + []);
    AfterOne(l, w2, CasSwap(t), []);
  }

  /** In those two cases it gives up and changes no phase. */
  lemma GivesUpAlone(l: Limits, w: Worker, t: nat, next: Phase)
    requires t !in w.cas && (next == Connecting || next == Connected || next == Draining)
    requires w.phase == Stopped || (next != Draining && w.phase == Draining)
    ensures After(l, w, [BeginCas(t, next)] + ([CasLoad(t)] + [])).Some?
    ensures var w' := After(l, w, [BeginCas(t, next)] + ([CasLoad(t)] + [])).value;
            w'.phase == w.phase && t !in w'.cas
  {
    var w1 := w.(cas := w.cas[t := Cas(next, None)]);
    AfterOne(l, w, BeginCas(t, next), [CasLoad(t)] + []);
    AfterOne(l, w1, CasLoad(t), []);
  }

  /** It reads zero, and the send loop sees its queue empty. */
  const FLUSH: seq<Step> := [ReadZero] + ([BeginFlush] + ([SeeEmpty] + []))

  lemma Flushes(l: Limits, w: Worker)
    requires w.drains > 0 && w.jobCount <= 0 && w.sender == Looping && w.outCh == []
    ensures After(l, w, FLUSH) == Some(w.(flush := true, sender := Closing))
  {
    var w1 := w.(flush := true);
    AfterOne(l, w, ReadZero, [BeginFlush] + ([SeeEmpty] + []));
    AfterOne(l, w1, BeginFlush, [SeeEmpty] + []);
    AfterOne(l, w1.(sender := Flushing), SeeEmpty, []);
  }

  /** After a Stop an assignment is admitted. */
  function StopAndAdmit(key: nat, j: nat): seq<Step> {
    [Stop] + ([Assign(key)] + ([Count] + ([CheckDraining] + ([CheckCapacity] + ([Spawn(j)] + [])))))
  }

  /** A job from its report to its end, and the half-close. */
  function LateReport(j: nat): seq<Step> {
    [QueueReport(j)] + ([RemoveActive(j)] + ([Uncount(j)] + ([HalfClose] + [])))
  }

  lemma StopsAndAdmits(l: Limits, w: Worker, key: nat, j: nat)
    requires w.jobs == map[] && w.finished == map[] && w.jobCount == 0 && w.receiver == Waiting
    requires key !in w.activeKeys && l.maxConcurrentJobs > 0
    ensures After(l, w, StopAndAdmit(key, j)) ==
              Some(w.(phase := Stopped, jobCount := 1, activeKeys := w.activeKeys + {key},
                      jobs := map[j := Job(key, Executing)]))
  {
    var w1 := w.(phase := Stopped);
    var w2 := w1.(jobCount := 1, receiver := Counted(key, 1));
    AfterOne(l, w, Stop, StopAndAdmit(key, j)[1..]);
    Counted1(l, w1, key, j);
    Admits(l, w2, key, j);
  }

  lemma Counted1(l: Limits, w: Worker, key: nat, j: nat)
    requires w.jobCount == 0 && w.receiver == Waiting && key !in w.activeKeys
    ensures After(l, w, StopAndAdmit(key, j)[1..]) ==
              After(l, w.(jobCount := 1, receiver := Counted(key, 1)), StopAndAdmit(key, j)[3..])
  {
    var rest := StopAndAdmit(key, j)[3..];
    var w1 := w.(receiver := Fresh(key));
    assert StopAndAdmit(key, j)[1..] == [Assign(key)] + ([Count] + rest);
    AfterOne(l, w, Assign(key), [Count] + rest);
    AfterOne(l, w1, Count, rest);
  }

  lemma Admits(l: Limits, w: Worker, key: nat, j: nat)
    requires w.phase == Stopped && w.receiver == Counted(key, 1) && l.maxConcurrentJobs > 0
    requires key !in w.activeKeys && j !in w.jobs && j !in w.finished
    ensures After(l, w, StopAndAdmit(key, j)[3..]) ==
              Some(w.(receiver := Waiting, activeKeys := w.activeKeys + {key},
                      jobs := w.jobs[j := Job(key, Executing)]))
  {
    var w1 := w.(receiver := NotDraining(key, 1));
    var w2 := w.(receiver := Admitted(key));
    assert StopAndAdmit(key, j)[3..] == [CheckDraining] + ([CheckCapacity] + ([Spawn(j)] + []));
    AfterOne(l, w, CheckDraining, [CheckCapacity] + ([Spawn(j)] + []));
    AfterOne(l, w1, CheckCapacity, [Spawn(j)] + []);
    AfterOne(l, w2, Spawn(j), []);
  }

  /** From every reachable state between the test and CloseRequest in which a job still executes and
      there is room, the job can queue its report and end, and its report is never sent. */
  lemma LateReportIsLost(l: Limits, w: Worker, j: nat)
    requires Fifo(w) && Reported(w) && w.sender == Closing
    requires j in w.jobs && w.jobs[j].pc.Executing? && |w.outCh| < l.outCap
    ensures After(l, w, LateReport(j)).Some?
    ensures var w1 := After(l, w, LateReport(j)).value;
            && w1.sender == HalfClosed && j in w1.finished && w1.finished[j]
            && w1.wire == w.wire && Report(j) !in w1.wire
  {
    var key := w.jobs[j].key;
    var w1 := Push(w.(jobs := w.jobs[j := Job(key, Ending(true))]), Report(j));
    AfterOne(l, w, QueueReport(j), LateReport(j)[1..]);
    assert Report(j) !in w.queued && w.queued == w.wire + w.outCh;
    EndsAndCloses(l, w1, j);
  }

  lemma EndsAndCloses(l: Limits, w: Worker, j: nat)
    requires w.sender == Closing && j in w.jobs && w.jobs[j].pc == Ending(true)
    ensures After(l, w, LateReport(j)[1..]).Some?
    ensures var w1 := After(l, w, LateReport(j)[1..]).value;
            w1.sender == HalfClosed && w1.wire == w.wire && w1.finished == w.finished[j := true]
  {
    var key := w.jobs[j].key;
    var w1 := w.(jobs := w.jobs[j := Job(key, Removed(true))], activeKeys := w.activeKeys - {key});
    var w2 := w1.(jobs := w1.jobs - {j}, jobCount := w1.jobCount - 1, finished := w1.finished[j := true]);
    assert LateReport(j)[1..] == [RemoveActive(j)] + ([Uncount(j)] + ([HalfClose] + []));
    AfterOne(l, w, RemoveActive(j), [Uncount(j)] + ([HalfClose] + []));
    AfterOne(l, w1, Uncount(j), [HalfClose] + []);
    AfterOne(l, w2, HalfClose, []);
  }

  /** Such a run exists from every idle new connection: a drain reads zero and the send loop sees its
      queue empty; Stop comes, an assignment is admitted because the worker is no longer draining,
      and its job reports between the test and CloseRequest. */
  lemma StoppedDrainLosesReport(l: Limits, w: Worker, key: nat, j: nat)
    requires Init(l, w) && w.jobs == map[] && (w.phase == Connecting || w.phase == Connected)
    requires key !in w.activeKeys && l.maxConcurrentJobs > 0 && l.outCap > 0
    ensures var steps := STORE_DRAINING + (FLUSH + (StopAndAdmit(key, j) + LateReport(j)));
            && After(l, w, steps).Some?
            && var w1 := After(l, w, steps).value;
               w1.sender == HalfClosed && j in w1.finished && w1.finished[j] && Report(j) !in w1.wire
  {
    var rest := StopAndAdmit(key, j) + LateReport(j);
    StoresDraining(l, w);
    AfterSplit(l, w, STORE_DRAINING, FLUSH + rest);
    var w1 := w.(phase := Draining, drains := w.drains + 1);
    Flushes(l, w1);
    AfterSplit(l, w1, FLUSH, rest);
    var w2 := w1.(flush := true, sender := Closing);
    StopsAndAdmits(l, w2, key, j);
    AfterSplit(l, w2, StopAndAdmit(key, j), LateReport(j));
    LateReportIsLost(l, After(l, w2, StopAndAdmit(key, j)).value, j);
  }

  /** A nack or another control message can be lost the same way while the worker still drains. */
  lemma DrainLosesControl(l: Limits, w: Worker, n: nat)
    requires Init(l, w) && w.jobs == map[] && (w.phase == Connecting || w.phase == Connected) && l.outCap > 0
    ensures var steps := STORE_DRAINING + (FLUSH + ([QueueControl(n)] + ([HalfClose] + [])));
            && After(l, w, steps).Some?
            && var w1 := After(l, w, steps).value;
               w1.sender == HalfClosed && w1.phase == Draining && w1.queued == [Control(n)] && w1.wire == []
  {
    var rest := [QueueControl(n)] + ([HalfClose] + []);
    StoresDraining(l, w);
    AfterSplit(l, w, STORE_DRAINING, FLUSH + rest);
    var w1 := w.(phase := Draining, drains := w.drains + 1);
    Flushes(l, w1);
    AfterSplit(l, w1, FLUSH, rest);
    var w2 := w1.(flush := true, sender := Closing);
    AfterOne(l, w2, QueueControl(n), [HalfClose] + []);
    AfterOne(l, Push(w2, Control(n)), HalfClose, []);
  }

  // ------------------------------------------------------------------- admission

  /** The assignment in hand is for a key that no active job has. */
  predicate KeyFree(w: Worker) {
    w.receiver != Waiting ==> w.receiver.key !in w.activeKeys
  }

  lemma KeyFreeKept(l: Limits, w: Worker, s: Step)
    requires KeyFree(w) && Enabled(l, w, s)
    ensures KeyFree(Next(l, w, s))
  {
    if !ByReceiver(s) { OthersLeaveKeys(l, w, s); }
  }

  lemma OthersLeaveKeys(l: Limits, w: Worker, s: Step)
    requires Enabled(l, w, s) && !ByReceiver(s)
    ensures Next(l, w, s).receiver == w.receiver && Next(l, w, s).activeKeys <= w.activeKeys
  {
  }

  lemma {:induction false} RunKeyFree(l: Limits, ws: seq<Worker>, steps: seq<Step>, n: nat)
    requires IsRun(l, ws, steps) && n <= |steps|
    ensures KeyFree(ws[n])
  {
    if n > 0 {
      var m := n - 1;
      RunKeyFree(l, ws, steps, m);
      assert Enabled(l, ws[m], steps[m]) && ws[m + 1] == Next(l, ws[m], steps[m]);
      KeyFreeKept(l, ws[m], steps[m]);
    }
  }

  lemma JobMoved(jobs: map<nat, Job>, keys: set<nat>, j: nat, job: Job, keys': set<nat>)
    requires OneJobAKey(jobs, keys)
    requires j in jobs ==> job.key == jobs[j].key && (jobs[j].pc.Removed? ==> job.pc.Removed?)
    requires j !in jobs ==> job.key !in keys
    requires keys' == if job.pc.Removed? && j in jobs && !jobs[j].pc.Removed? then keys - {job.key}
                      else if j in jobs then keys else keys + {job.key}
    ensures OneJobAKey(jobs[j := job], keys')
  {
  }

  lemma KeysKept(l: Limits, w: Worker, s: Step)
    requires OneJobAKey(w.jobs, w.activeKeys) && Enabled(l, w, s)
    ensures OneJobAKey(Next(l, w, s).jobs, Next(l, w, s).activeKeys)
  {
    if ByJob(s) && !s.Uncount? {
      JobMoves(l, w, s);
      JobMoved(w.jobs, w.activeKeys, s.job, Next(l, w, s).jobs[s.job], Next(l, w, s).activeKeys);
    } else if s.Spawn? && w.receiver.key !in w.activeKeys {
      var job := Job(w.receiver.key, Executing);
      JobMoved(w.jobs, w.activeKeys, s.job, job, w.activeKeys + {w.receiver.key});
    } else if !ByReceiver(s) {
      FewerJobs(l, w, s);
    }
  }

  lemma FewerJobs(l: Limits, w: Worker, s: Step)
    requires Enabled(l, w, s) && !ByReceiver(s) && (ByJob(s) ==> s.Uncount?)
    ensures Next(l, w, s).activeKeys == w.activeKeys
    ensures s.Uncount? ==> Next(l, w, s).jobs == w.jobs - {s.job}
    ensures !s.Uncount? ==> Next(l, w, s).jobs == w.jobs
  {
  }

  /** A duplicate assignment never runs beside the job it repeats: in every state of every run, jobs
      that still execute or report have different keys. */
  lemma {:induction false} NoTwoJobsOfOneKey(
      l: Limits, ws: seq<Worker>, steps: seq<Step>, n: nat, i: nat, j: nat)
    requires IsRun(l, ws, steps) && n <= |steps|
    ensures OneJobAKey(ws[n].jobs, ws[n].activeKeys)
    ensures var jobs := ws[n].jobs;
            i in jobs && j in jobs && i != j && jobs[i].pc.Executing? && jobs[j].pc.Executing? ==>
              jobs[i].key != jobs[j].key
  {
    if n > 0 {
      var m := n - 1;
      NoTwoJobsOfOneKey(l, ws, steps, m, i, j);
      assert Enabled(l, ws[m], steps[m]) && ws[m + 1] == Next(l, ws[m], steps[m]);
      KeysKept(l, ws[m], steps[m]);
    }
  }

  /** From step m on the receive loop handles the assignment of this key, up to state n. */
  ghost predicate Handles(ws: seq<Worker>, steps: seq<Step>, m: nat, n: nat, key: nat) {
    && m < n <= |steps| < |ws| && steps[m] == Assign(key) && key !in ws[m].activeKeys
    && forall i | m < i < n :: ws[i].receiver != Waiting
  }

  /** What is known of the assignment in hand, by the moments at which its key was counted and the
      draining test was made. */
  ghost predicate Known(
    l: Limits, ws: seq<Worker>, steps: seq<Step>, m: nat, n: nat, key: nat, counted: nat, tested: nat)
    requires n <= |steps| && n < |ws|
  {
    match ws[n].receiver
    case Waiting => false
    case Fresh(k) => k == key
    case Counted(k, count) => k == key && CountedAt(ws, steps, m, n, counted, count)
    case NotDraining(k, count) =>
      k == key && CountedAt(ws, steps, m, n, counted, count) && PassedAt(ws, steps, counted, n, tested)
    case Admitted(k) =>
      && k == key && PassedAt(ws, steps, counted, n, tested)
      && CountedAt(ws, steps, m, n, counted, |ws[counted].jobs| + 1) && |ws[counted].jobs| < l.maxConcurrentJobs
  }

  ghost predicate CountedAt(ws: seq<Worker>, steps: seq<Step>, m: nat, n: nat, counted: nat, count: int)
    requires n <= |steps| && n < |ws|
  {
    m < counted < n && steps[counted] == Count && count == |ws[counted].jobs| + 1
  }

  ghost predicate PassedAt(ws: seq<Worker>, steps: seq<Step>, counted: nat, n: nat, tested: nat)
    requires n <= |steps| && n < |ws|
  {
    counted < tested < n && steps[tested] == CheckDraining && ws[tested].phase != Draining
  }

  /** One step of the receive loop, from its stage. */
  lemma ReceiverMoves(l: Limits, w: Worker, s: Step)
    requires Enabled(l, w, s) && w.receiver != Waiting && Counts(w)
    ensures var w' := Next(l, w, s);
            match w.receiver
            case Fresh(k) => w'.receiver == w.receiver || (s == Count && w'.receiver == Counted(k, |w.jobs| + 1))
            case Counted(k, c) =>
              || w'.receiver == w.receiver
              || (s == CheckDraining && w'.receiver == if w.phase == Draining then Waiting else NotDraining(k, c))
            case NotDraining(k, c) =>
              || w'.receiver == w.receiver
              || (s == CheckCapacity && w'.receiver == if c <= l.maxConcurrentJobs then Admitted(k) else Waiting)
            case Admitted(_) => w'.receiver == w.receiver || ((s.Spawn? || s.Convert?) && w'.receiver == Waiting)
  {
    if !ByReceiver(s) { OthersCount(l, w, s); }
  }

  lemma {:induction false} Handling(l: Limits, ws: seq<Worker>, steps: seq<Step>, m: nat, n: nat, key: nat)
    returns (counted: nat, tested: nat)
    requires IsRun(l, ws, steps) && Handles(ws, steps, m, n, key) && ws[n].receiver != Waiting
    ensures Known(l, ws, steps, m, n, key, counted, tested)
    decreases n
  {
    var k := n - 1;
    assert Enabled(l, ws[k], steps[k]) && ws[k + 1] == Next(l, ws[k], steps[k]);
    if k == m {
      counted, tested := 0, 0;
    } else {
      counted, tested := Handling(l, ws, steps, m, k, key);
      RunKeeps(l, ws, steps, k);
      ReceiverMoves(l, ws[k], steps[k]);
      if ws[n].receiver != ws[k].receiver && ws[k].receiver.Fresh? { counted := k; }
      if ws[n].receiver != ws[k].receiver && ws[k].receiver.Counted? { tested := k; }
    }
  }

  /** The step started a job for the key. */
  predicate Starts(w: Worker, w': Worker, key: nat) {
    exists j | j in w'.jobs :: j !in w.jobs && w'.jobs[j] == Job(key, Executing)
  }

  /** The last step of an assignment. */
  lemma LastMove(l: Limits, w: Worker, s: Step)
    requires Enabled(l, w, s) && Inv(l, w) && KeyFree(w) && w.receiver != Waiting && Next(l, w, s).receiver == Waiting
    ensures Starts(w, Next(l, w, s), w.receiver.key) <==> w.receiver.Admitted? && s != Convert
    ensures !w.receiver.Fresh?
    ensures w.receiver.Counted? ==> s == CheckDraining && w.phase == Draining
    ensures w.receiver.NotDraining? ==> w.receiver.count > l.maxConcurrentJobs
  {
    ReceiverMoves(l, w, s);
    if s.Spawn? {
      assert s.job in Next(l, w, s).jobs;
    } else {
      if ByReceiver(s) { ReceiverJobs(l, w, s); } else { OthersCount(l, w, s); }
    }
  }

  lemma TakenUp(l: Limits, ws: seq<Worker>, steps: seq<Step>, m: nat, key: nat)
    requires IsRun(l, ws, steps) && m < |steps| && steps[m] == Assign(key) && key !in ws[m].activeKeys
    ensures ws[m + 1].receiver == Fresh(key)
  {
    assert Enabled(l, ws[m], steps[m]) && ws[m + 1] == Next(l, ws[m], steps[m]);
  }

  lemma RunLastMove(l: Limits, ws: seq<Worker>, steps: seq<Step>, k: nat)
    requires IsRun(l, ws, steps) && k < |steps| && ws[k].receiver != Waiting && ws[k + 1].receiver == Waiting
    ensures Starts(ws[k], ws[k + 1], ws[k].receiver.key) <==> ws[k].receiver.Admitted? && steps[k] != Convert
    ensures !ws[k].receiver.Fresh?
    ensures ws[k].receiver.Counted? ==> steps[k] == CheckDraining && ws[k].phase == Draining
    ensures ws[k].receiver.NotDraining? ==> ws[k].receiver.count > l.maxConcurrentJobs
  {
    assert Enabled(l, ws[k], steps[k]) && ws[k + 1] == Next(l, ws[k], steps[k]);
    RunKeeps(l, ws, steps, k);
    RunKeyFree(l, ws, steps, k);
    LastMove(l, ws[k], steps[k]);
  }

  /** The handling was counted and tested at these moments, and started a job exactly when it should. */
  ghost predicate StartsIff(
    l: Limits, ws: seq<Worker>, steps: seq<Step>, m: nat, n: nat, key: nat, counted: nat, tested: nat)
    requires 0 < n <= |steps| < |ws|
  {
    && m < counted < tested < n && steps[counted] == Count && steps[tested] == CheckDraining
    && (Starts(ws[n - 1], ws[n], key) <==>
          && ws[tested].phase != Draining && |ws[counted].jobs| < l.maxConcurrentJobs
          && steps[n - 1] != Convert)
  }

  lemma Decides(
      l: Limits, ws: seq<Worker>, steps: seq<Step>, m: nat, k: nat, key: nat, counted: nat, tested: nat)
    requires m < k < |steps| < |ws| && Known(l, ws, steps, m, k, key, counted, tested)
    requires Starts(ws[k], ws[k + 1], key) <==> ws[k].receiver.Admitted? && steps[k] != Convert
    requires !ws[k].receiver.Fresh?
    requires ws[k].receiver.Counted? ==> steps[k] == CheckDraining && ws[k].phase == Draining
    requires ws[k].receiver.NotDraining? ==> ws[k].receiver.count > l.maxConcurrentJobs
    ensures StartsIff(l, ws, steps, m, k + 1, key, counted, if ws[k].receiver.Counted? then k else tested)
  {
  }

  /** Admission is exact: in every interleaving, in every phase, an assignment whose key is not active
      is counted at one moment and tested at a later one, and when its handling ends it has started a
      job if and only if the worker was not draining when it was tested, fewer than
      MaxConcurrentJobs jobs ran when it was counted, and it converts. */
  lemma AssignmentStartsIff(l: Limits, ws: seq<Worker>, steps: seq<Step>, m: nat, n: nat, key: nat)
    returns (counted: nat, tested: nat)
    requires IsRun(l, ws, steps) && Handles(ws, steps, m, n, key) && ws[n].receiver == Waiting
    ensures StartsIff(l, ws, steps, m, n, key, counted, tested)
  {
    var k := n - 1;
    TakenUp(l, ws, steps, m, key);
    counted, tested := Handling(l, ws, steps, m, k, key);
    RunLastMove(l, ws, steps, k);
    Decides(l, ws, steps, m, k, key, counted, tested);
    if ws[k].receiver.Counted? { tested := k; }
  }

  /** An assignment handled without interruption, up to its draining test, and its end. */
  function Tested(key: nat): seq<Step> {
    [Assign(key)] + ([Count] + ([CheckDraining] + []))
  }

  function Placed(j: nat): seq<Step> {
    [CheckCapacity] + ([Spawn(j)] + [])
  }

  lemma TestedAlone(l: Limits, w: Worker, key: nat)
    requires Counts(w) && w.receiver == Waiting && key !in w.activeKeys
    ensures After(l, w, Tested(key)) ==
              Some(if w.phase == Draining then w
                   else w.(jobCount := w.jobCount + 1, receiver := NotDraining(key, |w.jobs| + 1)))
  {
    var w1 := w.(receiver := Fresh(key));
    var w2 := w.(jobCount := w.jobCount + 1, receiver := Counted(key, |w.jobs| + 1));
    AfterOne(l, w, Assign(key), [Count] + ([CheckDraining] + []));
    AfterOne(l, w1, Count, [CheckDraining] + []);
    assert Next(l, w1, Count) == w2;
    AfterOne(l, w2, CheckDraining, []);
  }

  lemma PlacedAlone(l: Limits, w: Worker, key: nat, j: nat)
    requires w.receiver == NotDraining(key, |w.jobs| + 1) && |w.jobs| < l.maxConcurrentJobs
    requires key !in w.activeKeys && j !in w.jobs && j !in w.finished
    ensures After(l, w, Placed(j)) ==
              Some(w.(receiver := Waiting, activeKeys := w.activeKeys + {key},
                      jobs := w.jobs[j := Job(key, Executing)]))
  {
    var w1 := w.(receiver := Admitted(key));
    AfterOne(l, w, CheckCapacity, [Spawn(j)] + []);
    AfterOne(l, w1, Spawn(j), []);
  }

  /** And it is not refused for nothing: from every reachable state of a worker that is not draining,
      idle, connecting, connected or stopped, with room, an assignment handled without interruption
      starts its job. */
  lemma AssignmentAlone(l: Limits, w: Worker, key: nat, j: nat)
    requires Inv(l, w) && w.receiver == Waiting && w.phase != Draining && |w.jobs| < l.maxConcurrentJobs
    requires key !in w.activeKeys && j !in w.jobs && j !in w.finished
    ensures After(l, w, Tested(key) + Placed(j)) ==
              Some(w.(jobCount := w.jobCount + 1, activeKeys := w.activeKeys + {key},
                      jobs := w.jobs[j := Job(key, Executing)]))
  {
    TestedAlone(l, w, key);
    AfterSplit(l, w, Tested(key), Placed(j));
    PlacedAlone(l, w.(jobCount := w.jobCount + 1, receiver := NotDraining(key, |w.jobs| + 1)), key, j);
  }

  /** While it drains, or is full, it is refused and the worker is as before. */
  lemma RefusedAlone(l: Limits, w: Worker, key: nat)
    requires Inv(l, w) && w.receiver == Waiting && key !in w.activeKeys
    ensures w.phase == Draining ==> After(l, w, Tested(key)) == Some(w)
    ensures w.phase != Draining && |w.jobs| >= l.maxConcurrentJobs ==>
              After(l, w, Tested(key) + ([CheckCapacity] + [])) == Some(w)
  {
    TestedAlone(l, w, key);
    if w.phase != Draining && |w.jobs| >= l.maxConcurrentJobs {
      var w1 := w.(jobCount := w.jobCount + 1, receiver := NotDraining(key, |w.jobs| + 1));
      AfterSplit(l, w, Tested(key), [CheckCapacity] + []);
      AfterOne(l, w1, CheckCapacity, []);
    }
  }

  // ----------------------------------------------------------- the polling worker

  /** Worker (ironflow/worker.go): admission and the store of Draining share a mutex. */
  datatype Poller = Poller(
    phase: Phase,
    active: set<nat>,   // the keys of the active jobs
    running: nat,       // job goroutines that still count
    jobCount: int,
    drains: nat,        // Drain calls that are past their store of Draining
    sawZero: bool)

  datatype PollStep =
    | Process(key: nat)
    | Remove(key: nat)  // the job's goroutine gives up its key
    | Finish            // and then its count
    | Drain
    | PollReadZero
    | PollStop
    | Reconnect

  predicate PollEnabled(w: Poller, s: PollStep) {
    match s
    case Process(_) => true
    case Remove(k) => k in w.active
    case Finish => w.running > |w.active|
    case Drain => w.phase != Stopped
    case PollReadZero => w.drains > 0 && w.jobCount <= 0
    case PollStop => true
    case Reconnect => true
  }

  function PollNext(w: Poller, s: PollStep): Poller
    requires PollEnabled(w, s)
  {
    match s
    case Process(k) =>
      if w.phase == Draining || w.phase == Stopped then w
      else if k in w.active then w
      else w.(active := w.active + {k}, running := w.running + 1, jobCount := w.jobCount + 1)
    case Remove(k) => w.(active := w.active - {k})
    case Finish => w.(running := w.running - 1, jobCount := w.jobCount - 1)
    case Drain => w.(phase := Draining, drains := w.drains + 1)
    case PollReadZero => w.(sawZero := true)
    case PollStop => w.(phase := Stopped)
    case Reconnect => if w.phase == Draining || w.phase == Stopped then w else w.(phase := Connected)
  }

  ghost predicate IsPollRun(ws: seq<Poller>, steps: seq<PollStep>) {
    && |ws| == |steps| + 1
    && ws[0].jobCount == ws[0].running == |ws[0].active| && ws[0].drains == 0 && !ws[0].sawZero
    && forall i | 0 <= i < |steps| :: PollEnabled(ws[i], steps[i]) && ws[i + 1] == PollNext(ws[i], steps[i])
  }

  /** The polling worker keeps the same promise, and even past Stop: once any Drain call has read
      a zero count, whether or not Stop came first, no job runs in any later state. */
  lemma {:induction false} PollerNothingStartsAfterZero(ws: seq<Poller>, steps: seq<PollStep>, n: nat)
    requires IsPollRun(ws, steps) && n <= |steps|
    ensures ws[n].jobCount == ws[n].running >= |ws[n].active|
    ensures ws[n].drains > 0 ==> ws[n].phase == Draining || ws[n].phase == Stopped
    ensures ws[n].sawZero ==> ws[n].running == 0 && ws[n].active == {} && ws[n].drains > 0
  {
    if n > 0 {
      PollerNothingStartsAfterZero(ws, steps, n - 1);
      var m := n - 1;
      assert PollEnabled(ws[m], steps[m]) && ws[m + 1] == PollNext(ws[m], steps[m]);
      if steps[m].Remove? {
        assert ws[m].active == ws[n].active + {steps[m].key};
      } else if steps[m].PollReadZero? {
        assert |ws[m].active| == 0;
      }
    }
  }

  /** Stop of the polling worker is final, and a reconnect shows only while it neither drains nor is
      stopped. */
  lemma {:induction false} PollStopIsFinal(ws: seq<Poller>, steps: seq<PollStep>, m: nat, n: nat)
    requires IsPollRun(ws, steps) && m < n <= |steps| && steps[m] == PollStop
    ensures ws[n].phase == Stopped && ws[n].active <= ws[m].active
    decreases n
  {
    var k := n - 1;
    if m < k { PollStopIsFinal(ws, steps, m, k); }
    assert PollEnabled(ws[k], steps[k]) && ws[k + 1] == PollNext(ws[k], steps[k]);
  }

  /** And a drain, too, ends only in a stop. */
  lemma {:induction false} PollDrainStays(ws: seq<Poller>, steps: seq<PollStep>, m: nat, n: nat)
    requires IsPollRun(ws, steps) && m < n <= |steps| && steps[m] == Drain
    ensures ws[n].phase == Draining || ws[n].phase == Stopped
    ensures ws[n].drains > 0 && ws[n].active <= ws[m].active
    decreases n
  {
    var k := n - 1;
    if m < k { PollDrainStays(ws, steps, m, k); }
    assert PollEnabled(ws[k], steps[k]) && ws[k + 1] == PollNext(ws[k], steps[k]);
  }

  lemma PollReconnects(ws: seq<Poller>, steps: seq<PollStep>, n: nat)
    requires IsPollRun(ws, steps) && n < |steps| && steps[n] == Reconnect
    ensures ws[n + 1] == if ws[n].phase == Draining || ws[n].phase == Stopped then ws[n]
                         else ws[n].(phase := Connected)
  {
    assert PollEnabled(ws[n], steps[n]) && ws[n + 1] == PollNext(ws[n], steps[n]);
  }

  /** A polled job that is to start: the worker neither drains nor is stopped, and has no active job of
      its key. */
  predicate Startable(w: Poller, s: PollStep) {
    s.Process? && w.phase != Draining && w.phase != Stopped && s.key !in w.active
  }

  /** How many jobs the polled assignments so far were to start, and how many have finished. */
  ghost function Startables(ws: seq<Poller>, steps: seq<PollStep>, n: nat): nat
    requires n <= |steps| && n <= |ws|
  {
    if n == 0 then 0 else Startables(ws, steps, n - 1) + if Startable(ws[n - 1], steps[n - 1]) then 1 else 0
  }

  function Finishes(steps: seq<PollStep>): nat {
    if steps == [] then 0
    else Finishes(steps[..|steps| - 1]) + if steps[|steps| - 1].Finish? then 1 else 0
  }

  /** The polling worker starts exactly those jobs, over every run: what is running is what ran at
      first and every startable assignment since, less what has finished. */
  lemma {:induction false} PollerStartsExactly(ws: seq<Poller>, steps: seq<PollStep>, n: nat)
    requires IsPollRun(ws, steps) && n <= |steps|
    ensures ws[n].running + Finishes(steps[..n]) == ws[0].running + Startables(ws, steps, n)
  {
    if n > 0 {
      var k := n - 1;
      PollerStartsExactly(ws, steps, k);
      assert PollEnabled(ws[k], steps[k]) && ws[k + 1] == PollNext(ws[k], steps[k]);
      assert steps[..n][..k] == steps[..k];
    }
  }

  /** And a started job has its key until it is removed. */
  lemma {:induction false} StartedJobIsActive(ws: seq<Poller>, steps: seq<PollStep>, m: nat, n: nat)
    requires IsPollRun(ws, steps) && m < n <= |steps| && Startable(ws[m], steps[m])
    requires Remove(steps[m].key) !in steps[m + 1..n]
    ensures steps[m].key in ws[n].active
    decreases n
  {
    var k := n - 1;
    assert PollEnabled(ws[k], steps[k]) && ws[k + 1] == PollNext(ws[k], steps[k]);
    if m < k {
      assert steps[m + 1..n] == steps[m + 1..k] + [steps[k]];
      StartedJobIsActive(ws, steps, m, k);
    }
  }

  /** The streaming worker does not keep it past Stop: its check refuses a job only while
      draining, so from every stopped state with room, an assignment still starts a job. */
  lemma StoppedWorkerStillAdmits(l: Limits, w: Worker, key: nat, j: nat)
    requires Inv(l, w) && w.phase == Stopped && w.receiver == Waiting && |w.jobs| < l.maxConcurrentJobs
    requires key !in w.activeKeys && j !in w.jobs && j !in w.finished
    ensures var w1 := Next(l, w, Assign(key));
            && Enabled(l, w1, Count)
            && var w2 := Next(l, w1, Count);
               && Enabled(l, w2, CheckDraining)
               && var w3 := Next(l, w2, CheckDraining);
                  && Enabled(l, w3, CheckCapacity)
                  && var w4 := Next(l, w3, CheckCapacity);
                     && Enabled(l, w4, Spawn(j))
                     && j in Next(l, w4, Spawn(j)).jobs
  {
  }
}
