/** Ack bookkeeping of one bidirectional stream (ironflow/consumer_group_stream_conn.go).

    StreamConn holds the fields its mutex guards; each of its methods is one critical section.
    The second half lets any number of settle callers, the reader and the server interleave
    those sections. */
module AckBook {

  const ACK_IDS: nat := 0x1_0000_0000_0000_0000 // nextAck is a uint64

  type EventId = string

  datatype Copies = Copies(copies: nat, at: int)

  datatype Outcome = Result(ok: bool) | StreamEnded

  datatype Book = Book(
    manual: bool,
    maxAge: int,
    ended: bool,
    nextAck: nat,
    pending: set<nat>,
    channels: map<nat, seq<Outcome>>, // every outcome ever sent to the ack's channel
    delivery: map<EventId, Copies>,
    lastPrune: int)

  // -------------------------------------------------------------- specification

  function Send(channels: map<nat, seq<Outcome>>, ids: set<nat>, o: Outcome): map<nat, seq<Outcome>> {
    map id | id in channels :: if id in ids then channels[id] + [o] else channels[id]
  }

  function Finished(b: Book): Book {
    b.(ended := true, pending := {}, channels := Send(b.channels, b.pending, StreamEnded))
  }

  function Resolved(b: Book, id: nat, ok: bool): Book {
    if id in b.pending then b.(pending := b.pending - {id}, channels := Send(b.channels, {id}, Result(ok))) else b
  }

  /** A settle call gets past the stale checks. */
  predicate Live(b: Book, e: EventId) {
    !b.ended && (b.manual ==> e in b.delivery)
  }

  function NextId(b: Book): nat {
    (b.nextAck + 1) % ACK_IDS
  }

  function Registered(b: Book): Book {
    var id := NextId(b);
    b.(nextAck := id, pending := b.pending + {id}, channels := b.channels[id := []])
  }

  function Forgotten(b: Book, id: nat): Book {
    b.(pending := b.pending - {id})
  }

  predicate Stale(b: Book, e: EventId, now: int)
    requires e in b.delivery
  {
    now - b.delivery[e].at >= b.maxAge
  }

  function Pruned(b: Book, now: int): Book {
    if now - b.lastPrune >= b.maxAge
    then b.(delivery := map e | e in b.delivery && !Stale(b, e, now) :: b.delivery[e], lastPrune := now)
    else b
  }

  function Count(b: Book, e: EventId): nat {
    if e in b.delivery then b.delivery[e].copies else 0
  }

  function Arrived(b: Book, e: EventId, now: int): Book {
    b.(delivery := b.delivery[e := Copies(Count(b, e) + 1, now)])
  }

  function Marked(b: Book, e: EventId, now: int): Book {
    if b.manual then Arrived(Pruned(b, now), e, now) else b
  }

  function Settled(b: Book, e: EventId): Book {
    if e !in b.delivery then b
    else if b.delivery[e].copies <= 1 then b.(delivery := b.delivery - {e})
    else b.(delivery := b.delivery[e := b.delivery[e].(copies := b.delivery[e].copies - 1)])
  }

  // --------------------------------------------------------------------- class

  class StreamConn {
    const manual: bool
    const maxAge: int
    var ended: bool
    var nextAck: nat
    var pending: set<nat>
    var channels: map<nat, seq<Outcome>>
    var delivery: map<EventId, Copies>
    var lastPrune: int

    /** A pending ack has a channel. */
    ghost predicate Valid()
      reads this
    {
      pending <= channels.Keys
    }

    ghost function Value(): Book
      reads this
    {
      Book(manual, maxAge, ended, nextAck, pending, channels, delivery, lastPrune)
    }

    constructor (manual: bool, maxAge: int, zero: int)
      ensures Valid() && Value() == Book(manual, maxAge, false, 0, {}, map[], map[], zero)
    {
      this.manual, this.maxAge := manual, maxAge;
      ended, nextAck, pending, channels, delivery, lastPrune := false, 0, {}, map[], map[], zero;
    }

    /** Fails every pending ack, each exactly once. */
    method Finish()
      requires Valid()
      modifies this
      ensures Valid() && Value() == Finished(old(Value()))
    {
      ended := true;
      ghost var sent: set<nat> := {};
      while pending != {}
        invariant ended && Valid()
        invariant sent !! pending && sent + pending == old(pending)
        invariant channels == Send(old(channels), sent, StreamEnded)
        invariant nextAck == old(nextAck) && delivery == old(delivery) && lastPrune == old(lastPrune)
        decreases pending
      {
        var id :| id in pending;
        channels := channels[id := channels[id] + [StreamEnded]];
        pending := pending - {id};
        sent := sent + {id};
      }
      assert sent == old(pending);
    }

    method Resolve(id: nat, ok: bool)
      requires Valid()
      modifies this
      ensures Valid() && Value() == Resolved(old(Value()), id, ok)
    {
      if id in pending {
        pending := pending - {id};
        channels := channels[id := channels[id] + [Result(ok)]];
        assert channels == Send(old(channels), {id}, Result(ok));
      }
    }

    /** The first critical section of settle. */
    method Register(e: EventId) returns (r: bool, id: nat)
      requires Valid()
      modifies this
      ensures Valid() && r == Live(old(Value()), e)
      ensures r ==> id == NextId(old(Value())) && Value() == Registered(old(Value()))
      ensures !r ==> Value() == old(Value())
    {
      id := 0;
      if ended || (manual && e !in delivery) { return false, id; }
      nextAck := (nextAck + 1) % ACK_IDS;
      id := nextAck;
      channels := channels[id := []];
      pending := pending + {id};
      r := true;
    }

    method Forget(id: nat)
      requires Valid()
      modifies this
      ensures Valid() && Value() == Forgotten(old(Value()), id)
    {
      pending := pending - {id};
    }

    /** Counts a copy, after dropping every entry whose latest copy is too old. */
    method MarkDelivered(e: EventId, now: int)
      requires Valid()
      modifies this
      ensures Valid() && Value() == Marked(old(Value()), e, now)
    {
      if !manual { return; }
      if now - lastPrune >= maxAge {
        var todo := delivery.Keys;
        ghost var b := Value();
        while todo != {}
          invariant todo <= delivery.Keys <= b.delivery.Keys
          invariant Value() == b.(delivery := delivery) && channels == old(channels)
          invariant forall k | k in b.delivery && k !in todo :: k in delivery <==> !Stale(b, k, now)
          invariant forall k | k in delivery :: delivery[k] == b.delivery[k]
          decreases todo
        {
          var k :| k in todo;
          if now - delivery[k].at >= maxAge { delivery := delivery - {k}; }
          todo := todo - {k};
        }
        lastPrune := now;
        assert delivery == Pruned(b, now).delivery;
      }
      var d := if e in delivery then delivery[e] else Copies(0, now);
      delivery := delivery[e := Copies(d.copies + 1, now)];
    }

    /** The critical section of applyResult for an OK result. */
    method ApplyOk(e: EventId)
      requires Valid()
      modifies this
      ensures Valid() && Value() == Settled(old(Value()), e)
    {
      if e in delivery {
        if delivery[e].copies <= 1 { delivery := delivery - {e}; }
        else { delivery := delivery[e := delivery[e].(copies := delivery[e].copies - 1)]; }
      }
    }
  }

  // -------------------------------------------------- an independent count of copies

  datatype Happening = Arrival(e: EventId) | Settling(e: EventId) | Dropped(es: set<EventId>)

  function After(n: nat, h: Happening, e: EventId): nat {
    match h
    case Arrival(x) => if x == e then n + 1 else n
    case Settling(x) => if x == e && n > 0 then n - 1 else n
    case Dropped(es) => if e in es then 0 else n
  }

  /** The copies of e that arrived and are neither settled nor dropped. */
  function Unsettled(trace: seq<Happening>, e: EventId): nat {
    if trace == [] then 0
    else After(Unsettled(trace[..|trace| - 1], e), trace[|trace| - 1], e)
  }

  function Weight(h: Happening, e: EventId): int {
    if h == Arrival(e) then 1 else if h == Settling(e) then -1 else 0
  }

  function Balance(trace: seq<Happening>, e: EventId, from: nat): int
    requires from <= |trace|
    decreases |trace| - from
  {
    if from == |trace| then 0 else Weight(trace[from], e) + Balance(trace, e, from + 1)
  }

  predicate KeptSince(trace: seq<Happening>, e: EventId, from: nat) {
    forall i | from <= i < |trace| && trace[i].Dropped? :: e !in trace[i].es
  }

  lemma {:induction false} BalanceExtend(trace: seq<Happening>, e: EventId, from: nat, h: Happening)
    requires from <= |trace|
    ensures Balance(trace + [h], e, from) ==
            Balance(trace, e, from) + Weight(h, e)
    decreases |trace| - from
  {
    if from < |trace| {
      BalanceExtend(trace, e, from + 1, h);
    } else {
      assert Balance(trace + [h], e, from + 1) == 0;
    }
  }

  /** A copy is unsettled exactly when, counting from some point on, more copies arrived than
      were settled and none was dropped; the count is the largest such surplus. */
  lemma {:induction false} UnsettledIsLargestSurplus(trace: seq<Happening>, e: EventId)
    ensures exists k | 0 <= k <= |trace| :: KeptSince(trace, e, k) && Balance(trace, e, k) == Unsettled(trace, e)
    ensures forall k | 0 <= k <= |trace| && KeptSince(trace, e, k) :: Balance(trace, e, k) <= Unsettled(trace, e)
  {
    if trace == [] {
      assert KeptSince(trace, e, 0) && Balance(trace, e, 0) == 0;
    } else {
      var init, h := trace[..|trace| - 1], trace[|trace| - 1];
      assert trace == init + [h];
      UnsettledIsLargestSurplus(init, e);
      var k :| 0 <= k <= |init| && KeptSince(init, e, k) && Balance(init, e, k) == Unsettled(init, e);
      forall j | 0 <= j <= |init|
        ensures Balance(trace, e, j) == Balance(init, e, j) + Weight(h, e)
        ensures KeptSince(trace, e, j) <==> KeptSince(init, e, j) && !(h.Dropped? && e in h.es)
      {
        BalanceExtend(init, e, j, h);
        assert forall i | 0 <= i < |init| :: trace[i] == init[i];
      }
      var w := if Unsettled(trace, e) == 0 && (h.Dropped? || h == Settling(e)) then |trace| else k;
      if h.Dropped? && e !in h.es { assert KeptSince(trace, e, k); }
      else { assert w == |trace| ==> Balance(trace, e, w) == 0; }
      assert KeptSince(trace, e, w) && Balance(trace, e, w) == Unsettled(trace, e);
    }
  }

  // ----------------------------------------------------------- the settle callers

  /** What a settle call returns: nil, an AckError, ErrStaleAck, a failed send, or no result in time. */
  datatype Answer = Accepted | Rejected | StaleAck | SendFailed | NotInTime

  datatype Caller =
    | Sending(id: nat, e: EventId)
    | Waiting(id: nat, e: EventId)
    | Forgetting(id: nat, why: Answer)
    | CheckingEnd            // after a failed send, about to look whether the stream has ended
    | Applying(e: EventId)
    | Returned(answer: Answer)

  /** What becomes of the Send: done, still blocked at the deadline, EOF, or another error. */
  datatype Sent = SentOk | Blocked | Eof | Broken

  datatype Frame = Frame(id: nat, e: EventId)

  datatype World = World(
    book: Book,
    callers: map<nat, Caller>,
    frames: seq<Frame>,       // ack frames sent
    registrations: nat,       // history: how many ack ids were handed out
    subject: map<nat, EventId>, // history: the event each ack id was registered for
    trace: seq<Happening>,    // history: what happened to the copies
    when: map<nat, nat>,      // history: the length of the trace at registration
    ackOf: map<nat, nat>)     // history: the ack id of each settle call

  datatype Step =
    | Deliver(e: EventId, now: int)
    | Settle(c: nat, e: EventId)
    | SendFrame(c: nat, reached: bool, sent: Sent)
    | Take(c: nat)
    | TimeOut(c: nat)
    | ForgetAck(c: nat)
    | CheckEnd(c: nat)
    | Apply(c: nat)
    | AckResult(id: nat, ok: bool) // whatever id the server names
    | End

  predicate Enabled(w: World, s: Step) {
    match s
    case Deliver(_, _) => true
    case Settle(c, _) => c !in w.callers
    case SendFrame(c, reached, sent) => c in w.callers && w.callers[c].Sending? && (sent.SentOk? ==> reached)
    case Take(c) =>
      && c in w.callers && w.callers[c].Waiting?
      && w.callers[c].id in w.book.channels && w.book.channels[w.callers[c].id] != []
    case TimeOut(c) => c in w.callers && w.callers[c].Waiting?
    case ForgetAck(c) => c in w.callers && w.callers[c].Forgetting?
    case CheckEnd(c) => c in w.callers && w.callers[c].CheckingEnd?
    case Apply(c) => c in w.callers && w.callers[c].Applying?
    case AckResult(_, _) => true
    case End => true
  }

  function StaleEvents(b: Book, now: int): set<EventId> {
    if now - b.lastPrune >= b.maxAge then set e | e in b.delivery && Stale(b, e, now) else {}
  }

  function Next(w: World, s: Step): World
    requires Enabled(w, s)
  {
    match s
    case Deliver(e, now) =>
      if w.book.manual
      then w.(book := Marked(w.book, e, now), trace := w.trace + [Dropped(StaleEvents(w.book, now))] + [Arrival(e)])
      else w.(book := Marked(w.book, e, now))
    case Settle(c, e) =>
      if Live(w.book, e) then
        var id := NextId(w.book);
        w.(book := Registered(w.book), callers := w.callers[c := Sending(id, e)],
           registrations := w.registrations + 1, subject := w.subject[id := e], when := w.when[id := |w.trace|],
           ackOf := w.ackOf[c := id])
      else w.(callers := w.callers[c := Returned(StaleAck)])
    case SendFrame(c, reached, sent) =>
      var t := w.callers[c];
      w.(callers := w.callers[c :=
           match sent
           case SentOk => Waiting(t.id, t.e)
           case Blocked => Forgetting(t.id, NotInTime)
           case Eof => Forgetting(t.id, StaleAck)
           case Broken => Forgetting(t.id, SendFailed)],
         frames := if reached then w.frames + [Frame(t.id, t.e)] else w.frames)
    case Take(c) =>
      w.(callers := w.callers[c :=
           match w.book.channels[w.callers[c].id][0]
           case Result(ok) => if ok then Applying(w.callers[c].e) else Returned(Rejected)
           case StreamEnded => Returned(StaleAck)])
    case TimeOut(c) => w.(callers := w.callers[c := Forgetting(w.callers[c].id, NotInTime)])
    case ForgetAck(c) =>
      w.(book := Forgotten(w.book, w.callers[c].id),
         callers := w.callers[c :=
           if w.callers[c].why == SendFailed then CheckingEnd else Returned(w.callers[c].why)])
    case CheckEnd(c) => w.(callers := w.callers[c := Returned(if w.book.ended then StaleAck else SendFailed)])
    case Apply(c) =>
      w.(book := Settled(w.book, w.callers[c].e), trace := w.trace + [Settling(w.callers[c].e)],
         callers := w.callers[c := Returned(Accepted)])
    case AckResult(id, ok) => w.(book := Resolved(w.book, id, ok))
    case End => w.(book := Finished(w.book))
  }

  predicate Init(w: World) {
    && !w.book.ended && w.book.nextAck == 0 && w.book.pending == {} && w.book.channels == map[]
    && w.book.delivery == map[] && w.callers == map[] && w.frames == [] && w.registrations == 0
    && w.subject == map[] && w.trace == [] && w.when == map[] && w.ackOf == map[]
  }

  // ------------------------------------------------------------------ invariants

  /** Ack ids are handed out 1, 2, 3, and each receives at most one outcome. */
  predicate Outcomes(w: World) {
    && w.book.nextAck == w.registrations < ACK_IDS
    && w.book.pending <= w.book.channels.Keys
    && (forall id | id in w.book.channels :: 1 <= id <= w.registrations && |w.book.channels[id]| <= 1)
    && (forall id | id in w.book.pending :: w.book.channels[id] == [])
    && (w.book.ended ==> w.book.pending == {})
  }

  lemma OutcomesKept(w: World, s: Step)
    requires Outcomes(w) && Enabled(w, s) && Next(w, s).registrations < ACK_IDS
    ensures Outcomes(Next(w, s))
  {
    match s
    case AckResult(id, ok) => ResultKept(w, id, ok);
    case End => SentOnce(w, w.book.pending, StreamEnded);
    case Settle(c, e) => RegisterKept(w, c, e);
    case _ => OthersKept(w, s);
  }

  lemma ResultKept(w: World, id: nat, ok: bool)
    requires Outcomes(w)
    ensures Outcomes(Next(w, AckResult(id, ok)))
  {
    if id in w.book.pending { SentOnce(w, {id}, Result(ok)); }
  }

  lemma RegisterKept(w: World, c: nat, e: EventId)
    requires Outcomes(w) && Enabled(w, Settle(c, e)) && Next(w, Settle(c, e)).registrations < ACK_IDS
    ensures Outcomes(Next(w, Settle(c, e)))
  {
  }

  lemma OthersKept(w: World, s: Step)
    requires Outcomes(w) && Enabled(w, s) && !s.AckResult? && !s.End? && !s.Settle?
    ensures Outcomes(Next(w, s))
  {
  }

  lemma SentOnce(w: World, ids: set<nat>, o: Outcome)
    requires Outcomes(w) && ids <= w.book.pending
    ensures var after := Send(w.book.channels, ids, o);
            && after.Keys == w.book.channels.Keys
            && (forall id | id in after :: |after[id]| <= 1)
            && (forall id | id in w.book.pending - ids :: after[id] == [])
  {
  }

  /** The delivery map holds exactly the unsettled copies. */
  ghost predicate Tallied(w: World) {
    && Positive(w.book)
    && (w.book.manual ==> forall e: EventId :: Count(w.book, e) == Unsettled(w.trace, e))
  }

  lemma UnsettledExtend(trace: seq<Happening>, h: Happening, e: EventId)
    ensures Unsettled(trace + [h], e) == After(Unsettled(trace, e), h, e)
  {
    assert (trace + [h])[..|trace|] == trace;
  }

  predicate Positive(b: Book) {
    forall e | e in b.delivery :: b.delivery[e].copies > 0
  }

  lemma CountMarked(b: Book, x: EventId, now: int, e: EventId)
    requires Positive(b) && b.manual
    ensures Positive(Marked(b, x, now))
    ensures Count(Marked(b, x, now), e) == After(After(Count(b, e), Dropped(StaleEvents(b, now)), e), Arrival(x), e)
  {
  }

  lemma CountSettled(b: Book, x: EventId, e: EventId)
    requires Positive(b)
    ensures Positive(Settled(b, x)) && Count(Settled(b, x), e) == After(Count(b, e), Settling(x), e)
  {
  }

  lemma TalliedKept(w: World, s: Step)
    requires Tallied(w) && Enabled(w, s)
    ensures Tallied(Next(w, s))
  {
    match s
    case Deliver(x, now) => if w.book.manual { DeliverTallies(w, x, now); }
    case Apply(c) =>
      CountSettled(w.book, w.callers[c].e, w.callers[c].e);
      if w.book.manual { ApplyTallies(w, c); }
    case _ =>
  }

  lemma DeliverTallies(w: World, x: EventId, now: int)
    requires Tallied(w) && w.book.manual
    ensures Tallied(Next(w, Deliver(x, now)))
  {
    var w' := Next(w, Deliver(x, now));
    var drop := Dropped(StaleEvents(w.book, now));
    CountMarked(w.book, x, now, x);
    forall e: EventId ensures Count(w'.book, e) == Unsettled(w'.trace, e) {
      assert Count(w.book, e) == Unsettled(w.trace, e);
      CountMarked(w.book, x, now, e);
      UnsettledExtend(w.trace, drop, e);
      UnsettledExtend(w.trace + [drop], Arrival(x), e);
    }
  }

  lemma ApplyTallies(w: World, c: nat)
    requires Tallied(w) && w.book.manual && Enabled(w, Apply(c))
    ensures Tallied(Next(w, Apply(c)))
  {
    var w' := Next(w, Apply(c));
    var x := w.callers[c].e;
    CountSettled(w.book, x, x);
    forall e: EventId ensures Count(w'.book, e) == Unsettled(w'.trace, e) {
      assert Count(w.book, e) == Unsettled(w.trace, e);
      CountSettled(w.book, x, e);
      UnsettledExtend(w.trace, Settling(x), e);
    }
  }

  /** The event had an unsettled copy when the ack id was registered. */
  predicate Vouched(w: World, id: nat, e: EventId) {
    && id in w.subject && w.subject[id] == e && id in w.when && w.when[id] <= |w.trace|
    && (w.book.manual ==> Unsettled(w.trace[..w.when[id]], e) > 0)
  }

  predicate FramesVouched(w: World) {
    && (forall f | f in w.frames :: Vouched(w, f.id, f.e))
    && SendersVouched(w)
    && (forall id | id in w.subject :: 1 <= id <= w.registrations)
  }

  predicate SendersVouched(w: World) {
    forall c | c in w.callers && w.callers[c].Sending? :: Vouched(w, w.callers[c].id, w.callers[c].e)
  }

  lemma VouchedKept(w: World, s: Step, id: nat, e: EventId)
    requires Enabled(w, s) && Vouched(w, id, e) && Outcomes(w) && Next(w, s).registrations < ACK_IDS
    requires forall i | i in w.subject :: 1 <= i <= w.registrations
    ensures Vouched(Next(w, s), id, e)
  {
    var w' := Next(w, s);
    assert w'.trace[..w.when[id]] == w.trace[..w.when[id]];
  }

  /** Only a settle call begins to send, and only a sending call sends its frame. */
  lemma NewSender(w: World, s: Step, c: nat)
    requires Enabled(w, s) && c in Next(w, s).callers && Next(w, s).callers[c].Sending?
    ensures (c in w.callers && Next(w, s).callers[c] == w.callers[c])
            || (s.Settle? && s.c == c && Live(w.book, s.e) && Next(w, s).callers[c] == Sending(NextId(w.book), s.e))
  {
  }

  lemma NewFrame(w: World, s: Step, f: Frame)
    requires Enabled(w, s) && f in Next(w, s).frames
    ensures f in w.frames
            || (s.SendFrame? && w.callers[s.c].Sending? && f == Frame(w.callers[s.c].id, w.callers[s.c].e))
  {
  }

  lemma SendersKept(w: World, s: Step)
    requires Outcomes(w) && Tallied(w) && FramesVouched(w) && Enabled(w, s) && Next(w, s).registrations < ACK_IDS
    ensures SendersVouched(Next(w, s))
  {
    var w' := Next(w, s);
    forall c | c in w'.callers && w'.callers[c].Sending? ensures Vouched(w', w'.callers[c].id, w'.callers[c].e) {
      NewSender(w, s, c);
      if c in w.callers && w'.callers[c] == w.callers[c] {
        VouchedKept(w, s, w.callers[c].id, w.callers[c].e);
      } else {
        SettleVouches(w, c, s.e);
      }
    }
  }

  lemma SubjectsKept(w: World, s: Step)
    requires Outcomes(w) && Enabled(w, s) && Next(w, s).registrations < ACK_IDS
    requires forall id | id in w.subject :: 1 <= id <= w.registrations
    ensures forall id | id in Next(w, s).subject :: 1 <= id <= Next(w, s).registrations
  {
  }

  lemma FramesKept(w: World, s: Step)
    requires Outcomes(w) && Tallied(w) && FramesVouched(w) && Enabled(w, s) && Next(w, s).registrations < ACK_IDS
    ensures FramesVouched(Next(w, s))
  {
    var w' := Next(w, s);
    forall f | f in w'.frames ensures Vouched(w', f.id, f.e) {
      NewFrame(w, s, f);
      VouchedKept(w, s, f.id, f.e);
    }
    SendersKept(w, s);
    SubjectsKept(w, s);
  }

  lemma SettleVouches(w: World, c: nat, e: EventId)
    requires Outcomes(w) && Tallied(w) && Enabled(w, Settle(c, e)) && Live(w.book, e)
    ensures Vouched(Next(w, Settle(c, e)), NextId(w.book), e)
  {
    assert w.trace[..|w.trace|] == w.trace;
    assert w.book.manual ==> Count(w.book, e) == Unsettled(w.trace, e);
  }

  // ---------------------------------------------------------------- main results

  /** A run of fewer than 2^64 registrations. */
  ghost predicate IsRun(ws: seq<World>, steps: seq<Step>) {
    && |ws| == |steps| + 1 && Init(ws[0]) && ws[|steps|].registrations < ACK_IDS
    && forall i | 0 <= i < |steps| :: Enabled(ws[i], steps[i]) && ws[i + 1] == Next(ws[i], steps[i])
  }

  lemma {:induction false} RegistrationsGrow(ws: seq<World>, steps: seq<Step>, m: nat, n: nat)
    requires IsRun(ws, steps) && m <= n <= |steps|
    ensures ws[m].registrations <= ws[n].registrations
    decreases n
  {
    if m < n {
      RegistrationsGrow(ws, steps, m, n - 1);
      var k := n - 1;
      assert ws[k + 1] == Next(ws[k], steps[k]);
    }
  }

  lemma {:induction false} RunKeeps(ws: seq<World>, steps: seq<Step>, n: nat)
    requires IsRun(ws, steps) && n <= |steps|
    ensures Outcomes(ws[n]) && Tallied(ws[n]) && FramesVouched(ws[n])
  {
    if n > 0 {
      var m := n - 1;
      RunKeeps(ws, steps, m);
      RegistrationsGrow(ws, steps, n, |steps|);
      assert ws[m + 1] == Next(ws[m], steps[m]);
      OutcomesKept(ws[m], steps[m]);
      TalliedKept(ws[m], steps[m]);
      FramesKept(ws[m], steps[m]);
    } else {
      forall e: EventId ensures Count(ws[0].book, e) == Unsettled(ws[0].trace, e) { }
    }
  }

  /** Every ack id is fresh when it is registered. */
  lemma AckIdsAreFresh(ws: seq<World>, steps: seq<Step>, n: nat)
    requires IsRun(ws, steps) && n < |steps| && steps[n].Settle? && Live(ws[n].book, steps[n].e)
    ensures NextId(ws[n].book) !in ws[n].book.channels && NextId(ws[n].book) !in ws[n].subject
  {
    RunKeeps(ws, steps, n);
    RegistrationsGrow(ws, steps, n + 1, |steps|);
    assert ws[n + 1] == Next(ws[n], steps[n]);
  }

  /** Every ack id receives at most one outcome, and a pending one none yet, so sending to its
      one-slot channel never blocks; duplicate and unknown results of the server included. */
  lemma AtMostOneOutcome(ws: seq<World>, steps: seq<Step>, n: nat, id: nat)
    requires IsRun(ws, steps) && n <= |steps| && id in ws[n].book.channels
    ensures |ws[n].book.channels[id]| <= 1 && (id in ws[n].book.pending ==> ws[n].book.channels[id] == [])
  {
    RunKeeps(ws, steps, n);
  }

  lemma EndedStep(ws: seq<World>, steps: seq<Step>, i: nat)
    requires IsRun(ws, steps) && i < |steps|
    ensures ws[i].book.ended ==> ws[i + 1].book.ended
  {
    assert ws[i + 1] == Next(ws[i], steps[i]);
  }

  lemma {:induction false} EndedFrom(es: seq<bool>, m: nat, n: nat)
    requires m <= n < |es| && es[m] && forall i | 0 <= i < |es| - 1 :: es[i] ==> es[i + 1]
    ensures es[n]
    decreases n
  {
    if m < n { EndedFrom(es, m, n - 1); }
  }

  /** An ended stream has no pending ack and never gains one. */
  lemma EndedStaysEmpty(ws: seq<World>, steps: seq<Step>, m: nat, n: nat)
    requires IsRun(ws, steps) && m <= n <= |steps| && ws[m].book.ended
    ensures ws[n].book.ended && ws[n].book.pending == {}
  {
    var es := seq(|ws|, i requires 0 <= i < |ws| => ws[i].book.ended);
    forall i | 0 <= i < |es| - 1 ensures es[i] ==> es[i + 1] { EndedStep(ws, steps, i); }
    EndedFrom(es, m, n);
    RunKeeps(ws, steps, n);
  }

  /** Every ack frame sent on a manual stream was for an event that, when its ack id was
      registered, had an unsettled copy on that stream: from some point on, more copies of it had
      arrived than were settled, and none was dropped for its age. */
  lemma FramesAreForUnsettledCopies(ws: seq<World>, steps: seq<Step>, n: nat, f: Frame)
    requires IsRun(ws, steps) && n <= |steps| && f in ws[n].frames && ws[n].book.manual
    ensures f.id in ws[n].when && ws[n].when[f.id] <= |ws[n].trace|
    ensures var before := ws[n].trace[..ws[n].when[f.id]];
            exists k | 0 <= k <= |before| :: KeptSince(before, f.e, k) && Balance(before, f.e, k) > 0
  {
    RunKeeps(ws, steps, n);
    assert Vouched(ws[n], f.id, f.e);
    UnsettledIsLargestSurplus(ws[n].trace[..ws[n].when[f.id]], f.e);
  }
  // -------------------------------------------------------- what the caller is told

  /** The step sends this outcome to the pending ack. */
  predicate Tells(w: World, s: Step, id: nat, o: Outcome) {
    id in w.book.pending && (if o.Result? then s == AckResult(id, o.ok) else s == End)
  }

  ghost predicate Told(ws: seq<World>, steps: seq<Step>, n: nat, id: nat, o: Outcome)
    requires n <= |steps| && n <= |ws|
  {
    exists m | 0 <= m < n :: Tells(ws[m], steps[m], id, o)
  }

  lemma ChannelStep(w: World, s: Step, id: nat, o: Outcome)
    requires Outcomes(w) && Enabled(w, s) && Next(w, s).registrations < ACK_IDS
    ensures id in w.book.channels ==>
              && id in Next(w, s).book.channels
              && (Tells(w, s, id, o) ==> w.book.channels[id] == [] && Next(w, s).book.channels[id] == [o])
              && (Next(w, s).book.channels[id] != w.book.channels[id] && Next(w, s).book.channels[id] == [o] ==>
                    Tells(w, s, id, o))
    ensures id !in w.book.channels && id in Next(w, s).book.channels ==> Next(w, s).book.channels[id] == []
    ensures id !in w.book.channels ==> !Tells(w, s, id, o)
  {
    if id in w.book.channels {
      match s
      case AckResult(i, ok) => Appended(w.book.channels[id], Result(ok), o);
      case End => Appended(w.book.channels[id], StreamEnded, o);
      case _ =>
    }
  }

  lemma Appended(q: seq<Outcome>, x: Outcome, o: Outcome)
    ensures q + [x] == [o] <==> q == [] && x == o
  {
    assert (q + [x])[|q|] == x;
  }

  lemma {:induction false} NotToldYet(ws: seq<World>, steps: seq<Step>, n: nat, id: nat, o: Outcome)
    requires IsRun(ws, steps) && n <= |steps| && id !in ws[n].book.channels
    ensures !Told(ws, steps, n, id, o)
  {
    if n > 0 {
      var m := n - 1;
      RunStep(ws, steps, m);
      ChannelStep(ws[m], steps[m], id, o);
      NotToldYet(ws, steps, m, id, o);
    }
  }

  lemma RunStep(ws: seq<World>, steps: seq<Step>, m: nat)
    requires IsRun(ws, steps) && m < |steps|
    ensures Outcomes(ws[m]) && Enabled(ws[m], steps[m]) && ws[m + 1] == Next(ws[m], steps[m])
    ensures ws[m + 1].registrations < ACK_IDS
  {
    RunKeeps(ws, steps, m);
    RegistrationsGrow(ws, steps, m + 1, |steps|);
  }

  /** An ack's channel holds exactly what it was told: the server's result for its id, with the
      server's verdict, if that came while it was pending, or the end of the stream. */
  lemma {:induction false} ChannelIsTold(ws: seq<World>, steps: seq<Step>, n: nat, id: nat, o: Outcome)
    requires IsRun(ws, steps) && n <= |steps| && id in ws[n].book.channels
    ensures ws[n].book.channels[id] == [o] <==> Told(ws, steps, n, id, o)
  {
    var m := n - 1;
    RunKeeps(ws, steps, n);
    if n > 0 {
      RunStep(ws, steps, m);
      ChannelStep(ws[m], steps[m], id, o);
      if id in ws[m].book.channels { ChannelIsTold(ws, steps, m, id, o); } else { NotToldYet(ws, steps, m, id, o); }
    }
  }

  /** What a settle call holds belongs to its ack id. */
  predicate Own(w: World, c: nat) {
    c in w.callers ==>
      match w.callers[c]
      case Sending(id, _) => c in w.ackOf && w.ackOf[c] == id
      case Waiting(id, _) => c in w.ackOf && w.ackOf[c] == id
      case Applying(_) => c in w.ackOf
      case Returned(a) => (a == Accepted || a == Rejected ==> c in w.ackOf)
      case Forgetting(_, why) => why != Accepted && why != Rejected
      case CheckingEnd => true
  }

  lemma OwnKept(w: World, s: Step, c: nat)
    requires Own(w, c) && Enabled(w, s)
    ensures Own(Next(w, s), c)
    ensures c in w.callers && c in w.ackOf ==> c in Next(w, s).ackOf && Next(w, s).ackOf[c] == w.ackOf[c]
  {
  }

  /** The caller has been told that its ack was accepted, or that it was rejected. */
  predicate Heard(w: World, c: nat, ok: bool) {
    c in w.callers && (if ok then w.callers[c].Applying? || w.callers[c] == Returned(Accepted)
                       else w.callers[c] == Returned(Rejected))
  }

  lemma HearsByTaking(w: World, s: Step, c: nat, ok: bool)
    requires Own(w, c) && Outcomes(w) && Enabled(w, s) && Heard(Next(w, s), c, ok) && !Heard(w, c, ok)
    ensures s == Take(c) && w.callers[c].id in w.book.channels
    ensures w.book.channels[w.callers[c].id] == [Result(ok)] && Next(w, s).ackOf[c] == w.callers[c].id
  {
  }

  /** A settle call returns success, or an AckError, only when the server answered its own ack id so
      while that ack was pending. */
  lemma {:induction false} AnswerIsTheServers(ws: seq<World>, steps: seq<Step>, n: nat, c: nat, ok: bool)
    requires IsRun(ws, steps) && n <= |steps|
    ensures Own(ws[n], c)
    ensures Heard(ws[n], c, ok) ==> c in ws[n].ackOf && Told(ws, steps, n, ws[n].ackOf[c], Result(ok))
  {
    if n > 0 {
      var m := n - 1;
      AnswerIsTheServers(ws, steps, m, c, ok);
      RunStep(ws, steps, m);
      OwnKept(ws[m], steps[m], c);
      if Heard(ws[n], c, ok) && !Heard(ws[m], c, ok) {
        HearsByTaking(ws[m], steps[m], c, ok);
        ChannelIsTold(ws, steps, m, ws[m].callers[c].id, Result(ok));
      }
    }
  }

  /** And the other way: a waiting call whose pending ack the server answered takes exactly that answer,
      whatever the server repeats; one whose stream ended first takes ErrStaleAck. */
  lemma TakesWhatWasTold(ws: seq<World>, steps: seq<Step>, m: nat, n: nat, c: nat, o: Outcome)
    requires IsRun(ws, steps) && m < n < |steps| && steps[n] == Take(c)
    requires c in ws[n].callers && ws[n].callers[c].Waiting? && Tells(ws[m], steps[m], ws[n].callers[c].id, o)
    ensures ws[n + 1].callers[c] ==
              match o
              case Result(ok) => if ok then Applying(ws[n].callers[c].e) else Returned(Rejected)
              case StreamEnded => Returned(StaleAck)
  {
    RunStep(ws, steps, n);
    var id := ws[n].callers[c].id;
    assert Told(ws, steps, n, id, o);
    ChannelIsTold(ws, steps, n, id, o);
  }

  /** A told ack can be taken: in every later state its channel holds the outcome. */
  lemma ToldStays(ws: seq<World>, steps: seq<Step>, m: nat, n: nat, id: nat, o: Outcome)
    requires IsRun(ws, steps) && m < n <= |steps| && Tells(ws[m], steps[m], id, o)
    ensures id in ws[n].book.channels && ws[n].book.channels[id] == [o] && id !in ws[n].book.pending
  {
    assert Told(ws, steps, n, id, o);
    if id !in ws[n].book.channels { NotToldYet(ws, steps, n, id, o); }
    ChannelIsTold(ws, steps, n, id, o);
    RunKeeps(ws, steps, n);
  }
  // ------------------------------------------------------------- one settle call

  /** A settle call on an ended stream, or on a manual one for an event without a copy, returns ErrStaleAck
      and sends nothing; any other registers the next ack id for its event. */
  lemma SettleStarts(ws: seq<World>, steps: seq<Step>, n: nat)
    requires IsRun(ws, steps) && n < |steps| && steps[n].Settle?
    ensures var c, e, b := steps[n].c, steps[n].e, ws[n].book;
            if b.ended || (b.manual && e !in b.delivery)
            then ws[n + 1] == ws[n].(callers := ws[n].callers[c := Returned(StaleAck)])
            else
              && ws[n + 1].callers == ws[n].callers[c := Sending(b.nextAck + 1, e)]
              && ws[n + 1].book.pending == b.pending + {b.nextAck + 1}
              && ws[n + 1].subject == ws[n].subject[b.nextAck + 1 := e]
  {
    RunStep(ws, steps, n);
  }

  /** The steps of a call whose frame is sent and whose ack the server accepts. */
  ghost predicate Accepts(w: World, c: nat, id: nat, e: EventId)
    requires Enabled(w, SendFrame(c, true, SentOk))
  {
    var w1 := Next(w, SendFrame(c, true, SentOk));
    && w1.frames == w.frames + [Frame(id, e)] && Enabled(w1, AckResult(id, true))
    && var w2 := Next(w1, AckResult(id, true));
       && Enabled(w2, Take(c))
       && var w3 := Next(w2, Take(c));
          && Enabled(w3, Apply(c))
          && var w4 := Next(w3, Apply(c));
             && w4.callers[c] == Returned(Accepted)
             && Count(w4.book, e) == (if Count(w.book, e) > 0 then Count(w.book, e) - 1 else 0)
             && forall x | x != e :: Count(w4.book, x) == Count(w.book, x)
  }

  lemma {:induction false} SentAndAccepted(w: World, c: nat, id: nat, e: EventId)
    requires Outcomes(w) && c in w.callers && w.callers[c] == Sending(id, e) && id in w.book.pending
    ensures Accepts(w, c, id, e)
  {
    var w1 := Next(w, SendFrame(c, true, SentOk));
    var w2 := Next(w1, AckResult(id, true));
    assert w.book.channels[id] == [] && w2.book.channels[id] == [Result(true)];
  }

  lemma StartsAlone(w: World, c: nat, e: EventId)
    requires Outcomes(w) && c !in w.callers && w.registrations + 1 < ACK_IDS && Live(w.book, e)
    ensures var w0 := Next(w, Settle(c, e));
            && Outcomes(w0) && c in w0.callers && w0.callers[c] == Sending(w.book.nextAck + 1, e)
            && w.book.nextAck + 1 in w0.book.pending && w0.book.delivery == w.book.delivery && w0.frames == w.frames
  {
    RegisterKept(w, c, e);
    assert NextId(w.book) == w.book.nextAck + 1;
  }

  /** An undisturbed settle call does its work: from every reachable state whose stream is live, and for
      an event with a copy when the group is manual, its frame can be sent and the server's OK taken, and
      then it has returned success and exactly one copy of the event is settled. */
  lemma SettleAlone(ws: seq<World>, steps: seq<Step>, n: nat, c: nat, e: EventId)
    requires IsRun(ws, steps) && n <= |steps| && c !in ws[n].callers && ws[n].registrations + 1 < ACK_IDS
    requires !ws[n].book.ended && (ws[n].book.manual ==> e in ws[n].book.delivery)
    ensures var w0 := Next(ws[n], Settle(c, e));
            Enabled(w0, SendFrame(c, true, SentOk)) && Accepts(w0, c, ws[n].book.nextAck + 1, e)
  {
    RunKeeps(ws, steps, n);
    StartsAlone(ws[n], c, e);
    SentAndAccepted(Next(ws[n], Settle(c, e)), c, ws[n].book.nextAck + 1, e);
  }
  /** A call that is not answered forgets its ack: after a failed Send it looks whether the stream has
      ended by then, EOF is a stale ack, and a Send or a result that does not come in time is reported so. */
  lemma Unanswered(w: World, c: nat, id: nat, e: EventId, reached: bool)
    requires c in w.callers
    ensures w.callers[c] == Sending(id, e) ==>
              && var w1 := Next(Next(w, SendFrame(c, reached, Broken)), ForgetAck(c));
                 && w1.callers[c] == CheckingEnd && id !in w1.book.pending
                 && Next(w1, CheckEnd(c)).callers[c] == Returned(if w1.book.ended then StaleAck else SendFailed)
    ensures w.callers[c] == Sending(id, e) ==>
              && var w1 := Next(Next(w, SendFrame(c, reached, Eof)), ForgetAck(c));
                 w1.callers[c] == Returned(StaleAck) && id !in w1.book.pending
    ensures w.callers[c] == Sending(id, e) ==>
              && var w1 := Next(Next(w, SendFrame(c, reached, Blocked)), ForgetAck(c));
                 w1.callers[c] == Returned(NotInTime) && id !in w1.book.pending
    ensures w.callers[c] == Waiting(id, e) ==>
              && var w1 := Next(Next(w, TimeOut(c)), ForgetAck(c));
                 w1.callers[c] == Returned(NotInTime) && id !in w1.book.pending
  {
  }
}
