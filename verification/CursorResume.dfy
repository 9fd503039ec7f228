/** Cursor subscriptions over reconnects (ironflow/subscribe.go, ironflow/subscribe_connectrpc.go).

    The server keeps, per subscription, the log of matching events with increasing sequence
    numbers, and serves a (re)subscription from the first event after the requested cursor, in
    order.  An event is delivered when it enters the subscription's Events channel. */
module CursorResume {
  import opened Optional

  predicate Increasing(log: seq<nat>) {
    forall i, j | 0 <= i < j < |log| :: log[i] < log[j]
  }

  /** The server's answer to StartAfterSequence: how many events are not after the cursor. */
  function Position(log: seq<nat>, cursor: nat): (p: nat)
    ensures p <= |log|
    ensures Increasing(log) ==> forall i | 0 <= i < |log| :: log[i] <= cursor <==> i < p
  {
    if log == [] then 0
    else if log[|log| - 1] <= cursor then |log|
    else Position(log[..|log| - 1], cursor)
  }

  /** Every event after from and up to upto was delivered or skipped. */
  ghost predicate Covered(log: seq<nat>, from: nat, upto: nat, delivered: seq<nat>, skipped: set<nat>) {
    forall i | 0 <= i < |log| && from < log[i] <= upto :: log[i] in delivered || log[i] in skipped
  }

  // ------------------------------------------------------------------ WebSocket

  datatype Subscription = Subscription(
    log: seq<nat>,
    start: nat,
    cursor: Option<nat>,    // StartAfterSequence; none means no cursor
    bound: bool,            // the server serves it on this connection
    position: nat,          // the server's next event
    delivered: seq<nat>,    // history, in order
    skipped: set<nat>)      // history: frames that did not decode

  datatype Frame = Frame(sub: nat, index: nat)

  /** One connection carries every subscription of the client. */
  datatype Client = Client(subs: map<nat, Subscription>, connected: bool, socket: seq<Frame>, fellBehind: bool)

  datatype Outcome =
    | Sent(sequenced: bool) // the frame carried its sequence number, or not
    | TimedOut              // no room in the channel within resumeDeliverTimeout
    | Undecodable

  datatype Step =
    | Publish(sub: nat, sequence: nat)
    | Push(sub: nat)          // the server writes the next frame
    | Read(outcome: Outcome)  // the reader handles the first frame
    | Disconnect              // a read error, or after fellBehind
    | Connect
    | Resubscribe(sub: nat)

  predicate Enabled(c: Client, s: Step) {
    match s
    case Publish(k, n) =>
      && k in c.subs && c.subs[k].start < n
      && (c.subs[k].log != [] ==> c.subs[k].log[|c.subs[k].log| - 1] < n)
    case Push(k) => c.connected && k in c.subs && c.subs[k].bound && c.subs[k].position < |c.subs[k].log|
    case Read(o) => c.connected && c.socket != [] && !c.fellBehind
    case Disconnect => c.connected
    case Connect => !c.connected
    case Resubscribe(k) => c.connected && k in c.subs && !c.subs[k].bound
  }

  /** handleEvent on one subscription. */
  function Handled(b: Subscription, n: nat, o: Outcome): Subscription {
    match o
    case Undecodable => b.(skipped := b.skipped + {n})
    case TimedOut => if b.cursor.Some? then b else b.(skipped := b.skipped + {n})
    case Sent(sequenced) =>
      b.(delivered := b.delivered + [n],
         cursor := if sequenced && b.cursor.Some? && n > 0 then Some(n) else b.cursor)
  }

  function Unbound(subs: map<nat, Subscription>): map<nat, Subscription> {
    map k | k in subs :: subs[k].(bound := false)
  }

  function Next(c: Client, s: Step): Client
    requires Enabled(c, s)
  {
    match s
    case Publish(k, n) => c.(subs := c.subs[k := c.subs[k].(log := c.subs[k].log + [n])])
    case Push(k) =>
      c.(socket := c.socket + [Frame(k, c.subs[k].position)],
         subs := c.subs[k := c.subs[k].(position := c.subs[k].position + 1)])
    case Read(o) =>
      var f := c.socket[0];
      var c1 := c.(socket := c.socket[1..]);
      if f.sub in c.subs && f.index < |c.subs[f.sub].log| then
        c1.(subs := c.subs[f.sub := Handled(c.subs[f.sub], c.subs[f.sub].log[f.index], o)],
            fellBehind := o.TimedOut? && c.subs[f.sub].cursor.Some?)
      else c1
    case Disconnect => c.(connected := false, socket := [], fellBehind := false, subs := Unbound(c.subs))
    case Connect => c.(connected := true)
    case Resubscribe(k) =>
      var b := c.subs[k];
      c.(subs := c.subs[k := b.(bound := true,
           position := if b.cursor.Some? then Position(b.log, b.cursor.value) else |b.log|)])
  }

  predicate Init(c: Client) {
    && !c.connected && c.socket == [] && !c.fellBehind
    && forall k | k in c.subs ::
         var b := c.subs[k];
         && Increasing(b.log) && !b.bound && b.delivered == [] && b.skipped == {}
         && (b.cursor.Some? ==> b.cursor.value == b.start)
  }

  // ------------------------------------------------------------------ invariant

  /** The frames of subscription k in the socket are first, first + 1, up to next. */
  predicate InOrder(socket: seq<Frame>, k: nat, first: nat, next: nat)
    decreases |socket|
  {
    if socket == [] then first == next
    else if socket[0].sub == k then socket[0].index == first && InOrder(socket[1..], k, first + 1, next)
    else InOrder(socket[1..], k, first, next)
  }

  lemma {:induction false} InOrderPush(socket: seq<Frame>, k: nat, first: nat, next: nat, f: Frame)
    requires InOrder(socket, k, first, next) && (f.sub == k ==> f.index == next)
    ensures InOrder(socket + [f], k, first, if f.sub == k then next + 1 else next)
    decreases |socket|
  {
    if socket == [] {
      assert (socket + [f])[1..] == [];
    } else {
      assert (socket + [f])[1..] == socket[1..] + [f];
      if socket[0].sub == k { InOrderPush(socket[1..], k, first + 1, next, f); }
      else { InOrderPush(socket[1..], k, first, next, f); }
    }
  }

  lemma {:induction false} InOrderBound(socket: seq<Frame>, k: nat, first: nat, next: nat)
    requires InOrder(socket, k, first, next)
    ensures first <= next
    decreases |socket|
  {
    if socket != [] {
      if socket[0].sub == k { InOrderBound(socket[1..], k, first + 1, next); }
      else { InOrderBound(socket[1..], k, first, next); }
    }
  }

  /** What a cursor subscription keeps: it covers everything up to its cursor. */
  ghost predicate Sound(b: Subscription) {
    && Increasing(b.log) && (b.bound ==> b.position <= |b.log|)
    && (b.cursor.Some? ==> (b.cursor.value == b.start || (b.start < b.cursor.value && b.cursor.value in b.log)))
    && (b.cursor.Some? ==> Covered(b.log, b.start, b.cursor.value, b.delivered, b.skipped))
  }

  /** The reader may go on at event first: all before it are handled, and the cursor is not past it. */
  ghost predicate Resumable(b: Subscription, first: nat) {
    && first <= |b.log|
    && (b.cursor.Some? ==>
          && (forall i | 0 <= i < first && b.start < b.log[i] :: b.log[i] in b.delivered || b.log[i] in b.skipped)
          && (forall i | first <= i < |b.log| :: b.cursor.value < b.log[i]))
  }

  /** The socket holds exactly what the server has pushed and the reader has not handled. */
  ghost predicate Flowing(b: Subscription, socket: seq<Frame>, k: nat) {
    exists first :: InOrder(socket, k, first, b.position) && Resumable(b, first)
  }

  ghost predicate SubOk(c: Client, k: nat)
    requires k in c.subs
  {
    var b := c.subs[k];
    && Sound(b)
    && (b.bound && !c.fellBehind ==> Flowing(b, c.socket, k))
    && (b.bound ==> c.connected)
    && (!b.bound ==> InOrder(c.socket, k, 0, 0))
  }

  ghost predicate Inv(c: Client) {
    && (forall k | k in c.subs :: SubOk(c, k))
    && (!c.connected ==> c.socket == [] && !c.fellBehind)
  }

  lemma PublishKeeps(b: Subscription, n: nat, socket: seq<Frame>, k: nat)
    requires Sound(b) && b.start < n && (b.log != [] ==> b.log[|b.log| - 1] < n)
    ensures var b' := b.(log := b.log + [n]);
            && Sound(b') && (Flowing(b, socket, k) ==> Flowing(b', socket, k))
  {
    var b' := b.(log := b.log + [n]);
    assert forall i | 0 <= i < |b.log| :: b'.log[i] == b.log[i];
    assert forall m | m in b.log :: m in b'.log;
    if b.cursor.Some? && b.cursor.value in b.log {
      var i :| 0 <= i < |b.log| && b.log[i] == b.cursor.value;
      assert b.log[i] <= b.log[|b.log| - 1];
    }
    if Flowing(b, socket, k) {
      var first: nat :| InOrder(socket, k, first, b.position) && Resumable(b, first);
      assert Resumable(b', first);
    }
  }

  /** Handling event `first` keeps what the cursor promises. */
  lemma HandledSound(b: Subscription, first: nat, o: Outcome)
    requires Sound(b) && Resumable(b, first) && first < |b.log|
    ensures Sound(Handled(b, b.log[first], o))
  {
  }

  /** And unless the subscription falls behind, the reader may go on at the next event. */
  lemma HandledResumable(b: Subscription, first: nat, o: Outcome)
    requires Sound(b) && Resumable(b, first) && first < |b.log| && !(o.TimedOut? && b.cursor.Some?)
    ensures Resumable(Handled(b, b.log[first], o), first + 1)
  {
  }

  /** Handling the next frame of a subscription, unless it falls behind. */
  lemma HandledKeeps(b: Subscription, socket: seq<Frame>, k: nat, o: Outcome)
    requires Sound(b) && b.bound && socket != [] && socket[0].sub == k && Flowing(b, socket, k)
    requires socket[0].index < |b.log|
    ensures var b' := Handled(b, b.log[socket[0].index], o);
            && Sound(b')
            && (!(o.TimedOut? && b.cursor.Some?) ==> Flowing(b', socket[1..], k))
  {
    var first: nat :| InOrder(socket, k, first, b.position) && Resumable(b, first);
    var b' := Handled(b, b.log[first], o);
    HandledSound(b, first, o);
    if !(o.TimedOut? && b.cursor.Some?) {
      HandledResumable(b, first, o);
      assert InOrder(socket[1..], k, first + 1, b'.position);
    }
  }

  lemma IndexInLog(b: Subscription, socket: seq<Frame>, k: nat)
    requires Sound(b) && b.bound && socket != [] && socket[0].sub == k && Flowing(b, socket, k)
    ensures socket[0].index < |b.log|
  {
    var first: nat :| InOrder(socket, k, first, b.position) && Resumable(b, first);
    InOrderBound(socket[1..], k, first + 1, b.position);
  }

  lemma PushKeeps(b: Subscription, socket: seq<Frame>, k: nat)
    requires Sound(b) && b.bound && b.position < |b.log|
    ensures var b' := b.(position := b.position + 1);
            Sound(b') && (Flowing(b, socket, k) ==> Flowing(b', socket + [Frame(k, b.position)], k))
  {
    if Flowing(b, socket, k) {
      var first: nat :| InOrder(socket, k, first, b.position) && Resumable(b, first);
      InOrderPush(socket, k, first, b.position, Frame(k, b.position));
      assert Resumable(b.(position := b.position + 1), first);
    }
  }

  /** A frame of another subscription neither enters nor leaves this one's order. */
  lemma OthersKeep(b: Subscription, socket: seq<Frame>, k: nat, f: Frame)
    requires f.sub != k
    ensures Flowing(b, socket, k) ==> Flowing(b, socket + [f], k)
    ensures InOrder(socket, k, 0, 0) ==> InOrder(socket + [f], k, 0, 0)
    ensures socket != [] && socket[0].sub != k && Flowing(b, socket, k) ==> Flowing(b, socket[1..], k)
  {
    if Flowing(b, socket, k) {
      var first: nat :| InOrder(socket, k, first, b.position) && Resumable(b, first);
      InOrderPush(socket, k, first, b.position, f);
    }
    if InOrder(socket, k, 0, 0) { InOrderPush(socket, k, 0, 0, f); }
  }

  lemma ResubscribeKeeps(b: Subscription, socket: seq<Frame>, k: nat)
    requires Sound(b) && InOrder(socket, k, 0, 0)
    ensures var p := if b.cursor.Some? then Position(b.log, b.cursor.value) else |b.log|;
            var b' := b.(bound := true, position := p); Sound(b') && Flowing(b', socket, k)
  {
    var p := if b.cursor.Some? then Position(b.log, b.cursor.value) else |b.log|;
    var b' := b.(bound := true, position := p);
    NoFrames(socket, k, 0, p);
    assert Resumable(b', p);
  }

  /** No frames of a subscription is no frames at any index. */
  lemma {:induction false} NoFrames(socket: seq<Frame>, k: nat, n: nat, m: nat)
    requires InOrder(socket, k, n, n)
    ensures InOrder(socket, k, m, m)
    decreases |socket|
  {
    if socket != [] {
      if socket[0].sub == k { InOrderBound(socket[1..], k, n + 1, n); }
      else { NoFrames(socket[1..], k, n, m); }
    }
  }

  lemma SubKept(c: Client, s: Step, k: nat)
    requires Inv(c) && Enabled(c, s) && k in c.subs
    ensures k in Next(c, s).subs && SubOk(Next(c, s), k)
  {
    var b := c.subs[k];
    assert SubOk(c, k);
    match s
    case Publish(j, n) => if j == k { PublishKeeps(b, n, c.socket, k); }
    case Push(j) =>
      if j == k { PushKeeps(b, c.socket, k); } else { OthersKeep(b, c.socket, k, Frame(j, c.subs[j].position)); }
    case Read(o) => ReadKeeps(c, o, k);
    case Disconnect =>
    case Connect =>
    case Resubscribe(j) => if j == k { ResubscribeKeeps(b, c.socket, k); }
  }

  lemma ReadKeeps(c: Client, o: Outcome, k: nat)
    requires Inv(c) && Enabled(c, Read(o)) && k in c.subs
    ensures k in Next(c, Read(o)).subs && SubOk(Next(c, Read(o)), k)
  {
    var b, f := c.subs[k], c.socket[0];
    assert SubOk(c, k);
    if f.sub != k {
      OthersKeep(b, c.socket, k, f);
    } else if b.bound {
      IndexInLog(b, c.socket, k);
      HandledKeeps(b, c.socket, k, o);
    } else {
      InOrderBound(c.socket[1..], k, 1, 0);
    }
  }

  lemma NextKeeps(c: Client, s: Step)
    requires Inv(c) && Enabled(c, s)
    ensures Inv(Next(c, s)) && Next(c, s).subs.Keys == c.subs.Keys
  {
    assert Next(c, s).subs.Keys == c.subs.Keys;
    forall k | k in Next(c, s).subs ensures SubOk(Next(c, s), k) { SubKept(c, s, k); }
  }

  // --------------------------------------------------------------- main results

  ghost predicate IsRun(cs: seq<Client>, steps: seq<Step>) {
    && |cs| == |steps| + 1 && Init(cs[0])
    && forall i | 0 <= i < |steps| :: Enabled(cs[i], steps[i]) && cs[i + 1] == Next(cs[i], steps[i])
  }

  lemma {:induction false} RunKeeps(cs: seq<Client>, steps: seq<Step>, n: nat)
    requires IsRun(cs, steps) && n <= |steps|
    ensures Inv(cs[n])
  {
    if n > 0 {
      RunKeeps(cs, steps, n - 1);
      var m := n - 1;
      assert cs[m + 1] == Next(cs[m], steps[m]);
      NextKeeps(cs[m], steps[m]);
    }
  }

  /** Cursor subscriptions have no gaps: over any interleaving of publishes, deliveries, timeouts
      of this or any other subscription on the connection, drops and reconnects, every event after
      the initial cursor and up to the current one was delivered, except frames that did not
      decode. */
  lemma NoGaps(cs: seq<Client>, steps: seq<Step>, n: nat, k: nat, i: nat)
    requires IsRun(cs, steps) && n <= |steps| && k in cs[n].subs
    requires var b := cs[n].subs[k];
             b.cursor.Some? && i < |b.log| && b.start < b.log[i] <= b.cursor.value
    ensures var b := cs[n].subs[k]; b.log[i] in b.delivered || b.log[i] in b.skipped
  {
    RunKeeps(cs, steps, n);
    assert SubOk(cs[n], k);
  }

  /** A subscription is in order: what it delivered increases and does not pass its cursor. */
  ghost predicate Ordered(b: Subscription) {
    b.cursor.Some? ==> Increasing(b.delivered) && forall n | n in b.delivered :: n <= b.cursor.value
  }

  lemma IncreasingExtend(log: seq<nat>, top: nat, n: nat)
    requires Increasing(log) && (forall m | m in log :: m <= top) && top < n
    ensures Increasing(log + [n]) && forall m | m in log + [n] :: m <= n
  {
    assert forall i | 0 <= i < |log| :: log[i] in log;
  }

  lemma OrderedKept(c: Client, s: Step, k: nat)
    requires Inv(c) && Enabled(c, s) && k in c.subs && Ordered(c.subs[k])
    requires s.Read? && s.outcome.Sent? ==> s.outcome.sequenced
    ensures k in Next(c, s).subs && Ordered(Next(c, s).subs[k])
  {
    var b := c.subs[k];
    assert SubOk(c, k);
    if s.Read? && c.socket[0].sub == k && s.outcome.Sent? && b.cursor.Some? && c.socket[0].index < |b.log| {
      var n := b.log[c.socket[0].index];
      if b.bound { NextIsAfterCursor(b, c.socket, k); } else { InOrderBound(c.socket[1..], k, 1, 0); }
      IncreasingExtend(b.delivered, b.cursor.value, n);
    }
  }

  lemma NextIsAfterCursor(b: Subscription, socket: seq<Frame>, k: nat)
    requires Sound(b) && b.bound && b.cursor.Some? && socket != [] && socket[0].sub == k && Flowing(b, socket, k)
    ensures socket[0].index < |b.log| && b.log[socket[0].index] > b.cursor.value
  {
    IndexInLog(b, socket, k);
    var first: nat :| InOrder(socket, k, first, b.position) && Resumable(b, first);
  }

  /** When every event carries its sequence number, a cursor subscription delivers in order and
      each event once, however often it reconnects. */
  lemma {:induction false} InOrderExactlyOnce(cs: seq<Client>, steps: seq<Step>, n: nat, k: nat)
    requires IsRun(cs, steps) && n <= |steps| && k in cs[n].subs
    requires forall i | 0 <= i < n :: steps[i].Read? && steps[i].outcome.Sent? ==> steps[i].outcome.sequenced
    ensures Ordered(cs[n].subs[k])
  {
    if n > 0 {
      var m := n - 1;
      assert cs[m + 1] == Next(cs[m], steps[m]);
      RunKeeps(cs, steps, m);
      NextKeeps(cs[m], steps[m]);
      InOrderExactlyOnce(cs, steps, m, k);
      OrderedKept(cs[m], steps[m], k);
    }
  }

  // ------------------------------------------------------------------------ gaps

  /** Event i is behind the cursor and was never delivered. */
  predicate Missing(b: Subscription, i: nat) {
    b.cursor.Some? && i < |b.log| && b.start < b.log[i] <= b.cursor.value && b.log[i] !in b.delivered
  }

  /** A frame of the subscription, with its sequence number, is delivered while an event before it
      has not been. */
  predicate Overtakes(c: Client, s: Step, k: nat, i: nat) {
    && s == Read(Sent(true)) && Enabled(c, s) && c.socket[0].sub == k && k in c.subs
    && var b := c.subs[k];
       && b.cursor.Some? && i < c.socket[0].index < |b.log|
       && b.start < b.log[i] && b.log[i] !in b.delivered
  }

  /** The next frame of a subscription is after everything its cursor has passed. */
  lemma FrameAfterCursor(c: Client, k: nat)
    requires Inv(c) && k in c.subs && c.subs[k].cursor.Some? && c.connected && !c.fellBehind
    requires c.socket != [] && c.socket[0].sub == k
    ensures c.socket[0].index < |c.subs[k].log| && c.subs[k].cursor.value < c.subs[k].log[c.socket[0].index]
  {
    assert SubOk(c, k);
    if c.subs[k].bound { NextIsAfterCursor(c.subs[k], c.socket, k); }
    else { InOrderBound(c.socket[1..], k, 1, 0); }
  }

  lemma DeliveredGap(b: Subscription, index: nat, i: nat, sequenced: bool)
    requires Increasing(b.log) && b.cursor.Some? && index < |b.log| && b.cursor.value < b.log[index]
    ensures Missing(Handled(b, b.log[index], Sent(sequenced)), i) <==>
              Missing(b, i) || (sequenced && i < index && b.start < b.log[i] && b.log[i] !in b.delivered)
  {
    var n := b.log[index];
    assert forall m | m in b.delivered + [n] :: m in b.delivered || m == n;
    assert n == (b.delivered + [n])[|b.delivered|];
    assert forall m | m in b.delivered :: m in b.delivered + [n];
  }

  lemma PublishGap(b: Subscription, n: nat, i: nat)
    requires Sound(b) && b.start < n && (b.log != [] ==> b.log[|b.log| - 1] < n)
    ensures Missing(b.(log := b.log + [n]), i) <==> Missing(b, i)
  {
    if b.cursor.Some? && b.cursor.value in b.log {
      var j :| 0 <= j < |b.log| && b.log[j] == b.cursor.value;
      assert b.log[j] <= b.log[|b.log| - 1];
    }
  }

  /** One step makes an event missing if and only if it overtakes the event; and a missing event
      stays missing, whatever reconnects follow. */
  lemma MissingStepIff(c: Client, s: Step, k: nat, i: nat)
    requires Inv(c) && Enabled(c, s) && k in c.subs
    ensures k in Next(c, s).subs
    ensures Missing(Next(c, s).subs[k], i) <==> Missing(c.subs[k], i) || Overtakes(c, s, k, i)
  {
    var b := c.subs[k];
    assert SubOk(c, k);
    match s
    case Publish(j, n) => if j == k { PublishGap(b, n, i); }
    case Read(o) => MissingReadIff(c, o, k, i);
    case _ =>
  }

  lemma MissingReadIff(c: Client, o: Outcome, k: nat, i: nat)
    requires Inv(c) && Enabled(c, Read(o)) && k in c.subs
    ensures k in Next(c, Read(o)).subs
    ensures Missing(Next(c, Read(o)).subs[k], i) <==> Missing(c.subs[k], i) || Overtakes(c, Read(o), k, i)
  {
    var b := c.subs[k];
    if c.socket[0].sub == k && b.cursor.Some? {
      assert SubOk(c, k);
      FrameAfterCursor(c, k);
      if o.Sent? { DeliveredGap(b, c.socket[0].index, i, o.sequenced); }
    }
  }

  ghost predicate Gap(b: Subscription) {
    exists i: nat :: Missing(b, i)
  }

  /** From a subscription without a gap, a step leaves one if and only if it delivers a sequenced
      frame of the subscription while an event before it is undelivered. */
  lemma GapStepIff(c: Client, s: Step, k: nat)
    requires Inv(c) && Enabled(c, s) && k in c.subs && !Gap(c.subs[k])
    ensures k in Next(c, s).subs
    ensures Gap(Next(c, s).subs[k]) <==> exists i: nat :: Overtakes(c, s, k, i)
  {
    MissingStepIff(c, s, k, 0);
    if Gap(Next(c, s).subs[k]) {
      var i: nat :| Missing(Next(c, s).subs[k], i);
      MissingStepIff(c, s, k, i);
    }
    forall i: nat | Overtakes(c, s, k, i) ensures Missing(Next(c, s).subs[k], i) { MissingStepIff(c, s, k, i); }
  }

  /** Some step so far overtook the event. */
  ghost predicate Overtaken(cs: seq<Client>, steps: seq<Step>, n: nat, k: nat, i: nat)
    requires n <= |steps| && n <= |cs|
  {
    exists m | 0 <= m < n :: Overtakes(cs[m], steps[m], k, i)
  }

  /** In every state of every run, an event is missing behind the cursor if and only if some step
      so far overtook it: no reconnect brings it back, and nothing else loses it. */
  lemma {:induction false} MissingIff(cs: seq<Client>, steps: seq<Step>, n: nat, k: nat, i: nat)
    requires IsRun(cs, steps) && n <= |steps| && k in cs[0].subs
    ensures k in cs[n].subs
    ensures Missing(cs[n].subs[k], i) <==> Overtaken(cs, steps, n, k, i)
  {
    if n > 0 {
      MissingIff(cs, steps, n - 1, k, i);
      MissingRunStep(cs, steps, n - 1, k, i);
    }
  }

  lemma MissingRunStep(cs: seq<Client>, steps: seq<Step>, m: nat, k: nat, i: nat)
    requires IsRun(cs, steps) && m < |steps| && k in cs[m].subs
    ensures k in cs[m + 1].subs
    ensures Missing(cs[m + 1].subs[k], i) <==> Missing(cs[m].subs[k], i) || Overtakes(cs[m], steps[m], k, i)
  {
    RunKeeps(cs, steps, m);
    assert Enabled(cs[m], steps[m]) && cs[m + 1] == Next(cs[m], steps[m]);
    MissingStepIff(cs[m], steps[m], k, i);
  }

  /** A client with one subscription. */
  function Only(k: nat, b: Subscription, connected: bool, socket: seq<Frame>): Client {
    Client(map[k := b], connected, socket, false)
  }

  /** Subscription k from cursor start, bound or not, with these events, position and history. */
  function From(
      start: nat, cursor: nat, bound: bool, log: seq<nat>, position: nat, delivered: seq<nat>, skipped: set<nat>)
    : Subscription
  {
    Subscription(log, start, Some(cursor), bound, position, delivered, skipped)
  }

  lemma Opens(k: nat, start: nat)
    ensures var idle := Only(k, From(start, start, false, [], 0, [], {}), false, []);
            var open := Only(k, From(start, start, false, [], 0, [], {}), true, []);
            var bound := Only(k, From(start, start, true, [], 0, [], {}), true, []);
            && Init(idle) && Takes(idle, Connect, open) && Takes(open, Resubscribe(k), bound)
  {
  }

  lemma Publishes(k: nat, start: nat, first: nat, second: nat)
    requires start < first < second
    ensures var bound := Only(k, From(start, start, true, [], 0, [], {}), true, []);
            var one := Only(k, From(start, start, true, [first], 0, [], {}), true, []);
            var two := Only(k, From(start, start, true, [first, second], 0, [], {}), true, []);
            Takes(bound, Publish(k, first), one) && Takes(one, Publish(k, second), two)
  {
    assert [] + [first] == [first];
    assert [first] + [second] == [first, second];
  }

  predicate Takes(c: Client, s: Step, c': Client) {
    Enabled(c, s) && Next(c, s) == c'
  }

  lemma Serves(k: nat, start: nat, first: nat, second: nat)
    requires start < first < second
    ensures var log := [first, second];
            var two := Only(k, From(start, start, true, log, 0, [], {}), true, []);
            var p1 := Only(k, From(start, start, true, log, 1, [], {}), true, [Frame(k, 0)]);
            var p2 := Only(k, From(start, start, true, log, 2, [], {}), true, [Frame(k, 0), Frame(k, 1)]);
            var r1 := Only(k, From(start, start, true, log, 2, [], {first}), true, [Frame(k, 1)]);
            var r2 := Only(k, From(start, second, true, log, 2, [second], {first}), true, []);
            && Takes(two, Push(k), p1) && Takes(p1, Push(k), p2)
            && Takes(p2, Read(Undecodable), r1) && Takes(r1, Read(Sent(true)), r2)
  {
    assert [Frame(k, 0), Frame(k, 1)][1..] == [Frame(k, 1)];
    assert [Frame(k, 0)] + [Frame(k, 1)] == [Frame(k, 0), Frame(k, 1)];
    assert [] + [second] == [second];
    assert {} + {first} == {first};
  }

  /** Such a state is reached: two events are published to a new subscription, the frame of the
      first does not decode and that of the second is delivered. */
  lemma UndecodableFrameLeavesGap(k: nat, start: nat, first: nat, second: nat)
      returns (cs: seq<Client>, steps: seq<Step>)
    requires start < first < second
    ensures steps == [Connect, Resubscribe(k), Publish(k, first), Publish(k, second), Push(k), Push(k),
                      Read(Undecodable), Read(Sent(true))]
    ensures IsRun(cs, steps) && k in cs[8].subs && cs[8].subs[k].log == [first, second]
    ensures Missing(cs[8].subs[k], 0) && cs[8].subs[k].delivered == [second]
  {
    var log := [first, second];
    assert Missing(From(start, second, true, log, 2, [second], {first}), 0);
    steps := [Connect, Resubscribe(k), Publish(k, first), Publish(k, second), Push(k), Push(k),
              Read(Undecodable), Read(Sent(true))];
    cs := [Only(k, From(start, start, false, [], 0, [], {}), false, []),
           Only(k, From(start, start, false, [], 0, [], {}), true, []),
           Only(k, From(start, start, true, [], 0, [], {}), true, []),
           Only(k, From(start, start, true, [first], 0, [], {}), true, []),
           Only(k, From(start, start, true, log, 0, [], {}), true, []),
           Only(k, From(start, start, true, log, 1, [], {}), true, [Frame(k, 0)]),
           Only(k, From(start, start, true, log, 2, [], {}), true, [Frame(k, 0), Frame(k, 1)]),
           Only(k, From(start, start, true, log, 2, [], {first}), true, [Frame(k, 1)]),
           Only(k, From(start, second, true, log, 2, [second], {first}), true, [])];
    Opens(k, start);
    Publishes(k, start, first, second);
    Serves(k, start, first, second);
    ByTakes(cs, steps);
  }

  lemma ByTakes(cs: seq<Client>, steps: seq<Step>)
    requires |cs| == |steps| + 1 && Init(cs[0])
    requires forall i | 0 <= i < |steps| :: Takes(cs[i], steps[i], cs[i + 1])
    ensures IsRun(cs, steps)
  {
    forall i | 0 <= i < |steps| ensures Enabled(cs[i], steps[i]) && cs[i + 1] == Next(cs[i], steps[i]) {
      assert Takes(cs[i], steps[i], cs[i + 1]);
    }
  }

  /** A full channel: with a cursor the whole connection falls behind and nothing is passed over, without
      one the event is dropped and the connection goes on. */
  lemma FullChannel(cs: seq<Client>, steps: seq<Step>, n: nat, k: nat)
    requires IsRun(cs, steps) && n < |steps| && steps[n] == Read(TimedOut) && k in cs[n].subs
    requires cs[n].socket != [] && cs[n].socket[0].sub == k
    ensures k in cs[n + 1].subs && cs[n].socket[0].index < |cs[n].subs[k].log|
    ensures var b, b', event := cs[n].subs[k], cs[n + 1].subs[k], cs[n].subs[k].log[cs[n].socket[0].index];
            && b'.delivered == b.delivered && b'.cursor == b.cursor
            && cs[n + 1].fellBehind == b.cursor.Some?
            && b'.skipped == if b.cursor.Some? then b.skipped else b.skipped + {event}
  {
    RunKeeps(cs, steps, n);
    assert SubOk(cs[n], k);
    assert Enabled(cs[n], steps[n]) && cs[n + 1] == Next(cs[n], steps[n]);
    if cs[n].subs[k].bound { IndexInLog(cs[n].subs[k], cs[n].socket, k); }
    else { InOrderBound(cs[n].socket[1..], k, 1, 0); }
  }

  /** A resubscription with a cursor is served every event after it, and no other; one without a cursor
      only what is published later. */
  lemma ResubscriptionServes(cs: seq<Client>, steps: seq<Step>, n: nat, k: nat)
    requires IsRun(cs, steps) && n < |steps| && steps[n] == Resubscribe(k)
    ensures k in cs[n + 1].subs && cs[n + 1].subs[k].bound
    ensures var b := cs[n + 1].subs[k];
            && b.position <= |b.log|
            && (b.cursor.None? ==> b.position == |b.log|)
            && (b.cursor.Some? ==> forall i | 0 <= i < |b.log| :: b.log[i] > b.cursor.value <==> i >= b.position)
  {
    RunKeeps(cs, steps, n);
    assert Enabled(cs[n], steps[n]) && cs[n + 1] == Next(cs[n], steps[n]);
    assert SubOk(cs[n], k);
  }

  // ------------------------------------------------------------------ ConnectRPC

  /** What became of one frame of a stream. */
  datatype Received = Delivered(sequenced: bool) | NoRoom | Unconvertible | Ended

  datatype End = Clean | Retryable | Fatal

  /** One Subscribe call: it may be refused, or serve some frames and then end.  Without a cursor it
      serves from event `live` on.  `waited` is whether the wait before the next call was not cut short. */
  datatype Attempt = Attempt(accepted: bool, live: nat, frames: seq<Received>, end: End, waited: bool)

  datatype Stream = Stream(cursor: Option<nat>, delivered: seq<nat>, skipped: set<nat>, over: bool)

  ghost predicate StreamSound(log: seq<nat>, start: Option<nat>, t: Stream) {
    && t.cursor.Some? == start.Some?
    && (start.Some? ==>
          && start.value <= t.cursor.value
          && Covered(log, start.value, t.cursor.value, t.delivered, t.skipped))
  }

  ghost predicate StreamOrdered(t: Stream) {
    t.cursor.Some? ==> Increasing(t.delivered) && forall n | n in t.delivered :: n <= t.cursor.value
  }

  predicate AllSequenced(frames: seq<Received>) {
    forall f | f in frames :: f.Delivered? ==> f.sequenced
  }

  /** The event the server serves first. */
  function FirstServed(log: seq<nat>, t: Stream, live: nat): (p: nat)
    ensures p <= |log|
  {
    if t.cursor.Some? then Position(log, t.cursor.value) else if live < |log| then live else |log|
  }

  function TakeFrame(t: Stream, n: nat, f: Received): Stream {
    match f
    case Delivered(sequenced) =>
      t.(delivered := t.delivered + [n], cursor := if sequenced && t.cursor.Some? && n > 0 then Some(n) else t.cursor)
    case NoRoom => if t.cursor.None? then t.(skipped := t.skipped + {n}) else t.(over := true)
    case Unconvertible => t.(skipped := t.skipped + {n})
    case Ended => t.(over := true)
  }

  /** The frames from event p on, until one of them ends the loop. */
  function TakeAll(log: seq<nat>, p: nat, frames: seq<Received>, t: Stream): Stream
    decreases |frames|
  {
    if frames == [] || p >= |log| || t.over then t
    else TakeAll(log, p + 1, frames[1..], TakeFrame(t, log[p], frames[0]))
  }

  /** One attempt and the decision whether to make another. */
  function TakeAttempt(log: seq<nat>, t: Stream, a: Attempt): Stream {
    var u := if a.accepted then TakeAll(log, FirstServed(log, t, a.live), a.frames, t) else t;
    if a.end == Clean || u.cursor.None? || a.end == Fatal || !a.waited then u.(over := true) else u
  }

  function TakeAttempts(log: seq<nat>, t: Stream, attempts: seq<Attempt>): Stream
    decreases |attempts|
  {
    if attempts == [] || t.over then t else TakeAttempts(log, TakeAttempt(log, t, attempts[0]), attempts[1..])
  }

  /** The receive loop on one stream, which serves log[p], log[p + 1], and so on. */
  method Receive(log: seq<nat>, start: Option<nat>, live: nat, frames: seq<Received>, t: Stream) returns (r: Stream)
    requires Increasing(log) && StreamSound(log, start, t) && !t.over
    ensures r == TakeAll(log, FirstServed(log, t, live), frames, t)
    ensures StreamSound(log, start, r)
    ensures StreamOrdered(t) && AllSequenced(frames) ==> StreamOrdered(r)
    ensures t.delivered <= r.delivered
  {
    r := t;
    var p := FirstServed(log, t, live);
    var i := 0;
    while i < |frames| && p + i < |log| && !r.over
      invariant 0 <= i <= |frames| && p + i <= |log| && t.delivered <= r.delivered
      invariant TakeAll(log, p, frames, t) == TakeAll(log, p + i, frames[i..], r)
      invariant StreamSound(log, start, r)
      invariant StreamOrdered(t) && AllSequenced(frames) ==> StreamOrdered(r)
      invariant !r.over && start.Some? ==>
        forall j | 0 <= j < p + i && start.value < log[j] :: log[j] in r.delivered || log[j] in r.skipped
      invariant !r.over && start.Some? ==> forall j | p + i <= j < |log| :: r.cursor.value < log[j]
    {
      var n := log[p + i];
      assert frames[i..][1..] == frames[i + 1..];
      match frames[i] {
        case Delivered(sequenced) =>
          if start.Some? && StreamOrdered(r) { IncreasingExtend(r.delivered, r.cursor.value, n); }
          r := r.(delivered := r.delivered + [n],
                  cursor := if sequenced && r.cursor.Some? && n > 0 then Some(n) else r.cursor);
        case NoRoom =>
          // With a cursor the loop waits for room; a wait without end is a run that stops here.
          if r.cursor.None? { r := r.(skipped := r.skipped + {n}); } else { r := r.(over := true); }
        case Unconvertible => r := r.(skipped := r.skipped + {n});
        case Ended => r := r.(over := true);
      }
      i := i + 1;
    }
  }

  /** The reconnect loop.  Whatever the server does, a cursor stream leaves no gap but for frames
      that did not convert, and delivers in order and once when every frame is sequenced. */
  method StreamSubscription(log: seq<nat>, start: Option<nat>, attempts: seq<Attempt>) returns (r: Stream)
    requires Increasing(log)
    ensures r == TakeAttempts(log, Stream(start, [], {}, false), attempts)
    ensures r.cursor.Some? == start.Some?
    ensures start.Some? ==>
              && start.value <= r.cursor.value
              && Covered(log, start.value, r.cursor.value, r.delivered, r.skipped)
    ensures start.Some? && (forall a | a in attempts :: AllSequenced(a.frames)) ==> Increasing(r.delivered)
  {
    r := Stream(start, [], {}, false);
    var i := 0;
    while i < |attempts| && !r.over
      invariant 0 <= i <= |attempts| && StreamSound(log, start, r)
      invariant TakeAttempts(log, Stream(start, [], {}, false), attempts) == TakeAttempts(log, r, attempts[i..])
      invariant (forall a | a in attempts :: AllSequenced(a.frames)) ==> StreamOrdered(r)
    {
      var a := attempts[i];
      assert attempts[i..][1..] == attempts[i + 1..];
      if a.accepted { r := Receive(log, start, a.live, a.frames, r); }
      if a.end == Clean || r.cursor.None? || a.end == Fatal || !a.waited { r := r.(over := true); }
      i := i + 1;
    }
  }

  // --------------------------------------------------- what a stream delivers

  /** The frame ends the loop: with a cursor a full channel is waited for. */
  predicate EndsLoop(f: Received, cursor: bool) {
    f.Ended? || (f.NoRoom? && cursor)
  }

  lemma {:induction false} TakesMore(log: seq<nat>, p: nat, frames: seq<Received>, t: Stream)
    ensures var r := TakeAll(log, p, frames, t);
            t.delivered <= r.delivered && t.skipped <= r.skipped && r.cursor.Some? == t.cursor.Some?
    decreases |frames|
  {
    if !(frames == [] || p >= |log| || t.over) { TakesMore(log, p + 1, frames[1..], TakeFrame(t, log[p], frames[0])); }
  }

  /** Every frame that is served before one ends the loop is handled: the event of a delivered frame is
      delivered, and one that does not convert, or for which a stream without a cursor has no room, is
      skipped. */
  lemma {:induction false} ServedFrames(log: seq<nat>, p: nat, frames: seq<Received>, t: Stream, i: nat)
    requires i < |frames| && p + i < |log| && !t.over
    requires forall j | 0 <= j <= i :: !EndsLoop(frames[j], t.cursor.Some?)
    ensures frames[i].Delivered? ==> log[p + i] in TakeAll(log, p, frames, t).delivered
    ensures !frames[i].Delivered? ==> log[p + i] in TakeAll(log, p, frames, t).skipped
    decreases i
  {
    var next := TakeFrame(t, log[p], frames[0]);
    assert !EndsLoop(frames[0], t.cursor.Some?);
    TakesMore(log, p + 1, frames[1..], next);
    if i == 0 {
      if frames[0].Delivered? { assert log[p] == next.delivered[|t.delivered|]; }
    } else {
      forall j | 0 <= j <= i - 1 ensures !EndsLoop(frames[1..][j], next.cursor.Some?) {
        assert !EndsLoop(frames[j + 1], t.cursor.Some?);
      }
      ServedFrames(log, p + 1, frames[1..], next, i - 1);
    }
  }

  /** And nothing else is delivered. */
  lemma {:induction false} OnlyServed(log: seq<nat>, p: nat, frames: seq<Received>, t: Stream, n: nat)
    requires n in TakeAll(log, p, frames, t).delivered && n !in t.delivered
    ensures exists i | 0 <= i < |frames| :: DeliversAt(log, p, frames, i, n)
    decreases |frames|
  {
    var next := TakeFrame(t, log[p], frames[0]);
    if n in next.delivered {
      assert DeliversAt(log, p, frames, 0, n);
    } else {
      OnlyServed(log, p + 1, frames[1..], next, n);
      var i :| 0 <= i < |frames[1..]| && DeliversAt(log, p + 1, frames[1..], i, n);
      assert DeliversAt(log, p, frames, i + 1, n);
    }
  }

  predicate DeliversAt(log: seq<nat>, p: nat, frames: seq<Received>, i: nat, n: nat) {
    i < |frames| && p + i < |log| && frames[i].Delivered? && log[p + i] == n
  }

  /** The loop goes on after an attempt if and only if the subscription has a cursor, no frame ended it,
      and the attempt failed in a way that can be retried and was waited out. */
  lemma {:induction false} GoesOnIff(log: seq<nat>, t: Stream, a: Attempt)
    requires !t.over
    ensures !TakeAttempt(log, t, a).over <==>
              && t.cursor.Some? && a.end == Retryable && a.waited
              && (a.accepted ==> !TakeAll(log, FirstServed(log, t, a.live), a.frames, t).over)
  {
    TakesMore(log, FirstServed(log, t, a.live), a.frames, t);
  }

  /** Frames without an end leave the loop open. */
  lemma {:induction false} StaysOpen(log: seq<nat>, p: nat, frames: seq<Received>, t: Stream)
    requires !t.over && forall j | 0 <= j < |frames| :: !EndsLoop(frames[j], t.cursor.Some?)
    ensures !TakeAll(log, p, frames, t).over
    decreases |frames|
  {
    if frames != [] && p < |log| {
      var next := TakeFrame(t, log[p], frames[0]);
      assert !EndsLoop(frames[0], t.cursor.Some?);
      forall j | 0 <= j < |frames[1..]| ensures !EndsLoop(frames[1..][j], next.cursor.Some?) {
        assert !EndsLoop(frames[j + 1], t.cursor.Some?);
      }
      StaysOpen(log, p + 1, frames[1..], next);
    }
  }

  lemma {:induction false} AttemptsKeep(log: seq<nat>, t: Stream, attempts: seq<Attempt>)
    ensures t.delivered <= TakeAttempts(log, t, attempts).delivered
    decreases |attempts|
  {
    if !(attempts == [] || t.over) {
      var a := attempts[0];
      TakesMore(log, FirstServed(log, t, a.live), a.frames, t);
      AttemptsKeep(log, TakeAttempt(log, t, a), attempts[1..]);
    }
  }

  /** An attempt that can be retried: its frames, if any, all arrive. */
  predicate Retries(a: Attempt) {
    a.end == Retryable && a.waited && forall f | f in a.frames :: !EndsLoop(f, true)
  }

  /** So a cursor subscription is resumed: after any number of attempts that can be retried, the next one
      is made, from the cursor they left, and an event it delivers is delivered. */
  lemma {:induction false} RetriesResume(
    log: seq<nat>, t: Stream, first: seq<Attempt>, a: Attempt, rest: seq<Attempt>, i: nat)
    requires Increasing(log) && t.cursor.Some? && !t.over && forall b | b in first :: Retries(b)
    requires a.accepted && (forall f | f in a.frames :: f.Delivered?)
    ensures var u := TakeAttempts(log, t, first);
            && !u.over && u.cursor.Some?
            && var p := FirstServed(log, u, a.live);
               && (i < |a.frames| && p + i < |log| ==>
                     && log[p + i] > u.cursor.value
                     && log[p + i] in TakeAttempts(log, t, first + ([a] + rest)).delivered)
    decreases |first|
  {
    if first == [] {
      assert first + ([a] + rest) == [a] + rest && ([a] + rest)[1..] == rest;
      var p := FirstServed(log, t, a.live);
      if i < |a.frames| && p + i < |log| {
        forall j | 0 <= j <= i ensures !EndsLoop(a.frames[j], true) { assert a.frames[j].Delivered?; }
        ServedFrames(log, p, a.frames, t, i);
        assert a.frames[i].Delivered?;
        AttemptsKeep(log, TakeAttempt(log, t, a), rest);
      }
    } else {
      var b := first[0];
      assert Retries(b);
      StaysOpen(log, FirstServed(log, t, b.live), b.frames, t);
      GoesOnIff(log, t, b);
      TakesMore(log, FirstServed(log, t, b.live), b.frames, t);
      assert (first + ([a] + rest))[1..] == first[1..] + ([a] + rest);
      RetriesResume(log, TakeAttempt(log, t, b), first[1..], a, rest, i);
    }
  }
}
