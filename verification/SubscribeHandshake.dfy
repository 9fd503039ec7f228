/** The subscribe handshake on one connection and one pattern (ironflow/subscribe.go).

    Any number of Subscribe callers, the reader goroutine, the server, users who unsubscribe
    and a closing client interleave.  Every critical section and every channel operation is
    one step.  The server answers each request once and accepted ids are fresh. */
module SubscribeHandshake {
  import opened Optional

  datatype Reply = Accepted(id: nat) | Refused

  /** A Subscribe caller, between its atomic actions. */
  datatype Caller =
    | Checking                // about to look for an active subscription
    | Clear                   // saw none, about to take pendingMu
    | WaitingFor(prev: nat)   // another attempt is pending
    | Reserved                // its attempt is pending, the request is not sent
    | Awaiting                // selecting on the result
    | Got(reply: Reply)
    | Installed(id: nat)      // both maps hold the id
    | Canceling               // about to cancel its attempt
    | Returned

  datatype Attempt = Attempt(pc: Caller, slot: Option<Reply>, done: bool, canceled: bool)

  /** The reader inside handleSubscriptionResult. */
  datatype Reader =
    | Idle
    | Found(reply: Reply, a: nat)
    | NotCanceled(reply: Reply, a: nat)
    | Delivered(reply: Reply, a: nat) // waiting for done, canceledCh or c.done
    | Dropping(a: nat)                // an unsubscribe was sent, about to complete

  datatype Client = Client(
    attempts: map<nat, Attempt>,
    pending: Option<nat>,
    subscriptions: set<nat>,
    byPattern: Option<nat>,
    reader: Reader,
    requests: nat,           // on their way to the server
    results: seq<Reply>,     // on their way to the reader
    closing: nat,            // 0 open, 1 done closed, 2 maps cleared, 3 pending cleared
    accepted: set<nat>,      // history: ids the server handed out
    installed: set<nat>,     // history: ids ever put in both maps
    unsubscribed: set<nat>,  // history: ids the reader answered with an unsubscribe
    owner: map<nat, nat>)    // history: the attempt an id was offered to

  datatype Step =
    | Begin(a: nat)
    | CheckActive(a: nat)
    | Reserve(a: nat)
    | PreviousDone(a: nat)
    | GiveUpWaiting(a: nat)
    | Send(a: nat, reached: bool, ok: bool)
    | Take(a: nat)
    | Abandon(a: nat)          // the context or the client ended
    | Install(a: nat)
    | Complete(a: nat)
    | Cancel(a: nat)
    | Answer(reply: Reply)
    | ReadResult
    | ReadCanceled
    | Deliver
    | SeeDone
    | SeeCanceled
    | SeeClosed
    | FinishDrop
    | UserUnsubscribe
    | CloseDone
    | ClearMaps
    | ClearPending

  // --------------------------------------------------------------------- steps

  predicate At(w: Client, a: nat, pc: Caller) {
    a in w.attempts && w.attempts[a].pc == pc
  }

  predicate Enabled(w: Client, s: Step) {
    match s
    case Begin(a) => a !in w.attempts
    case CheckActive(a) => At(w, a, Checking)
    case Reserve(a) => At(w, a, Clear)
    case PreviousDone(a) =>
      && a in w.attempts && w.attempts[a].pc.WaitingFor?
      && w.attempts[a].pc.prev in w.attempts && w.attempts[w.attempts[a].pc.prev].done
    case GiveUpWaiting(a) => a in w.attempts && w.attempts[a].pc.WaitingFor?
    case Send(a, reached, ok) => At(w, a, Reserved) && (ok ==> reached)
    case Take(a) => At(w, a, Awaiting) && w.attempts[a].slot.Some?
    case Abandon(a) => At(w, a, Awaiting)
    case Install(a) => a in w.attempts && w.attempts[a].pc.Got? && w.attempts[a].pc.reply.Accepted?
    case Complete(a) => At(w, a, Got(Refused)) || (a in w.attempts && w.attempts[a].pc.Installed?)
    case Cancel(a) => At(w, a, Canceling)
    case Answer(r) => w.requests > 0 && (r.Accepted? ==> r.id !in w.accepted)
    case ReadResult => w.reader.Idle? && w.results != []
    case ReadCanceled => w.reader.Found? && w.reader.a in w.attempts
    case Deliver => w.reader.NotCanceled? && w.reader.a in w.attempts
    case SeeDone => w.reader.Delivered? && w.reader.a in w.attempts && w.attempts[w.reader.a].done
    case SeeCanceled => w.reader.Delivered? && w.reader.a in w.attempts && w.attempts[w.reader.a].canceled
    case SeeClosed => w.reader.Delivered? && w.closing > 0
    case FinishDrop => w.reader.Dropping? && w.reader.a in w.attempts
    case UserUnsubscribe => w.byPattern.Some?
    case CloseDone => w.closing == 0
    case ClearMaps => w.closing == 1
    case ClearPending => w.closing == 2
  }

  function Goto(w: Client, a: nat, pc: Caller): Client
    requires a in w.attempts
  {
    w.(attempts := w.attempts[a := w.attempts[a].(pc := pc)])
  }

  /** completeSubscribeAttempt. */
  function Completed(w: Client, a: nat): Client
    requires a in w.attempts
  {
    if w.pending == Some(a)
    then w.(pending := None, attempts := w.attempts[a := w.attempts[a].(done := true)])
    else w
  }

  /** cancelSubscribeAttempt. */
  function Canceled(w: Client, a: nat): Client
    requires a in w.attempts
  {
    if w.pending == Some(a) then w.(attempts := w.attempts[a := w.attempts[a].(canceled := true)]) else w
  }

  /** The unsubscribe frame; a closed client has no connection to send it on. */
  function Unsubscribed(w: Client, r: Reply): Client {
    if r.Accepted? && w.closing < 2 then w.(unsubscribed := w.unsubscribed + {r.id}) else w
  }

  function Offered(w: Client, r: Reply, a: nat): Client
    requires a in w.attempts
  {
    var w1 := if r.Accepted? then w.(owner := w.owner[r.id := a]) else w;
    if w.attempts[a].slot.None? then w1.(attempts := w.attempts[a := w.attempts[a].(slot := Some(r))])
    else w1
  }

  function Next(w: Client, s: Step): Client
    requires Enabled(w, s)
  {
    match s
    case Begin(a) => w.(attempts := w.attempts[a := Attempt(Checking, None, false, false)])
    case CheckActive(a) => Goto(w, a, if w.byPattern.Some? then Returned else Clear)
    case Reserve(a) =>
      if w.pending.Some? then Goto(w, a, WaitingFor(w.pending.value))
      else Goto(w, a, Caller.Reserved).(pending := Some(a))
    case PreviousDone(a) => Goto(w, a, Checking)
    case GiveUpWaiting(a) => Goto(w, a, Returned)
    case Send(a, reached, ok) =>
      Goto(w, a, if ok then Awaiting else Canceling).(requests := w.requests + if reached then 1 else 0)
    case Take(a) =>
      w.(attempts := w.attempts[a := w.attempts[a].(pc := Got(w.attempts[a].slot.value), slot := None)])
    case Abandon(a) => Goto(w, a, Canceling)
    case Install(a) =>
      var id := w.attempts[a].pc.reply.id;
      Goto(w, a, Installed(id)).(
        subscriptions := w.subscriptions + {id}, byPattern := Some(id), installed := w.installed + {id})
    case Complete(a) => Completed(Goto(w, a, Returned), a)
    case Cancel(a) => Canceled(Goto(w, a, Returned), a)
    case Answer(r) =>
      w.(requests := w.requests - 1, results := w.results + [r],
         accepted := if r.Accepted? then w.accepted + {r.id} else w.accepted)
    case ReadResult =>
      var w1 := w.(results := w.results[1..]);
      if w.pending.None? then w1 else w1.(reader := Found(w.results[0], w.pending.value))
    case ReadCanceled =>
      if w.attempts[w.reader.a].canceled
      then Unsubscribed(w, w.reader.reply).(reader := Dropping(w.reader.a))
      else w.(reader := NotCanceled(w.reader.reply, w.reader.a))
    case Deliver =>
      Offered(w, w.reader.reply, w.reader.a).(reader := Reader.Delivered(w.reader.reply, w.reader.a))
    case SeeDone => w.(reader := Idle)
    case SeeCanceled => Unsubscribed(w, w.reader.reply).(reader := Dropping(w.reader.a))
    case SeeClosed => w.(reader := Idle)
    case FinishDrop => Completed(w, w.reader.a).(reader := Idle)
    case UserUnsubscribe =>
      if w.byPattern.value in w.subscriptions
      then w.(subscriptions := w.subscriptions - {w.byPattern.value}, byPattern := None)
      else w
    case CloseDone => w.(closing := 1)
    case ClearMaps => w.(closing := 2, subscriptions := {}, byPattern := None)
    case ClearPending =>
      var w1 := w.(closing := 3, pending := None);
      if w.pending.Some? && w.pending.value in w.attempts
      then w1.(attempts := w.attempts[w.pending.value := w.attempts[w.pending.value].(done := true)])
      else w1
  }

  predicate Init(w: Client) {
    && w.attempts == map[] && w.pending == None && w.subscriptions == {} && w.byPattern == None
    && w.reader == Idle && w.requests == 0 && w.results == [] && w.closing == 0
    && w.accepted == w.installed == w.unsubscribed == {} && w.owner == map[]
  }

  /** A step of the Subscribe caller s.a, or of the reader. */
  predicate ByCaller(s: Step) {
    || s.Begin? || s.CheckActive? || s.Reserve? || s.PreviousDone? || s.GiveUpWaiting? || s.Send?
    || s.Take? || s.Abandon? || s.Install? || s.Complete? || s.Cancel?
  }

  predicate ByReader(s: Step) {
    s.ReadResult? || s.ReadCanceled? || s.Deliver? || s.SeeDone? || s.SeeCanceled? || s.SeeClosed? || s.FinishDrop?
  }

  // -------------------------------------------------------- safety, in every state

  /** The results on their way carry distinct ids about which nothing is decided. */
  predicate Fresh(results: seq<Reply>, reader: Reader, accepted: set<nat>, touched: set<nat>) {
    && (forall i | 0 <= i < |results| && results[i].Accepted? ::
          results[i].id in accepted && results[i].id !in touched)
    && (forall i, j | 0 <= i < j < |results| && results[i].Accepted? :: results[i] != results[j])
    && ((reader.Found? || reader.NotCanceled?) && reader.reply.Accepted? ==>
          reader.reply.id in accepted && reader.reply.id !in touched && reader.reply !in results)
  }

  /** A reply this attempt was offered. */
  predicate Offer(r: Reply, a: nat, owner: map<nat, nat>) {
    r.Accepted? ==> r.id in owner && owner[r.id] == a
  }

  /** Cancelling ends a caller, and the replies it holds were offered to it. */
  predicate AttemptOk(t: Attempt, a: nat, owner: map<nat, nat>) {
    && (t.canceled ==> t.pc.Returned?)
    && (t.slot.Some? ==> Offer(t.slot.value, a, owner))
    && (t.pc.Got? ==> Offer(t.pc.reply, a, owner))
  }

  predicate Attempts(attempts: map<nat, Attempt>, owner: map<nat, nat>) {
    forall a | a in attempts :: AttemptOk(attempts[a], a, owner)
  }

  /** The caller went through with its subscription. */
  predicate Kept(t: Attempt) {
    !t.canceled && (t.pc.Installed? || t.pc.Returned?)
  }

  /** An installed id belongs to a caller that kept it, an unsubscribed one to none or to a
      caller that cancelled. */
  predicate Decided(attempts: map<nat, Attempt>, owner: map<nat, nat>, installed: set<nat>, unsubscribed: set<nat>) {
    && (forall id | id in installed :: id in owner && owner[id] in attempts && Kept(attempts[owner[id]]))
    && (forall id | id in unsubscribed && id in owner :: owner[id] in attempts && attempts[owner[id]].canceled)
  }

  predicate Safe(w: Client) {
    && Fresh(w.results, w.reader, w.accepted, w.owner.Keys + w.unsubscribed)
    && Attempts(w.attempts, w.owner)
    && (w.reader.Delivered? ==> Offer(w.reader.reply, w.reader.a, w.owner))
    && w.owner.Keys + w.unsubscribed <= w.accepted
    && Decided(w.attempts, w.owner, w.installed, w.unsubscribed)
  }

  /** What a step of a caller does to its attempt. */
  lemma CallerStep(w: Client, s: Step)
    requires Enabled(w, s) && ByCaller(s) && Attempts(w.attempts, w.owner)
    ensures var w' := Next(w, s);
            && s.a in w'.attempts && w'.attempts == w.attempts[s.a := w'.attempts[s.a]]
            && AttemptOk(w'.attempts[s.a], s.a, w.owner)
            && (s.a in w.attempts ==>
                  && (Kept(w.attempts[s.a]) ==> Kept(w'.attempts[s.a]))
                  && (w.attempts[s.a].canceled ==> w'.attempts[s.a].canceled))
            && w' == w.(attempts := w'.attempts, pending := w'.pending, requests := w'.requests,
                        subscriptions := w'.subscriptions, byPattern := w'.byPattern, installed := w'.installed)
  {
    assert s.a in w.attempts ==> AttemptOk(w.attempts[s.a], s.a, w.owner);
  }

  lemma CallerSafe(w: Client, s: Step)
    requires Safe(w) && Enabled(w, s) && ByCaller(s)
    ensures Safe(Next(w, s))
  {
    CallerStep(w, s);
    var w' := Next(w, s);
    AttemptUpdated(w.attempts, s.a, w'.attempts[s.a], w.owner, w.installed, w.unsubscribed);
    if s.Install? {
      assert AttemptOk(w.attempts[s.a], s.a, w.owner);
    }
  }

  lemma AttemptUpdated(
    ts: map<nat, Attempt>, a: nat, t: Attempt, owner: map<nat, nat>, installed: set<nat>, unsubscribed: set<nat>)
    requires Attempts(ts, owner) && AttemptOk(t, a, owner) && Decided(ts, owner, installed, unsubscribed)
    requires a in ts ==> (Kept(ts[a]) ==> Kept(t)) && (ts[a].canceled ==> t.canceled)
    ensures Attempts(ts[a := t], owner) && Decided(ts[a := t], owner, installed, unsubscribed)
  {
  }

  lemma ReaderSafe(w: Client, s: Step)
    requires Safe(w) && Enabled(w, s) && ByReader(s)
    ensures Safe(Next(w, s))
  {
    match s
    case ReadResult => ReadResultSafe(w);
    case Deliver => DeliverSafe(w);
    case ReadCanceled => UnsubscribeSafe(w, s);
    case SeeCanceled => UnsubscribeSafe(w, s);
    case FinishDrop =>
      var a := w.reader.a;
      assert AttemptOk(w.attempts[a], a, w.owner);
      AttemptUpdated(w.attempts, a, w.attempts[a].(done := true), w.owner, w.installed, w.unsubscribed);
    case _ =>
  }

  lemma ReadResultSafe(w: Client)
    requires Safe(w) && Enabled(w, ReadResult)
    ensures Safe(Next(w, ReadResult))
  {
    assert w.results == [w.results[0]] + w.results[1..];
  }

  lemma UnsubscribeSafe(w: Client, s: Step)
    requires Safe(w) && Enabled(w, s) && (s.ReadCanceled? || s.SeeCanceled?)
    ensures Safe(Next(w, s))
  {
  }

  lemma DeliverSafe(w: Client)
    requires Safe(w) && Enabled(w, Deliver)
    ensures Safe(Next(w, Deliver))
  {
    var a, r, w' := w.reader.a, w.reader.reply, Next(w, Deliver);
    assert AttemptOk(w.attempts[a], a, w.owner);
    OwnerExtended(w.attempts, r, a, w.owner, w.installed, w.unsubscribed);
    AttemptUpdated(w.attempts, a, w'.attempts[a], w'.owner, w.installed, w.unsubscribed);
    assert w'.attempts == w.attempts[a := w'.attempts[a]];
  }

  lemma OwnerExtended(
    ts: map<nat, Attempt>, r: Reply, a: nat, owner: map<nat, nat>, installed: set<nat>, unsubscribed: set<nat>)
    requires Attempts(ts, owner) && Decided(ts, owner, installed, unsubscribed)
    requires r.Accepted? ==> r.id !in owner && r.id !in unsubscribed
    ensures var owner' := if r.Accepted? then owner[r.id := a] else owner;
            Attempts(ts, owner') && Decided(ts, owner', installed, unsubscribed) && Offer(r, a, owner')
  {
    var owner' := if r.Accepted? then owner[r.id := a] else owner;
    forall b | b in ts ensures AttemptOk(ts[b], b, owner') { assert AttemptOk(ts[b], b, owner); }
  }

  lemma SafeKept(w: Client, s: Step)
    requires Safe(w) && Enabled(w, s)
    ensures Safe(Next(w, s))
  {
    if ByCaller(s) {
      CallerSafe(w, s);
    } else if ByReader(s) {
      ReaderSafe(w, s);
    } else if s.ClearPending? && w.pending.Some? && w.pending.value in w.attempts {
      var a := w.pending.value;
      assert AttemptOk(w.attempts[a], a, w.owner);
      AttemptUpdated(w.attempts, a, w.attempts[a].(done := true), w.owner, w.installed, w.unsubscribed);
    }
  }

  // ------------------------------------------------- accounting, while the client is open

  /** The attempt is in the part of Subscribe between reserving and completing. */
  predicate Active(pc: Caller) {
    pc.Reserved? || pc.Awaiting? || pc.Got? || pc.Installed? || pc.Canceling?
  }

  predicate Early(pc: Caller) {
    pc.Checking? || pc.Clear? || pc.WaitingFor?
  }

  predicate ReaderOn(w: Client, a: nat) {
    !w.reader.Idle? && w.reader.a == a
  }

  function InFlight(w: Client, a: nat): nat {
    w.requests + |w.results| + if ReaderOn(w, a) then 1 else 0
  }

  /** Only the pending attempt is at work, and an early one has touched nothing. */
  predicate Role(t: Attempt, isPending: bool) {
    && (Active(t.pc) ==> isPending)
    && (Early(t.pc) ==> t.slot.None? && !t.done && !isPending)
  }

  predicate RolesOf(ts: map<nat, Attempt>, pending: Option<nat>) {
    forall a | a in ts :: Role(ts[a], pending == Some(a))
  }

  predicate Roles(w: Client) {
    RolesOf(w.attempts, w.pending)
  }

  /** At most one request of the pending attempt is unanswered, and of no other. */
  predicate OnePending(w: Client) {
    && (w.pending.None? ==> w.requests == 0 && w.results == [])
    && (w.pending.Some? ==>
          && w.pending.value in w.attempts
          && var a := w.pending.value; var t := w.attempts[a];
             && !t.done && InFlight(w, a) <= 1
             && (t.pc.Reserved? ==> InFlight(w, a) == 0 && t.slot.None?)
             && (Active(t.pc) || (t.pc.Returned? && t.canceled)))
  }

  /** What the caller of the attempt under the reader can be doing. */
  predicate ReaderOk(w: Client) {
    && (!w.reader.Idle? ==> w.reader.a in w.attempts)
    && (w.reader.Found? || w.reader.NotCanceled? || w.reader.Dropping? ==> w.pending == Some(w.reader.a))
    && (w.reader.Found? || w.reader.NotCanceled? ==>
          var t := w.attempts[w.reader.a];
          t.slot.None? && !t.pc.Got? && !t.pc.Installed?)
    && (w.reader.Dropping? ==> w.attempts[w.reader.a].canceled)
    && (w.reader.Delivered? ==>
          var t := w.attempts[w.reader.a]; var r := w.reader.reply;
          if w.pending == Some(w.reader.a) then
            && (t.pc.Awaiting? ==> t.slot == Some(r))
            && (t.pc.Got? ==> t.pc.reply == r)
            && (t.pc.Installed? ==> r == Accepted(t.pc.id) && t.pc.id in w.installed)
          else t.done && !t.canceled && (r.Accepted? ==> r.id in w.installed))
  }

  /** A reply the caller of the pending attempt holds is the one the reader waits on. */
  predicate Held(w: Client) {
    w.pending.Some? && w.pending.value in w.attempts ==>
      var a := w.pending.value; var t := w.attempts[a];
      (t.slot.Some? || t.pc.Got? || t.pc.Installed?) ==>
        (w.reader.Delivered? || w.reader.Dropping?) && w.reader.a == a
  }

  predicate Unsettled(w: Client, id: nat) {
    || Accepted(id) in w.results
    || ((w.reader.Found? || w.reader.NotCanceled? || w.reader.Delivered?) && w.reader.reply == Accepted(id))
  }

  /** Every accepted id is installed, answered with an unsubscribe, or still under way. */
  predicate Accounted(w: Client) {
    forall id | id in w.accepted :: id in w.installed || id in w.unsubscribed || Unsettled(w, id)
  }

  predicate Open(w: Client) {
    w.closing == 0 ==> Roles(w) && OnePending(w) && ReaderOk(w) && Held(w) && Accounted(w)
  }

  ghost predicate Ready(w: Client, s: Step) {
    && Attempts(w.attempts, w.owner) && Roles(w) && OnePending(w) && ReaderOk(w) && Held(w)
    && Enabled(w, s) && Next(w, s).closing == 0
  }

  lemma RoleUpdated(ts: map<nat, Attempt>, pending: Option<nat>, a: nat, t: Attempt, pending': Option<nat>)
    requires RolesOf(ts, pending) && Role(t, pending' == Some(a))
    requires pending' != pending ==> pending == None || pending == Some(a)
    requires pending' != pending ==> pending' == None || pending' == Some(a)
    ensures RolesOf(ts[a := t], pending')
  {
    forall b | b in ts && b != a ensures Role(ts[b], pending' == Some(b)) { assert Role(ts[b], pending == Some(b)); }
  }

  lemma CallerRoles(w: Client, s: Step)
    requires Ready(w, s) && ByCaller(s)
    ensures Roles(Next(w, s))
  {
    CallerStep(w, s);
    var w' := Next(w, s);
    assert s.a in w.attempts ==> Role(w.attempts[s.a], w.pending == Some(s.a));
    RoleUpdated(w.attempts, w.pending, s.a, w'.attempts[s.a], w'.pending);
  }

  lemma ReaderRoles(w: Client, s: Step)
    requires Ready(w, s) && !ByCaller(s)
    ensures Roles(Next(w, s))
  {
    var w' := Next(w, s);
    if s.Deliver? || s.FinishDrop? {
      var a := w.reader.a;
      assert Role(w.attempts[a], w.pending == Some(a)) && AttemptOk(w.attempts[a], a, w.owner);
      assert w'.attempts == w.attempts[a := w'.attempts[a]];
      RoleUpdated(w.attempts, w.pending, a, w'.attempts[a], w'.pending);
    }
  }

  lemma CallerPending(w: Client, s: Step)
    requires Ready(w, s) && ByCaller(s)
    ensures OnePending(Next(w, s)) && Held(Next(w, s))
  {
    assert s.a in w.attempts ==> Role(w.attempts[s.a], w.pending == Some(s.a));
    assert w.pending.Some? ==> AttemptOk(w.attempts[w.pending.value], w.pending.value, w.owner);
  }

  lemma ReaderPending(w: Client, s: Step)
    requires Ready(w, s) && !ByCaller(s)
    ensures OnePending(Next(w, s)) && Held(Next(w, s))
  {
    assert w.pending.Some? ==> AttemptOk(w.attempts[w.pending.value], w.pending.value, w.owner);
  }

  lemma CallerReaderOk(w: Client, s: Step)
    requires Ready(w, s) && ByCaller(s)
    ensures ReaderOk(Next(w, s))
  {
    assert s.a in w.attempts ==> Role(w.attempts[s.a], w.pending == Some(s.a));
    assert !w.reader.Idle? ==> AttemptOk(w.attempts[w.reader.a], w.reader.a, w.owner);
  }

  lemma ReaderReaderOk(w: Client, s: Step)
    requires Ready(w, s) && !ByCaller(s)
    ensures ReaderOk(Next(w, s))
  {
    assert !w.reader.Idle? ==> AttemptOk(w.attempts[w.reader.a], w.reader.a, w.owner);
  }

  lemma AccountedKept(w: Client, s: Step)
    requires Ready(w, s) && Accounted(w)
    ensures Accounted(Next(w, s))
  {
    if ByCaller(s) {
      CallerStep(w, s);
      assert w.installed <= Next(w, s).installed;
    } else if s.ReadResult? {
      assert w.results == [w.results[0]] + w.results[1..];
    }
  }

  ghost predicate Inv(w: Client) {
    Safe(w) && Open(w)
  }

  lemma NextKeeps(w: Client, s: Step)
    requires Inv(w) && Enabled(w, s)
    ensures Inv(Next(w, s))
  {
    SafeKept(w, s);
    if Next(w, s).closing == 0 {
      if ByCaller(s) {
        CallerRoles(w, s);
        CallerPending(w, s);
        CallerReaderOk(w, s);
      } else {
        ReaderRoles(w, s);
        ReaderPending(w, s);
        ReaderReaderOk(w, s);
      }
      AccountedKept(w, s);
    }
  }

  // ---------------------------------------------------------------- main results

  ghost predicate IsRun(ws: seq<Client>, steps: seq<Step>) {
    && |ws| == |steps| + 1 && Init(ws[0])
    && forall i | 0 <= i < |steps| :: Enabled(ws[i], steps[i]) && ws[i + 1] == Next(ws[i], steps[i])
  }

  lemma {:induction false} RunKeeps(ws: seq<Client>, steps: seq<Step>, n: nat)
    requires IsRun(ws, steps) && n <= |steps|
    ensures Inv(ws[n])
  {
    if n > 0 {
      RunKeeps(ws, steps, n - 1);
      var m := n - 1;
      assert ws[m + 1] == Next(ws[m], steps[m]);
      NextKeeps(ws[m], steps[m]);
    }
  }

  /** An accepted id is never both installed and answered with an unsubscribe, even while the
      client closes. */
  lemma NeverBoth(ws: seq<Client>, steps: seq<Step>, n: nat)
    requires IsRun(ws, steps) && n <= |steps|
    ensures ws[n].installed !! ws[n].unsubscribed
    ensures ws[n].installed + ws[n].unsubscribed <= ws[n].accepted
  {
    RunKeeps(ws, steps, n);
  }

  /** Nothing is under way: the reader waits for a frame and no result is in flight. */
  predicate Quiescent(w: Client) {
    w.reader == Idle && w.results == []
  }

  /** And never neither: while the client is open, whenever the reader is between frames, the
      accepted ids are exactly the installed ones and the unsubscribed ones. */
  lemma NeverNeither(ws: seq<Client>, steps: seq<Step>, n: nat)
    requires IsRun(ws, steps) && n <= |steps| && ws[n].closing == 0 && Quiescent(ws[n])
    ensures ws[n].accepted == ws[n].installed + ws[n].unsubscribed
  {
    RunKeeps(ws, steps, n);
  }

  // ------------------------------------------------------------------- progress

  /** A step of the reader or of the pending caller that brings the handshake forward. */
  function Mover(w: Client): Step
    requires !Quiescent(w) && (!w.reader.Idle? ==> w.reader.a in w.attempts)
  {
    match w.reader
    case Idle => ReadResult
    case Found(_, _) => ReadCanceled
    case NotCanceled(_, _) => Deliver
    case Dropping(_) => FinishDrop
    case Delivered(_, a) =>
      if w.attempts[a].done then SeeDone
      else if w.attempts[a].canceled then SeeCanceled
      else match w.attempts[a].pc
        case Awaiting => Take(a)
        case Got(Accepted(_)) => Install(a)
        case Canceling => Cancel(a)
        case _ => Complete(a)
  }

  lemma MoverEnabled(w: Client)
    requires Inv(w) && w.closing == 0 && !Quiescent(w)
    ensures Enabled(w, Mover(w))
  {
    if w.reader.Delivered? {
      assert AttemptOk(w.attempts[w.reader.a], w.reader.a, w.owner);
      assert Role(w.attempts[w.reader.a], w.pending == Some(w.reader.a));
    }
  }

  /** A step of the reader, or of the caller whose result the reader has in hand. */
  predicate Works(w: Client, s: Step) {
    ByReader(s) || (ByCaller(s) && !w.reader.Idle? && s.a == w.reader.a)
  }

  /** The handshake never deadlocks: from every open state that is not quiescent, the reader or
      its caller can take a step. */
  lemma MoverMoves(w: Client)
    requires Inv(w) && w.closing == 0 && !Quiescent(w)
    ensures Enabled(w, Mover(w)) && Works(w, Mover(w))
    ensures Inv(Next(w, Mover(w))) && Next(w, Mover(w)).closing == 0
  {
    MoverEnabled(w);
    NextKeeps(w, Mover(w));
  }

  /** How many steps the caller, and the reader, still take for the frame in hand. */
  function CallerLeft(pc: Caller): nat {
    match pc
    case Awaiting => 3
    case Got(_) => 2
    case Installed(_) => 1
    case Canceling => 1
    case _ => 0
  }

  function ReaderLeft(r: Reader): nat {
    match r
    case Idle => 0
    case Dropping(_) => 1
    case Delivered(_, _) => 2
    case NotCanceled(_, _) => 3
    case Found(_, _) => 4
  }

  function FrameLeft(w: Client): nat
    requires !w.reader.Idle? ==> w.reader.a in w.attempts
  {
    if w.reader.Idle? then 0 else ReaderLeft(w.reader) + CallerLeft(w.attempts[w.reader.a].pc)
  }

  /** At most this many steps are due for the first k results and, if `hand`, the frame in hand. */
  function Debt(w: Client, k: nat, hand: bool): nat
    requires !w.reader.Idle? ==> w.reader.a in w.attempts
  {
    8 * k + if hand then FrameLeft(w) else 0
  }

  /** Each id is decided, or in the first k results or, if `hand`, in the reader's hand. */
  predicate Located(ids: set<nat>, w: Client, k: nat, hand: bool)
    requires k <= |w.results|
  {
    forall id | id in ids ::
      || id in w.installed || id in w.unsubscribed || Accepted(id) in w.results[..k]
      || (hand && (w.reader.Found? || w.reader.NotCanceled? || w.reader.Delivered?) && w.reader.reply == Accepted(id))
  }

  /** What is left to do until the ids are decided takes at most `left` steps. */
  ghost predicate Owes(ids: set<nat>, w: Client, k: nat, hand: bool, left: int) {
    && k <= |w.results| && (hand ==> !w.reader.Idle?) && (k > 0 && !w.reader.Idle? ==> hand)
    && (!w.reader.Idle? ==> w.reader.a in w.attempts)
    && Located(ids, w, k, hand)
    && (k > 0 || hand ==> Debt(w, k, hand) <= left)
  }

  /** How many of the k results are left after a step, and whether the frame in hand is one. */
  function KLeft(k: nat, s: Step): nat {
    if s.ReadResult? && k > 0 then k - 1 else k
  }

  function HandLeft(w: Client, k: nat, hand: bool, s: Step): bool
    requires Enabled(w, s)
  {
    if s.ReadResult? then k > 0 && !Next(w, s).reader.Idle? else hand && !Next(w, s).reader.Idle?
  }

  /** Callers and the world around leave the reader alone and only add results. */
  lemma ReaderStays(w: Client, s: Step)
    requires Enabled(w, s) && !ByReader(s)
    ensures var w' := Next(w, s);
            && w'.reader == w.reader && w.results <= w'.results
            && w.installed <= w'.installed && w.unsubscribed <= w'.unsubscribed
  {
  }

  lemma LocatedKept(ids: set<nat>, w: Client, s: Step, k: nat, hand: bool)
    requires Inv(w) && Enabled(w, s) && Next(w, s).closing == 0 && k <= |w.results|
    requires Located(ids, w, k, hand) && (hand ==> !w.reader.Idle?)
    ensures KLeft(k, s) <= |Next(w, s).results|
    ensures Located(ids, Next(w, s), KLeft(k, s), HandLeft(w, k, hand, s))
  {
    if s.ReadResult? {
      ReadResultLocated(ids, w, k, hand);
    } else if ByReader(s) {
      ReaderLocated(ids, w, s, k, hand);
    } else {
      ReaderStays(w, s);
      assert Next(w, s).results[..k] == w.results[..k];
    }
  }

  lemma ReadResultLocated(ids: set<nat>, w: Client, k: nat, hand: bool)
    requires Inv(w) && Enabled(w, ReadResult) && w.closing == 0 && k <= |w.results|
    requires Located(ids, w, k, hand) && !hand
    ensures Located(ids, Next(w, ReadResult), KLeft(k, ReadResult), HandLeft(w, k, hand, ReadResult))
  {
    if k > 0 { assert w.results[..k] == [w.results[0]] + Next(w, ReadResult).results[..k - 1]; }
  }

  lemma ReaderLocated(ids: set<nat>, w: Client, s: Step, k: nat, hand: bool)
    requires Inv(w) && Enabled(w, s) && w.closing == 0 && k <= |w.results| && ByReader(s) && !s.ReadResult?
    requires Located(ids, w, k, hand)
    ensures Next(w, s).results == w.results && Located(ids, Next(w, s), k, HandLeft(w, k, hand, s))
  {
    HandMoves(w, s);
  }

  /** An id in the reader's hand stays there until it is decided. */
  lemma HandMoves(w: Client, s: Step)
    requires Inv(w) && Enabled(w, s) && w.closing == 0 && ByReader(s) && !s.ReadResult?
    ensures var w' := Next(w, s);
            && w'.results == w.results && w.installed <= w'.installed && w.unsubscribed <= w'.unsubscribed
            && ((w.reader.Found? || w.reader.NotCanceled? || w.reader.Delivered?) && w.reader.reply.Accepted? ==>
                  || w.reader.reply.id in w'.installed + w'.unsubscribed
                  || ((w'.reader.NotCanceled? || w'.reader.Delivered?) && w'.reader.reply == w.reader.reply))
  {
  }

  /** A caller's step, seen from the frame in hand: only the caller it is for changes it. */
  lemma CallerFrame(w: Client, s: Step)
    requires Enabled(w, s) && ByCaller(s) && !w.reader.Idle? && w.reader.a in w.attempts
    requires !w.attempts[w.reader.a].pc.Reserved? && !Early(w.attempts[w.reader.a].pc)
    ensures Next(w, s).reader == w.reader && w.reader.a in Next(w, s).attempts
    ensures CallerLeft(Next(w, s).attempts[w.reader.a].pc) <=
              CallerLeft(w.attempts[w.reader.a].pc) - if s.a == w.reader.a then 1 else 0
  {
    ReaderStays(w, s);
    if s.a == w.reader.a { MovesOn(w, s); } else { OtherCaller(w, s, w.reader.a); }
  }

  lemma OtherCaller(w: Client, s: Step, a: nat)
    requires Enabled(w, s) && ByCaller(s) && a in w.attempts && a != s.a
    ensures a in Next(w, s).attempts && Next(w, s).attempts[a] == w.attempts[a]
  {
  }

  lemma ServedRole(w: Client)
    requires Inv(w) && w.closing == 0 && !w.reader.Idle?
    ensures w.reader.a in w.attempts
    ensures var t := w.attempts[w.reader.a]; !t.pc.Reserved? && !Early(t.pc)
  {
    assert Role(w.attempts[w.reader.a], w.pending == Some(w.reader.a));
  }

  /** The caller whose frame the reader has in hand only moves on. */
  lemma MovesOn(w: Client, s: Step)
    requires Enabled(w, s) && ByCaller(s) && s.a in w.attempts
    requires !w.attempts[s.a].pc.Reserved? && !Early(w.attempts[s.a].pc)
    ensures s.a in Next(w, s).attempts
    ensures CallerLeft(Next(w, s).attempts[s.a].pc) < CallerLeft(w.attempts[s.a].pc)
  {
  }

  lemma ReaderFrame(w: Client, s: Step)
    requires Inv(w) && Enabled(w, s) && Next(w, s).closing == 0 && ByReader(s)
    ensures !Next(w, s).reader.Idle? ==> Next(w, s).reader.a in Next(w, s).attempts
    ensures FrameLeft(Next(w, s)) + 1 <= FrameLeft(w) + if s.ReadResult? then 8 else 0
  {
  }

  lemma OthersFrame(w: Client, s: Step)
    requires Inv(w) && Enabled(w, s) && Next(w, s).closing == 0 && !ByReader(s) && !ByCaller(s)
    ensures !Next(w, s).reader.Idle? ==> Next(w, s).reader.a in Next(w, s).attempts
    ensures FrameLeft(Next(w, s)) == FrameLeft(w)
  {
  }

  /** Every step of the reader and its caller brings the end closer, and no other step puts it off. */
  lemma OwesKept(ids: set<nat>, w: Client, s: Step, k: nat, hand: bool, left: int)
    requires Inv(w) && Enabled(w, s) && Next(w, s).closing == 0 && Owes(ids, w, k, hand, left)
    ensures Owes(ids, Next(w, s), KLeft(k, s), HandLeft(w, k, hand, s), left - if Works(w, s) then 1 else 0)
  {
    LocatedKept(ids, w, s, k, hand);
    if ByReader(s) { ReaderFrame(w, s); }
    else if ByCaller(s) && !w.reader.Idle? { ServedRole(w); CallerFrame(w, s); }
    else if ByCaller(s) { ReaderStays(w, s); }
    else { ReaderStays(w, s); OthersFrame(w, s); }
  }

  /** How many steps of the reader and its caller a part of a run has. */
  ghost function Work(ws: seq<Client>, steps: seq<Step>, m: nat, n: nat): nat
    requires m <= n <= |steps| && n <= |ws|
  {
    if m == n then 0 else Work(ws, steps, m, n - 1) + if Works(ws[n - 1], steps[n - 1]) then 1 else 0
  }

  /** Ten steps are enough for everything under way in an open state. */
  lemma DebtIsSmall(w: Client)
    requires Inv(w) && w.closing == 0
    ensures Owes(w.accepted, w, |w.results|, !w.reader.Idle?, 10)
  {
    assert w.results[..|w.results|] == w.results;
    if !w.reader.Idle? { assert Role(w.attempts[w.reader.a], w.pending == Some(w.reader.a)); }
  }

  /** What is owed at state n for the ids accepted by state m. */
  ghost predicate OwesAt(ws: seq<Client>, steps: seq<Step>, m: nat, n: nat, k: nat, hand: bool)
    requires m <= n <= |steps| && n < |ws|
  {
    Owes(ws[m].accepted, ws[n], k, hand, 10 - Work(ws, steps, m, n))
  }

  lemma {:induction false} Settling(ws: seq<Client>, steps: seq<Step>, m: nat, n: nat) returns (k: nat, hand: bool)
    requires IsRun(ws, steps) && m <= n <= |steps| && ws[n].closing == 0
    ensures OwesAt(ws, steps, m, n, k, hand)
    decreases n
  {
    if m == n {
      k, hand := SettlingStart(ws, steps, m);
    } else {
      StillOpen(ws, steps, n - 1, n);
      k, hand := Settling(ws, steps, m, n - 1);
      k, hand := SettlingStep(ws, steps, m, n - 1, k, hand);
    }
  }

  lemma SettlingStart(ws: seq<Client>, steps: seq<Step>, m: nat) returns (k: nat, hand: bool)
    requires IsRun(ws, steps) && m <= |steps| && ws[m].closing == 0
    ensures OwesAt(ws, steps, m, m, k, hand)
  {
    RunKeeps(ws, steps, m);
    DebtIsSmall(ws[m]);
    k, hand := |ws[m].results|, !ws[m].reader.Idle?;
  }

  lemma SettlingStep(ws: seq<Client>, steps: seq<Step>, m: nat, i: nat, k: nat, hand: bool)
    returns (k': nat, hand': bool)
    requires IsRun(ws, steps) && m <= i < |steps| && ws[i + 1].closing == 0 && OwesAt(ws, steps, m, i, k, hand)
    ensures OwesAt(ws, steps, m, i + 1, k', hand')
  {
    RunKeeps(ws, steps, i);
    assert Enabled(ws[i], steps[i]) && ws[i + 1] == Next(ws[i], steps[i]);
    OwesKept(ws[m].accepted, ws[i], steps[i], k, hand, 10 - Work(ws, steps, m, i));
    k', hand' := KLeft(k, steps[i]), HandLeft(ws[i], k, hand, steps[i]);
  }

  /** However everything else interleaves, once the reader and the caller it serves have taken ten
      more steps, every id accepted so far is installed or unsubscribed, and not both; and until
      every such id is, one of the two can take a step. */
  lemma AcceptedIdsSettle(ws: seq<Client>, steps: seq<Step>, m: nat, n: nat)
    requires IsRun(ws, steps) && m <= n <= |steps| && ws[n].closing == 0
    ensures Work(ws, steps, m, n) >= 10 ==> ws[m].accepted <= ws[n].installed + ws[n].unsubscribed
    ensures ws[n].installed !! ws[n].unsubscribed
    ensures ws[m].accepted <= ws[n].installed + ws[n].unsubscribed ||
              exists s :: Enabled(ws[n], s) && Works(ws[n], s)
  {
    var k, hand := Settling(ws, steps, m, n);
    RunKeeps(ws, steps, n);
    if !(ws[m].accepted <= ws[n].installed + ws[n].unsubscribed) { MoverMoves(ws[n]); }
  }

  // ----------------------------------------------------------- do the maps agree?

  /** The pattern names the one live subscription. */
  predicate MapsAgree(w: Client) {
    w.subscriptions == if w.byPattern.Some? then {w.byPattern.value} else {}
  }

  /** An install while the pattern still names another subscription. */
  predicate Overwrites(w: Client, s: Step) {
    s.Install? && w.byPattern.Some?
  }

  /** An id in hand was never installed before. */
  lemma GotIsNew(w: Client, a: nat)
    requires Safe(w) && a in w.attempts && w.attempts[a].pc.Got? && w.attempts[a].pc.reply.Accepted?
    ensures w.attempts[a].pc.reply.id !in w.installed
  {
    assert AttemptOk(w.attempts[a], a, w.owner);
  }

  /** One step of an open client breaks the agreement exactly when it installs over an occupied
      pattern. */
  lemma StepSplitsIff(w: Client, s: Step)
    requires Safe(w) && w.closing == 0 && Enabled(w, s) && MapsAgree(w) && w.subscriptions <= w.installed
    ensures !MapsAgree(Next(w, s)) <==> Overwrites(w, s)
  {
    if s.Install? { GotIsNew(w, s.a); }
  }

  lemma LiveWereInstalled(w: Client, s: Step)
    requires Enabled(w, s) && w.subscriptions <= w.installed
    ensures Next(w, s).subscriptions <= Next(w, s).installed
  {
  }

  lemma {:induction false} RunLiveWereInstalled(ws: seq<Client>, steps: seq<Step>, n: nat)
    requires IsRun(ws, steps) && n <= |steps|
    ensures ws[n].subscriptions <= ws[n].installed
  {
    if n > 0 {
      var m := n - 1;
      RunLiveWereInstalled(ws, steps, m);
      assert Enabled(ws[m], steps[m]) && ws[m + 1] == Next(ws[m], steps[m]);
      LiveWereInstalled(ws[m], steps[m]);
    }
  }

  lemma {:induction false} StillOpen(ws: seq<Client>, steps: seq<Step>, m: nat, n: nat)
    requires IsRun(ws, steps) && m <= n <= |steps| && ws[n].closing == 0
    ensures ws[m].closing == 0
    decreases n
  {
    if m < n {
      var k := n - 1;
      assert Enabled(ws[k], steps[k]) && ws[k + 1] == Next(ws[k], steps[k]);
      ClosingGrows(ws[k], steps[k]);
      StillOpen(ws, steps, m, k);
    }
  }

  lemma {:induction false} RunStepSplitsIff(ws: seq<Client>, steps: seq<Step>, k: nat)
    requires IsRun(ws, steps) && k < |steps| && ws[k].closing == 0 && MapsAgree(ws[k])
    ensures !MapsAgree(ws[k + 1]) <==> Overwrites(ws[k], steps[k])
  {
    RunKeeps(ws, steps, k);
    RunLiveWereInstalled(ws, steps, k);
    assert Enabled(ws[k], steps[k]) && ws[k + 1] == Next(ws[k], steps[k]);
    StepSplitsIff(ws[k], steps[k]);
  }

  ghost predicate AgreesThrough(ws: seq<Client>, n: nat)
    requires n < |ws|
  {
    forall i | 0 <= i <= n :: MapsAgree(ws[i])
  }

  ghost predicate NoOverwrite(ws: seq<Client>, steps: seq<Step>, n: nat)
    requires n <= |steps| && n <= |ws|
  {
    forall i | 0 <= i < n :: !Overwrites(ws[i], steps[i])
  }

  /** The maps agree at every moment of a run of an open client, if and only if no step of the
      run installs over an occupied pattern. */
  lemma {:induction false} MapsAgreeIff(ws: seq<Client>, steps: seq<Step>, n: nat)
    requires IsRun(ws, steps) && n <= |steps| && ws[n].closing == 0
    ensures AgreesThrough(ws, n) <==> NoOverwrite(ws, steps, n)
  {
    if n > 0 {
      var k := n - 1;
      StillOpen(ws, steps, k, n);
      MapsAgreeIff(ws, steps, k);
      if AgreesThrough(ws, k) { RunStepSplitsIff(ws, steps, k); }
    }
  }

  // ------------------------------------------------------------ stale reservations

  /** The check for an active subscription and the reservation are two critical sections; this
      reservation was overtaken by an install. */
  predicate StaleReserve(w: Client, s: Step) {
    s.Reserve? && w.pending.None? && w.byPattern.Some?
  }

  /** The pattern is free while an attempt is pending that has not installed its id. */
  predicate ReservedFree(w: Client) {
    w.pending.Some? && w.pending.value in w.attempts && !w.attempts[w.pending.value].pc.Installed? ==> w.byPattern.None?
  }

  /** What keeps an attempt pending while the pattern is occupied: it was so before the step, or
      the step is a stale reservation. */
  predicate Traced(w: Client, s: Step, w': Client) {
    ReservedFree(w') || (!ReservedFree(w) && w'.pending == w.pending) || (StaleReserve(w, s) && w'.pending == Some(s.a))
  }

  lemma CallerTraced(w: Client, s: Step)
    requires Roles(w) && Enabled(w, s) && ByCaller(s)
    requires w.pending.Some? ==> w.pending.value in w.attempts
    ensures Traced(w, s, Next(w, s))
  {
    assert s.a in w.attempts ==> Role(w.attempts[s.a], w.pending == Some(s.a));
  }

  lemma OthersTraced(w: Client, s: Step)
    requires Enabled(w, s) && !ByCaller(s) && Next(w, s).closing == 0
    requires w.pending.Some? ==> w.pending.value in w.attempts
    ensures Traced(w, s, Next(w, s))
  {
  }

  /** The reservation of the pending attempt, when the pattern is occupied, was stale. */
  lemma {:induction false} TakenWasStale(ws: seq<Client>, steps: seq<Step>, n: nat) returns (j: nat)
    requires IsRun(ws, steps) && n <= |steps| && ws[n].closing == 0 && !ReservedFree(ws[n])
    ensures j < n && steps[j] == Reserve(ws[n].pending.value) && StaleReserve(ws[j], steps[j])
  {
    j := n - 1;
    StillOpen(ws, steps, j, n);
    RunKeeps(ws, steps, j);
    assert Enabled(ws[j], steps[j]) && ws[j + 1] == Next(ws[j], steps[j]);
    if ByCaller(steps[j]) { CallerTraced(ws[j], steps[j]); } else { OthersTraced(ws[j], steps[j]); }
    if !(StaleReserve(ws[j], steps[j]) && ws[n].pending == Some(steps[j].a)) { j := TakenWasStale(ws, steps, j); }
  }

  /** The steps by which a caller comes to be clear, and by which the pattern becomes occupied. */
  lemma ClearStep(w: Client, s: Step, a: nat)
    requires Enabled(w, s) && At(Next(w, s), a, Clear)
    ensures At(w, a, Clear) || (s == CheckActive(a) && w.byPattern.None?)
  {
  }

  lemma OccupiedStep(w: Client, s: Step)
    requires Enabled(w, s) && Next(w, s).byPattern.Some?
    ensures w.byPattern.Some? || s.Install?
  {
  }

  /** A caller that is clear looked while the pattern was free, and has done nothing since. */
  lemma {:induction false} ClearSince(ws: seq<Client>, steps: seq<Step>, n: nat, a: nat) returns (c: nat)
    requires IsRun(ws, steps) && n <= |steps| && At(ws[n], a, Clear)
    ensures c < n && steps[c] == CheckActive(a) && ws[c].byPattern.None?
    ensures forall m | c < m <= n :: At(ws[m], a, Clear)
  {
    var k := n - 1;
    assert Enabled(ws[k], steps[k]) && ws[k + 1] == Next(ws[k], steps[k]);
    ClearStep(ws[k], steps[k], a);
    if steps[k] == CheckActive(a) && ws[k].byPattern.None? { c := k; } else { c := ClearSince(ws, steps, k, a); }
  }

  /** A pattern that was free and is occupied was installed in between. */
  lemma {:induction false} OccupiedSince(ws: seq<Client>, steps: seq<Step>, c: nat, n: nat) returns (i: nat)
    requires IsRun(ws, steps) && c <= n <= |steps| && ws[c].byPattern.None? && ws[n].byPattern.Some?
    ensures c <= i < n && steps[i].Install?
    decreases n
  {
    i := n - 1;
    assert Enabled(ws[i], steps[i]) && ws[i + 1] == Next(ws[i], steps[i]);
    OccupiedStep(ws[i], steps[i]);
    if !steps[i].Install? { i := OccupiedSince(ws, steps, c, i); }
  }

  /** So every install over an occupied pattern ends such a race: its caller looked at look while the
      pattern was free, another caller installed at install, and then the first one reserved at
      reserve.  The gap between check and reservation is the only cause. */
  lemma {:induction false} OverwriteWasStale(ws: seq<Client>, steps: seq<Step>, k: nat)
    returns (look: nat, install: nat, reserve: nat)
    requires IsRun(ws, steps) && k < |steps| && ws[k].closing == 0 && Overwrites(ws[k], steps[k])
    ensures look < install < reserve < k
    ensures steps[look] == CheckActive(steps[k].a) && ws[look].byPattern.None?
    ensures steps[install].Install? && steps[install].a != steps[k].a
    ensures steps[reserve] == Reserve(steps[k].a) && StaleReserve(ws[reserve], steps[reserve])
  {
    var a := steps[k].a;
    RunKeeps(ws, steps, k);
    assert Enabled(ws[k], steps[k]);
    assert Role(ws[k].attempts[a], ws[k].pending == Some(a));
    reserve := TakenWasStale(ws, steps, k);
    assert Enabled(ws[reserve], steps[reserve]);
    look := ClearSince(ws, steps, reserve, a);
    install := OccupiedSince(ws, steps, look, reserve);
    assert Enabled(ws[install], steps[install]);
  }

  /** A caller that has returned takes no further step. */
  lemma ReturnedStays(w: Client, s: Step, a: nat)
    requires Enabled(w, s) && At(w, a, Returned)
    ensures At(Next(w, s), a, Returned) && !(ByCaller(s) && s.a == a)
  {
  }

  /** Subscribing to a pattern that is already subscribed is refused: a caller that looks while the
      pattern is occupied has returned in every later state, and never reserves, sends or installs. */
  lemma {:induction false} OccupiedLookReturns(ws: seq<Client>, steps: seq<Step>, k: nat, n: nat, a: nat)
    requires IsRun(ws, steps) && k < n <= |steps| && steps[k] == CheckActive(a) && ws[k].byPattern.Some?
    ensures At(ws[n], a, Returned)
    ensures forall i | k < i < n :: !(ByCaller(steps[i]) && steps[i].a == a)
    decreases n
  {
    var m := n - 1;
    assert Enabled(ws[m], steps[m]) && ws[m + 1] == Next(ws[m], steps[m]);
    if k < m {
      OccupiedLookReturns(ws, steps, k, m, a);
      ReturnedStays(ws[m], steps[m], a);
    }
  }

  /** Unsubscribing frees the pattern: while the maps agree, the pattern and the subscription are gone,
      and a caller that looks then is not refused. */
  lemma UnsubscribeFrees(ws: seq<Client>, steps: seq<Step>, n: nat)
    requires IsRun(ws, steps) && n < |steps| && steps[n] == UserUnsubscribe && MapsAgree(ws[n])
    ensures ws[n + 1].byPattern == None && ws[n + 1].subscriptions == {}
    ensures forall a | At(ws[n + 1], a, Checking) :: At(Next(ws[n + 1], CheckActive(a)), a, Clear)
  {
    assert Enabled(ws[n], steps[n]) && ws[n + 1] == Next(ws[n], steps[n]);
  }

  /** Closing empties both maps. */
  lemma CloseClears(ws: seq<Client>, steps: seq<Step>, n: nat)
    requires IsRun(ws, steps) && n < |steps| && steps[n] == ClearMaps
    ensures ws[n + 1].byPattern == None && ws[n + 1].subscriptions == {}
  {
    assert Enabled(ws[n], steps[n]) && ws[n + 1] == Next(ws[n], steps[n]);
  }

  /** A caller reserves when no attempt is pending, and otherwise waits for the pending one. */
  lemma ReservesOrWaits(ws: seq<Client>, steps: seq<Step>, n: nat, a: nat)
    requires IsRun(ws, steps) && n < |steps| && steps[n] == Reserve(a)
    ensures ws[n].pending.None? ==> At(ws[n + 1], a, Reserved) && ws[n + 1].pending == Some(a)
    ensures ws[n].pending.Some? ==>
              At(ws[n + 1], a, WaitingFor(ws[n].pending.value)) && ws[n + 1].pending == ws[n].pending
  {
    assert Enabled(ws[n], steps[n]) && ws[n + 1] == Next(ws[n], steps[n]);
  }

  /** A caller that stops waiting returns, and a closing client stays closed. */
  lemma EndsStay(ws: seq<Client>, steps: seq<Step>, n: nat, a: nat)
    requires IsRun(ws, steps) && n < |steps|
    ensures steps[n] == GiveUpWaiting(a) ==> At(ws[n + 1], a, Returned)
    ensures steps[n] == CloseDone ==> ws[n + 1].closing > 0
    ensures ws[n].closing > 0 ==> ws[n + 1].closing > 0
  {
    assert Enabled(ws[n], steps[n]) && ws[n + 1] == Next(ws[n], steps[n]);
  }

  // ------------------------------------------------------------------- waiting

  /** A caller waits only for an attempt that is pending or done. */
  predicate Waits(attempts: map<nat, Attempt>, pending: Option<nat>) {
    && (pending.Some? ==> pending.value in attempts)
    && forall a | a in attempts && attempts[a].pc.WaitingFor? ::
         attempts[a].pc.prev in attempts && (attempts[attempts[a].pc.prev].done || pending == Some(attempts[a].pc.prev))
  }

  lemma AttemptWaits(
    ts: map<nat, Attempt>, pending: Option<nat>, a: nat, t: Attempt, pending': Option<nat>)
    requires Waits(ts, pending) && (pending'.Some? ==> pending'.value in ts || pending'.value == a)
    requires a in ts && ts[a].done ==> t.done
    requires t.pc.WaitingFor? ==> (a in ts && t.pc == ts[a].pc) || pending == Some(t.pc.prev)
    requires pending' == pending || (pending == Some(a) && t.done) || pending == None
    ensures Waits(ts[a := t], pending')
  {
  }

  lemma CallerWaits(w: Client, s: Step)
    requires Waits(w.attempts, w.pending) && Enabled(w, s) && ByCaller(s)
    ensures Waits(Next(w, s).attempts, Next(w, s).pending)
  {
    var w' := Next(w, s);
    assert w'.attempts == w.attempts[s.a := w'.attempts[s.a]];
    AttemptWaits(w.attempts, w.pending, s.a, w'.attempts[s.a], w'.pending);
  }

  lemma OthersWait(w: Client, s: Step)
    requires Waits(w.attempts, w.pending) && Enabled(w, s) && !ByCaller(s)
    ensures Waits(Next(w, s).attempts, Next(w, s).pending)
  {
    var w' := Next(w, s);
    if s.Deliver? || s.FinishDrop? {
      AttemptWaits(w.attempts, w.pending, w.reader.a, w'.attempts[w.reader.a], w'.pending);
      assert w'.attempts == w.attempts[w.reader.a := w'.attempts[w.reader.a]];
    } else if s.ClearPending? && w.pending.Some? {
      var a := w.pending.value;
      AttemptWaits(w.attempts, w.pending, a, w'.attempts[a], w'.pending);
    }
  }

  /** No caller waits for nothing: in every state of every run the attempt it waits for is pending, or
      done, and then the caller can look again, and go on if the pattern is free. */
  lemma {:induction false} WaiterGoesOn(ws: seq<Client>, steps: seq<Step>, n: nat, a: nat, prev: nat)
    requires IsRun(ws, steps) && n <= |steps| && At(ws[n], a, WaitingFor(prev))
    ensures prev in ws[n].attempts && (ws[n].attempts[prev].done || ws[n].pending == Some(prev))
    ensures ws[n].attempts[prev].done ==>
              && Enabled(ws[n], PreviousDone(a))
              && var w := Next(ws[n], PreviousDone(a));
                 && Enabled(w, CheckActive(a))
                 && (w.byPattern.None? ==> Enabled(Next(w, CheckActive(a)), Reserve(a)))
  {
    RunWaits(ws, steps, n);
  }

  lemma {:induction false} RunWaits(ws: seq<Client>, steps: seq<Step>, n: nat)
    requires IsRun(ws, steps) && n <= |steps|
    ensures Waits(ws[n].attempts, ws[n].pending)
  {
    if n > 0 {
      var m := n - 1;
      RunWaits(ws, steps, m);
      assert Enabled(ws[m], steps[m]) && ws[m + 1] == Next(ws[m], steps[m]);
      if ByCaller(steps[m]) { CallerWaits(ws[m], steps[m]); } else { OthersWait(ws[m], steps[m]); }
    }
  }

  // ------------------------------------------------------------- maps that agree

  /** Unless a reservation is stale, the two maps agree in every state of an open client. */
  lemma {:induction false} MapsAgreeUnlessStale(ws: seq<Client>, steps: seq<Step>, n: nat)
    requires IsRun(ws, steps) && n <= |steps| && ws[n].closing == 0
    requires forall i | 0 <= i < n :: !StaleReserve(ws[i], steps[i])
    ensures AgreesThrough(ws, n)
  {
    forall k | 0 <= k < n ensures !Overwrites(ws[k], steps[k]) {
      if Overwrites(ws[k], steps[k]) {
        StillOpen(ws, steps, k, n);
        var look, install, reserve := OverwriteWasStale(ws, steps, k);
      }
    }
    MapsAgreeIff(ws, steps, n);
  }

  lemma ClosingGrows(w: Client, s: Step)
    requires Enabled(w, s)
    ensures w.closing <= Next(w, s).closing
  {
  }

  /** The run of these steps, when each is enabled. */
  function Replayed(w: Client, steps: seq<Step>): Option<Client>
    decreases |steps|
  {
    if steps == [] then Some(w)
    else if Enabled(w, steps[0]) then Replayed(Next(w, steps[0]), steps[1..])
    else None
  }

  lemma {:induction false} ReplayedAppend(w: Client, xs: seq<Step>, ys: seq<Step>)
    requires Replayed(w, xs).Some?
    ensures Replayed(w, xs + ys) == Replayed(Replayed(w, xs).value, ys)
    decreases |xs|
  {
    if xs == [] {
      assert xs + ys == ys;
    } else {
      assert (xs + ys)[1..] == xs[1..] + ys;
      ReplayedAppend(Next(w, xs[0]), xs[1..], ys);
    }
  }

  lemma ReplayedThrice(w: Client, xs: seq<Step>, u: Client, ys: seq<Step>, v: Client, zs: seq<Step>)
    requires Replayed(w, xs) == Some(u) && Replayed(u, ys) == Some(v)
    ensures Replayed(w, xs + ys + zs) == Replayed(v, zs)
  {
    ReplayedAppend(w, xs, ys);
    ReplayedAppend(w, xs + ys, zs);
  }

  lemma ReplayedStep(w: Client, s: Step, rest: seq<Step>)
    requires Enabled(w, s)
    ensures Replayed(w, [s] + rest) == Replayed(Next(w, s), rest)
  {
    assert ([s] + rest)[1..] == rest;
  }

  /** Subscribe from its reservation to its return, with no interference. */
  function Subscribing(a: nat, id: nat): seq<Step> {
    Requesting(a, id) + Finishing(a)
  }

  function Requesting(a: nat, id: nat): seq<Step> {
    [Reserve(a)] + ([Send(a, true, true)] + ([Answer(Accepted(id))] + ([ReadResult] + ([ReadCanceled] + []))))
  }

  function Finishing(a: nat): seq<Step> {
    [Deliver] + ([Take(a)] + ([Install(a)] + ([Complete(a)] + ([SeeDone] + []))))
  }

  predicate AtRest(w: Client) {
    Quiescent(w) && w.pending.None? && w.requests == 0 && w.closing == 0
  }

  /** The reader holds the accepted id of caller a. */
  function Halfway(w: Client, a: nat, id: nat): Client {
    w.(attempts := w.attempts[a := Attempt(Awaiting, None, false, false)], pending := Some(a),
       accepted := w.accepted + {id}, reader := NotCanceled(Accepted(id), a))
  }

  /** The server has accepted the request of caller a. */
  function Answered(w: Client, a: nat, id: nat): Client {
    w.(attempts := w.attempts[a := Attempt(Awaiting, None, false, false)], pending := Some(a),
       accepted := w.accepted + {id}, results := [Accepted(id)])
  }

  lemma SendReaches(w: Client, a: nat, id: nat, rest: seq<Step>)
    requires AtRest(w) && At(w, a, Clear) && w.attempts[a] == Attempt(Clear, None, false, false) && id !in w.accepted
    ensures Replayed(w, [Reserve(a)] + ([Send(a, true, true)] + ([Answer(Accepted(id))] + rest))) ==
            Replayed(Answered(w, a, id), rest)
  {
    var w1 := Next(w, Reserve(a));
    var w2 := Next(w1, Send(a, true, true));
    ReplayedStep(w, Reserve(a), [Send(a, true, true)] + ([Answer(Accepted(id))] + rest));
    ReplayedStep(w1, Send(a, true, true), [Answer(Accepted(id))] + rest);
    ReplayedStep(w2, Answer(Accepted(id)), rest);
    assert Next(w2, Answer(Accepted(id))) == Answered(w, a, id);
  }

  lemma RequestReaches(w: Client, a: nat, id: nat)
    requires AtRest(w) && At(w, a, Clear) && w.attempts[a] == Attempt(Clear, None, false, false) && id !in w.accepted
    ensures Replayed(w, Requesting(a, id)) == Some(Halfway(w, a, id))
  {
    var w3 := Answered(w, a, id);
    var w4 := Next(w3, ReadResult);
    SendReaches(w, a, id, [ReadResult] + ([ReadCanceled] + []));
    ReplayedStep(w3, ReadResult, [ReadCanceled] + []);
    ReplayedStep(w4, ReadCanceled, []);
    assert Next(w4, ReadCanceled) == Halfway(w, a, id);
  }

  /** The id is in both maps and the caller has returned. */
  function Finished(w: Client, a: nat, id: nat): Client {
    w.(attempts := w.attempts[a := Attempt(Returned, None, true, false)], accepted := w.accepted + {id},
       subscriptions := w.subscriptions + {id}, byPattern := Some(id), installed := w.installed + {id},
       owner := w.owner[id := a])
  }

  /** Caller a has taken the id off its channel. */
  function Taken(w: Client, a: nat, id: nat): Client {
    w.(attempts := w.attempts[a := Attempt(Got(Accepted(id)), None, false, false)], pending := Some(a),
       accepted := w.accepted + {id}, owner := w.owner[id := a],
       reader := Reader.Delivered(Accepted(id), a))
  }

  lemma TakeReaches(w: Client, a: nat, id: nat, rest: seq<Step>)
    requires AtRest(w)
    ensures Replayed(Halfway(w, a, id), [Deliver] + ([Take(a)] + rest)) == Replayed(Taken(w, a, id), rest)
  {
    var w0 := Halfway(w, a, id);
    var w1 := Next(w0, Deliver);
    ReplayedStep(w0, Deliver, [Take(a)] + rest);
    ReplayedStep(w1, Take(a), rest);
    assert Next(w1, Take(a)) == Taken(w, a, id);
  }

  lemma ReplyReaches(w: Client, a: nat, id: nat)
    requires AtRest(w)
    ensures Replayed(Halfway(w, a, id), Finishing(a)) == Some(Finished(w, a, id))
  {
    var w2 := Taken(w, a, id);
    var w3 := Next(w2, Install(a));
    var w4 := Next(w3, Complete(a));
    TakeReaches(w, a, id, [Install(a)] + ([Complete(a)] + ([SeeDone] + [])));
    ReplayedStep(w2, Install(a), [Complete(a)] + ([SeeDone] + []));
    ReplayedStep(w3, Complete(a), [SeeDone] + []);
    ReplayedStep(w4, SeeDone, []);
    assert Next(w4, SeeDone) == Finished(w, a, id);
  }

  lemma SubscribeInstalls(w: Client, a: nat, id: nat)
    requires AtRest(w) && At(w, a, Clear) && w.attempts[a] == Attempt(Clear, None, false, false) && id !in w.accepted
    ensures Replayed(w, Subscribing(a, id)) == Some(Finished(w, a, id))
  {
    RequestReaches(w, a, id);
    ReplyReaches(w, a, id);
    ReplayedAppend(w, Requesting(a, id), Finishing(a));
  }

  /** A stale reservation that runs on undisturbed ends in such an install, and leaves an old
      subscription no pattern names. */
  lemma StaleReserveSplitsMaps(w: Client, a: nat, id: nat)
    requires AtRest(w) && MapsAgree(w) && w.byPattern.Some? && w.subscriptions <= w.accepted
    requires a in w.attempts && w.attempts[a] == Attempt(Clear, None, false, false) && id !in w.accepted
    ensures StaleReserve(w, Reserve(a))
    ensures var e := Replayed(w, Subscribing(a, id));
            e.Some? && !MapsAgree(e.value) && e.value.subscriptions == {w.byPattern.value, id}
  {
    SubscribeInstalls(w, a, id);
  }

  function Start(): Client {
    Client(map[], None, {}, None, Idle, 0, [], 0, {}, {}, {}, map[])
  }

  /** Two callers, 0 and 1, that both looked before either reserved. */
  function BothLooked(): Client {
    var clear := Attempt(Clear, None, false, false);
    Start().(attempts := map[0 := clear, 1 := clear])
  }

  function Looks(): seq<Step> {
    [Begin(0)] + ([Begin(1)] + ([CheckActive(0)] + ([CheckActive(1)] + [])))
  }

  lemma LooksReach()
    ensures Replayed(Start(), Looks()) == Some(BothLooked())
  {
    var w1 := Next(Start(), Begin(0));
    var w2 := Next(w1, Begin(1));
    var w3 := Next(w2, CheckActive(0));
    ReplayedStep(Start(), Begin(0), [Begin(1)] + ([CheckActive(0)] + ([CheckActive(1)] + [])));
    ReplayedStep(w1, Begin(1), [CheckActive(0)] + ([CheckActive(1)] + []));
    ReplayedStep(w2, CheckActive(0), [CheckActive(1)] + []);
    ReplayedStep(w3, CheckActive(1), []);
    assert Next(w3, CheckActive(1)) == BothLooked();
  }

  lemma SecondCallerIsStale()
    ensures Replayed(BothLooked(), Subscribing(0, 10)) == Some(Finished(BothLooked(), 0, 10))
    ensures var e := Replayed(Finished(BothLooked(), 0, 10), Subscribing(1, 11)); e.Some? && !MapsAgree(e.value)
  {
    SubscribeInstalls(BothLooked(), 0, 10);
    StaleReserveSplitsMaps(Finished(BothLooked(), 0, 10), 1, 11);
  }

  ghost predicate CanSplit(w: Client) {
    exists steps :: Replayed(w, steps).Some? && !MapsAgree(Replayed(w, steps).value)
  }

  lemma SplitAfter(w: Client, xs: seq<Step>, u: Client, ys: seq<Step>, v: Client, zs: seq<Step>)
    requires Replayed(w, xs) == Some(u) && Replayed(u, ys) == Some(v)
    requires Replayed(v, zs).Some? && !MapsAgree(Replayed(v, zs).value)
    ensures CanSplit(w)
  {
    ReplayedThrice(w, xs, u, ys, v, zs);
  }

  /** It happens: the two callers above both subscribe, and the first id loses its pattern. */
  lemma TwoCallersSplitMaps()
    ensures Init(Start()) && CanSplit(Start())
  {
    LooksReach();
    SecondCallerIsStale();
    SplitAfter(Start(), Looks(), BothLooked(), Subscribing(0, 10), Finished(BothLooked(), 0, 10), Subscribing(1, 11));
  }
}
