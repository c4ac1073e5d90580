/** The notification dispatcher: every call appends one record to the owner's
    notification log, and then hands a message to the push channel only when
    the owner has a device token. */
module Dispatch {
  import opened Types

  /** One record written to the log of owner `uid`. */
  datatype Logged = Logged(uid: string, record: Notification)

  /** What the dispatcher writes: every log record in the order written, and
      the messages handed to the push channel, oldest first. */
  datatype Mail = Mail(log: seq<Logged>, outbox: seq<Push>)

  /** Which step of one dispatch raised; every error is caught and ends the call. */
  datatype DispatchFault = NoFault | LogWriteFails | TokenReadFails | DeliveryFails

  /** `/users/<uid>/notifications`: the owner's records in the order written. */
  function LogOf(log: seq<Logged>, uid: string): seq<Notification>
    decreases |log|
  {
    if log == [] then []
    else LogOf(log[..|log| - 1], uid) + (if log[|log| - 1].uid == uid then [log[|log| - 1].record] else [])
  }

  /** The owner's view of a log written in two parts is the two views one after the other. */
  lemma {:induction false} LogOfAppend(a: seq<Logged>, b: seq<Logged>, uid: string)
    ensures LogOf(a + b, uid) == LogOf(a, uid) + LogOf(b, uid)
    decreases |b|
  {
    if b == [] {
      assert a + b == a;
    } else {
      var n := |b| - 1;
      assert (a + b)[..|a + b| - 1] == a + b[..n];
      assert (a + b)[|a + b| - 1] == b[n];
      LogOfAppend(a, b[..n], uid);
    }
  }

  /** The owner's device token when it is present and non-empty (a falsy token skips delivery). */
  function TokenOf(tokens: map<string, string>, uid: string): Option<string>
  {
    if uid in tokens && tokens[uid] != "" then Some(tokens[uid]) else None
  }

  /** `type || "alert"`. */
  function TypeOrAlert(kind: Option<string>): string
  {
    match kind
    case Some(k) => if k != "" then k else "alert"
    case None => "alert"
  }

  /** `petId || ""` in the push payload. */
  function PetIdOrEmpty(petId: Option<string>): string
  {
    match petId
    case Some(p) => p
    case None => ""
  }

  /** The log record of one request at time `now`. */
  function Record(q: Request, now: int): Notification
  {
    Notification(q.title, q.body, now, TypeOrAlert(q.kind), q.petId, "server")
  }

  /** The push message of one request for device `token` at time `now`. */
  function PushOf(q: Request, token: string, now: int): Push
  {
    Push(token, q.title, q.body, TypeOrAlert(q.kind), PetIdOrEmpty(q.petId), now)
  }

  /** The effect of one dispatch at time `now` with the given failing step:
      step 1 writes the record, steps 2 and 3 look the token up and hand the
      message over. */
  function Send(m: Mail, tokens: map<string, string>, q: Request, now: int, fault: DispatchFault): Mail
  {
    Mail(m.log + Written(q, now, fault), m.outbox + Delivery(tokens, q, now, fault))
  }

  /** What step 1 of one dispatch appends to the log. */
  function Written(q: Request, now: int, fault: DispatchFault): seq<Logged>
  {
    if fault == LogWriteFails then [] else [Logged(q.uid, Record(q, now))]
  }

  /** What steps 2 and 3 of one dispatch hand to the push channel. */
  function Delivery(tokens: map<string, string>, q: Request, now: int, fault: DispatchFault): seq<Push>
  {
    if fault == NoFault && TokenOf(tokens, q.uid).Some? then [PushOf(q, tokens[q.uid], now)] else []
  }

  /** What one dispatch guarantees. The requester's log gains exactly one
      record unless writing it failed, and no other owner's log changes; the
      record is stamped `now`, comes from the server and has type
      `type || "alert"`. A message is handed over exactly when no step failed
      and the owner has a non-empty token, and then it goes to that token. */
  lemma SendEffect(m: Mail, tokens: map<string, string>, q: Request, now: int, fault: DispatchFault, u: string)
    ensures LogOf(Send(m, tokens, q, now, fault).log, u) ==
            LogOf(m.log, u) + (if u == q.uid && fault != LogWriteFails then [Record(q, now)] else [])
    ensures var n := Record(q, now);
            n.source == "server" && n.timestamp == now && n.title == q.title && n.message == q.body &&
            n.petId == q.petId && n.kind == (if q.kind.Some? && q.kind.value != "" then q.kind.value else "alert")
    ensures var out := Send(m, tokens, q, now, fault).outbox;
            if fault == NoFault && q.uid in tokens && tokens[q.uid] != ""
            then out == m.outbox + [PushOf(q, tokens[q.uid], now)] && out[|m.outbox|].token == tokens[q.uid]
            else out == m.outbox
  {
    LogOfAppend(m.log, Written(q, now, fault), u);
    if fault != LogWriteFails {
      assert Written(q, now, fault)[..0] == [];
    }
  }

  /** Nothing is handed to the push channel without being logged first: a
      dispatch that delivers has also grown the requester's log by one. */
  lemma DeliveredOnlyIfLogged(m: Mail, tokens: map<string, string>, q: Request, now: int, fault: DispatchFault)
    requires |Send(m, tokens, q, now, fault).outbox| > |m.outbox|
    ensures |LogOf(Send(m, tokens, q, now, fault).log, q.uid)| == |LogOf(m.log, q.uid)| + 1
  {
    SendEffect(m, tokens, q, now, fault, q.uid);
  }

  /** Dispatches made one after another, none of them failing. */
  function SendAll(m: Mail, tokens: map<string, string>, qs: seq<Request>, now: int): Mail
    decreases |qs|
  {
    if qs == [] then m else SendAll(Send(m, tokens, qs[0], now, NoFault), tokens, qs[1..], now)
  }

  /** The log entries a batch of requests writes, in order. */
  function Entries(qs: seq<Request>, now: int): seq<Logged>
    decreases |qs|
  {
    if qs == [] then [] else Written(qs[0], now, NoFault) + Entries(qs[1..], now)
  }

  /** The messages a batch of requests hands to the push channel, in order. */
  function PushesFor(qs: seq<Request>, tokens: map<string, string>, now: int): seq<Push>
    decreases |qs|
  {
    if qs == [] then []
    else Delivery(tokens, qs[0], now, NoFault) + PushesFor(qs[1..], tokens, now)
  }

  /** Running two batches one after the other is running their concatenation. */
  lemma {:induction false} SendAllConcat(m: Mail, tokens: map<string, string>, a: seq<Request>, b: seq<Request>, now: int)
    ensures SendAll(m, tokens, a + b, now) == SendAll(SendAll(m, tokens, a, now), tokens, b, now)
    decreases |a|
  {
    if a != [] {
      assert (a + b)[0] == a[0];
      assert (a + b)[1..] == a[1..] + b;
      SendAllConcat(Send(m, tokens, a[0], now, NoFault), tokens, a[1..], b, now);
    } else {
      assert a + b == b;
    }
  }

  /** Three batches one after another are their concatenation. */
  lemma SendAllThree(m: Mail, tokens: map<string, string>, a: seq<Request>, b: seq<Request>, c: seq<Request>, now: int)
    ensures SendAll(m, tokens, a + b + c, now) == SendAll(SendAll(SendAll(m, tokens, a, now), tokens, b, now), tokens, c, now)
  {
    SendAllConcat(m, tokens, a, b, now);
    SendAllConcat(m, tokens, a + b, c, now);
  }

  /** A batch appends one log record per request, in order. */
  lemma {:induction false} SendAllLog(m: Mail, tokens: map<string, string>, qs: seq<Request>, now: int)
    ensures SendAll(m, tokens, qs, now).log == m.log + Entries(qs, now)
    decreases |qs|
  {
    if qs != [] {
      var m1 := Send(m, tokens, qs[0], now, NoFault);
      var head := Written(qs[0], now, NoFault);
      var rest := Entries(qs[1..], now);
      assert SendAll(m, tokens, qs, now) == SendAll(m1, tokens, qs[1..], now);
      assert m1.log == m.log + head;
      SendAllLog(m1, tokens, qs[1..], now);
      assert (m.log + head) + rest == m.log + (head + rest);
    }
  }

  /** A batch hands to the push channel one message per request whose owner
      has a token, in order. */
  lemma {:induction false} SendAllOutbox(m: Mail, tokens: map<string, string>, qs: seq<Request>, now: int)
    ensures SendAll(m, tokens, qs, now).outbox == m.outbox + PushesFor(qs, tokens, now)
    decreases |qs|
  {
    if qs != [] {
      var m1 := Send(m, tokens, qs[0], now, NoFault);
      var head := Delivery(tokens, qs[0], now, NoFault);
      var rest := PushesFor(qs[1..], tokens, now);
      assert SendAll(m, tokens, qs, now) == SendAll(m1, tokens, qs[1..], now);
      assert m1.outbox == m.outbox + head;
      SendAllOutbox(m1, tokens, qs[1..], now);
      assert (m.outbox + head) + rest == m.outbox + (head + rest);
    }
  }

  /** Each owner's log gains, in order, the records of the batch's requests
      addressed to that owner, and no owner's earlier records change. */
  lemma SendAllOwnerLog(m: Mail, tokens: map<string, string>, qs: seq<Request>, now: int, u: string)
    ensures LogOf(SendAll(m, tokens, qs, now).log, u) == LogOf(m.log, u) + LogOf(Entries(qs, now), u)
  {
    SendAllLog(m, tokens, qs, now);
    LogOfAppend(m.log, Entries(qs, now), u);
  }
}
