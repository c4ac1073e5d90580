/** The cooldown gate over the `last_alerts` timestamps: a send of one alert
    kind for one pet is permitted at most once per cooldown window, and a
    reset clears the window. */
module Cooldown {
  import opened Types

  /** `NOTIFICATION_COOLDOWN_MS`: one minute. */
  const COOLDOWN_MS: int := 1 * 60 * 1000

  /** The outcome of one gate call: whether to send, and the timestamps after it. */
  datatype GateResult = GateResult(send: bool, alerts: map<AlertKey, int>)

  /** The stored timestamp does not block a send: there is none, it is zero
      (read as absent, as the falsy test in the source does), or it is at least
      one cooldown old. */
  predicate Expired(alerts: map<AlertKey, int>, key: AlertKey, now: int)
  {
    key !in alerts || alerts[key] == 0 || now - alerts[key] >= COOLDOWN_MS
  }

  /** One gate call at time `now` on a store that answers. */
  function Gate(alerts: map<AlertKey, int>, key: AlertKey, now: int): (r: GateResult)
    ensures r.send <==> key !in alerts || alerts[key] == 0 || alerts[key] + COOLDOWN_MS <= now
    ensures r.send ==> key in r.alerts && r.alerts[key] == now
    ensures !r.send ==> r.alerts == alerts && key in alerts && alerts[key] != 0 && alerts[key] > now - COOLDOWN_MS
    ensures r.alerts.Keys == alerts.Keys + (if r.send then {key} else {})
    ensures forall k :: k in alerts && k != key ==> r.alerts[k] == alerts[k]
  {
    if Expired(alerts, key, now) then GateResult(true, alerts[key := now])
    else GateResult(false, alerts)
  }

  /** `resetAlertCooldown` on a store that answers: the one slot is gone. */
  function Reset(alerts: map<AlertKey, int>, key: AlertKey): (r: map<AlertKey, int>)
    ensures key !in r
    ensures r.Keys == alerts.Keys - {key}
    ensures forall k :: k in r ==> r[k] == alerts[k]
  {
    alerts - {key}
  }

  /** A first permitted send at `t1` blocks a second call before `t1 + COOLDOWN_MS`
      and permits one at or after it; the blocked call leaves the timestamp alone. */
  lemma SecondCallWithinWindow(alerts: map<AlertKey, int>, key: AlertKey, t1: int, t2: int)
    requires t1 != 0
    requires Gate(alerts, key, t1).send
    ensures var a1 := Gate(alerts, key, t1).alerts;
            Gate(a1, key, t2).send <==> t2 >= t1 + COOLDOWN_MS
    ensures var a1 := Gate(alerts, key, t1).alerts;
            t2 < t1 + COOLDOWN_MS ==> Gate(a1, key, t2).alerts == a1
  {
  }

  /** The gate permits every call when the calls are at least one window apart. */
  lemma SpacedCallsAllPermitted(alerts: map<AlertKey, int>, key: AlertKey, times: seq<int>)
    requires forall i :: 0 < i < |times| ==> times[i] >= times[i - 1] + COOLDOWN_MS
    requires |times| > 0 ==> Gate(alerts, key, times[0]).send
    ensures Permits(alerts, key, times)
    decreases |times|
  {
    if |times| > 1 {
      var a1 := Gate(alerts, key, times[0]).alerts;
      assert Gate(a1, key, times[1]).send;
      SpacedCallsAllPermitted(a1, key, times[1..]);
    }
  }

  /** Every call of the sequence, run one after another, is permitted. */
  predicate Permits(alerts: map<AlertKey, int>, key: AlertKey, times: seq<int>)
    decreases |times|
  {
    |times| == 0 ||
    (Gate(alerts, key, times[0]).send && Permits(Gate(alerts, key, times[0]).alerts, key, times[1..]))
  }

  /** After a reset the next call is permitted whatever the time, and the reset
      touched no other slot. */
  lemma ResetThenSend(alerts: map<AlertKey, int>, key: AlertKey, now: int)
    ensures Gate(Reset(alerts, key), key, now).send
    ensures forall k :: k != key ==> (k in Reset(alerts, key) <==> k in alerts)
  {
  }

  /** Gate calls and resets on one slot never disturb another slot. */
  lemma SlotsIndependent(alerts: map<AlertKey, int>, key: AlertKey, other: AlertKey, now: int)
    requires other != key
    ensures Expired(Gate(alerts, key, now).alerts, other, now) == Expired(alerts, other, now)
    ensures Expired(Reset(alerts, key), other, now) == Expired(alerts, other, now)
  {
  }
}
