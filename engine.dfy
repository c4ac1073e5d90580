/** The alerting engine over its backing store. The store's subtrees the
    engine touches are fields of `Store`; every operation is one atomic call
    that takes the current time `now` in epoch milliseconds. */
module Engine {
  import opened Types
  import opened Cooldown
  import opened Dispatch
  import opened Evaluate
  import opened Reminders

  class Store {
    /** `/users/<uid>/pets/<petId>/last_alerts/<kind>`. */
    var lastAlerts: map<AlertKey, int>
    /** Every record written under `/users/<uid>/notifications`, oldest first,
        with its owner; `LogOf(notifications, uid)` is one owner's log. */
    var notifications: seq<Logged>
    /** Messages handed to the push channel, oldest first. */
    var outbox: seq<Push>
    /** `/users/<uid>/deviceToken`. */
    var deviceTokens: map<string, string>
    /** `/users/<uid>/pets/<petId>/notification_settings`. */
    var settings: map<PetKey, Settings>
    /** `/users/<uid>/pets/<petId>/geofence`. */
    var geofences: map<PetKey, Fence>
    /** Every `/users/<uid>/pets/<petId>/reminders/<id>`, in the order the
        sweep visits users, their pets and their reminders. */
    var reminders: seq<ReminderEntry>

    /** What the dispatcher has written. */
    function Dispatched(): Mail
      reads this
    {
      Mail(notifications, outbox)
    }

    function SettingsOf(uid: string, petId: string): Option<Settings>
      reads this
    {
      var k := PetKey(uid, petId);
      if k in settings then Some(settings[k]) else None
    }

    function FenceOf(uid: string, petId: string): Option<Fence>
      reads this
    {
      var k := PetKey(uid, petId);
      if k in geofences then Some(geofences[k]) else None
    }

    /** A store holding the given configuration, with no alert timestamps and no notifications. */
    constructor (tokens: map<string, string>, petSettings: map<PetKey, Settings>,
                 fences: map<PetKey, Fence>, stored: seq<ReminderEntry>)
      ensures lastAlerts == map[] && notifications == [] && outbox == []
      ensures deviceTokens == tokens && settings == petSettings && geofences == fences && reminders == stored
    {
      lastAlerts := map[];
      notifications := [];
      outbox := [];
      deviceTokens := tokens;
      settings := petSettings;
      geofences := fences;
      reminders := stored;
    }

    /** `shouldSendNotification`. With `storeError` the read or the write
        raised: the gate fails open, permitting the send. */
    method ShouldSendNotification(uid: string, petId: string, kind: AlertKind, now: int, storeError: bool)
      returns (send: bool)
      modifies this`lastAlerts
      ensures var g := Gate(old(lastAlerts), AlertKey(uid, petId, kind), now);
              send == (storeError || g.send) &&
              lastAlerts == (if storeError then old(lastAlerts) else g.alerts)
    {
      if storeError {
        return true;
      }
      var key := AlertKey(uid, petId, kind);
      send := Expired(lastAlerts, key, now);
      if send {
        lastAlerts := lastAlerts[key := now];
      }
    }

    /** `resetAlertCooldown`. With `storeError` the removal raised and is only logged. */
    method ResetAlertCooldown(uid: string, petId: string, kind: AlertKind, storeError: bool)
      modifies this`lastAlerts
      ensures lastAlerts == if storeError then old(lastAlerts) else Reset(old(lastAlerts), AlertKey(uid, petId, kind))
    {
      if !storeError {
        lastAlerts := lastAlerts - {AlertKey(uid, petId, kind)};
      }
    }

    /** `sendPushNotification`: log first, then deliver if the owner has a token.
        `fault` names the step that raised, if any; the error never escapes. */
    method SendPushNotification(uid: string, title: string, body: Message, kind: Option<string>,
                                petId: Option<string>, now: int, fault: DispatchFault)
      modifies this`notifications, this`outbox
      ensures Dispatched() == Send(old(Dispatched()), deviceTokens, Request(uid, title, body, kind, petId), now, fault)
    {
      var q := Request(uid, title, body, kind, petId);
      if fault == LogWriteFails {
        return;
      }
      notifications := notifications + [Logged(uid, Record(q, now))];
      if fault == TokenReadFails {
        return;
      }
      var token := TokenOf(deviceTokens, uid);
      if token.None? {
        return;
      }
      if fault == NoFault {
        outbox := outbox + [PushOf(q, token.value, now)];
      }
    }

    /** `checkThreshold` for one reading of `metric`. */
    method CheckThreshold(uid: string, petId: string, metric: Metric, value: real, now: int)
      modifies this`lastAlerts, this`notifications, this`outbox
      ensures match Classify(old(SettingsOf(uid, petId)), metric, value)
              case Ignore =>
                lastAlerts == old(lastAlerts) && Dispatched() == old(Dispatched())
              case InRange =>
                lastAlerts == old(lastAlerts) - {AlertKey(uid, petId, HighKind(metric)), AlertKey(uid, petId, LowKind(metric))} &&
                Dispatched() == old(Dispatched())
              case Violation(kind, message) =>
                var g := Gate(old(lastAlerts), AlertKey(uid, petId, kind), now);
                lastAlerts == g.alerts &&
                Dispatched() == if g.send then Send(old(Dispatched()), deviceTokens, ThresholdAlert(uid, petId, metric, kind, message), now, NoFault)
                          else old(Dispatched())
    {
      var verdict := Classify(SettingsOf(uid, petId), metric, value);
      match verdict
      case Ignore =>
      case InRange =>
        ResetAlertCooldown(uid, petId, HighKind(metric), false);
        ResetAlertCooldown(uid, petId, LowKind(metric), false);
      case Violation(kind, message) =>
        var send := ShouldSendNotification(uid, petId, kind, now, false);
        if send {
          var q := ThresholdAlert(uid, petId, metric, kind, message);
          SendPushNotification(q.uid, q.title, q.body, q.kind, q.petId, now, NoFault);
        }
    }

    /** `checkGeofence` for a position fix; `distance` stands for the
        great-circle distance between the fix and the fence centre. */
    method CheckGeofence(uid: string, petId: string, latitude: real, longitude: real,
                         distance: (real, real, real, real) -> real, now: int)
      modifies this`lastAlerts, this`notifications, this`outbox
      ensures match old(FenceOf(uid, petId))
              case None =>
                lastAlerts == old(lastAlerts) && Dispatched() == old(Dispatched())
              case Some(fence) =>
                var d := distance(latitude, longitude, fence.latitude, fence.longitude);
                if Outside(d, fence) then
                  var g := Gate(old(lastAlerts), AlertKey(uid, petId, Geofence), now);
                  lastAlerts == g.alerts &&
                  Dispatched() == if g.send then Send(old(Dispatched()), deviceTokens, GeofenceAlert(uid, petId, d), now, NoFault)
                            else old(Dispatched())
                else
                  lastAlerts == Reset(old(lastAlerts), AlertKey(uid, petId, Geofence)) && Dispatched() == old(Dispatched())
    {
      var fence := FenceOf(uid, petId);
      if fence.None? {
        return;
      }
      var d := distance(latitude, longitude, fence.value.latitude, fence.value.longitude);
      if Outside(d, fence.value) {
        var send := ShouldSendNotification(uid, petId, Geofence, now, false);
        if send {
          var q := GeofenceAlert(uid, petId, d);
          SendPushNotification(q.uid, q.title, q.body, q.kind, q.petId, now, NoFault);
        }
      } else {
        ResetAlertCooldown(uid, petId, Geofence, false);
      }
    }

    /** The body of the reminder callback for the reminder at position `i`. */
    method CheckReminder(i: nat, now: int)
      requires i < |reminders|
      modifies this`reminders, this`notifications, this`outbox
      ensures reminders == old(reminders)[i := EntryMark(old(reminders)[i], now)]
      ensures Dispatched() == SendAll(old(Dispatched()), deviceTokens, EntryRequests(old(reminders)[i], now), now)
    {
      var e := reminders[i];
      if e.reminder.completed {
        assert EntryMark(e, now) == e;
        assert reminders == old(reminders)[i := e];
        return;
      }
      ghost var r0 := reminders;
      FireIfDue(i, e, OneHourBefore, now);
      ghost var r1 := reminders;
      FireIfDue(i, e, SameDay, now);
      ghost var r2 := reminders;
      FireIfDue(i, e, NextDay, now);
      MarkInPlace(r0, r1, r2, reminders, i, now);
      SendAllThree(old(Dispatched()), deviceTokens, RequestIf(e, OneHourBefore, now), RequestIf(e, SameDay, now),
                   RequestIf(e, NextDay, now), now);
    }

    /** One trigger of the reminder callback: when trigger `t` fires for the
        snapshot `e` of the reminder at position `i`, send its notification and
        set its flag in the store. */
    method FireIfDue(i: nat, e: ReminderEntry, t: Trigger, now: int)
      requires i < |reminders|
      modifies this`reminders, this`notifications, this`outbox
      ensures reminders == old(reminders)[i := old(reminders)[i].(reminder := SetIf(old(reminders)[i].reminder, t, Fires(e.reminder, t, now)))]
      ensures Dispatched() == SendAll(old(Dispatched()), deviceTokens, RequestIf(e, t, now), now)
    {
      if Fires(e.reminder, t, now) {
        var q := RequestFor(e, t);
        SendPushNotification(q.uid, q.title, q.body, q.kind, q.petId, now, NoFault);
        reminders := reminders[i := reminders[i].(reminder := WithSent(reminders[i].reminder, t))];
      } else {
        assert reminders == reminders[i := reminders[i].(reminder := SetIf(reminders[i].reminder, t, false))];
      }
    }

    /** `checkReminders`: one sweep over every stored reminder at `now`. */
    method CheckReminders(now: int)
      modifies this`reminders, this`notifications, this`outbox
      ensures reminders == SweepFlags(old(reminders), now)
      ensures Dispatched() == SendAll(old(Dispatched()), deviceTokens, SweepRequests(old(reminders), now), now)
    {
      var i := 0;
      while i < |reminders|
        invariant |reminders| == |old(reminders)|
        invariant 0 <= i <= |reminders|
        invariant forall j :: 0 <= j < i ==> reminders[j] == EntryMark(old(reminders)[j], now)
        invariant forall j :: i <= j < |reminders| ==> reminders[j] == old(reminders)[j]
        invariant Dispatched() == SendAll(old(Dispatched()), deviceTokens, SweepRequests(old(reminders)[..i], now), now)
      {
        CheckReminder(i, now);
        ghost var es := old(reminders)[..i + 1];
        assert es[..i] == old(reminders)[..i];
        assert SweepRequests(es, now) == SweepRequests(old(reminders)[..i], now) + EntryRequests(old(reminders)[i], now);
        SendAllConcat(old(Dispatched()), deviceTokens, SweepRequests(old(reminders)[..i], now), EntryRequests(old(reminders)[i], now), now);
        i := i + 1;
      }
      assert old(reminders)[..i] == old(reminders);
    }
  }

  /** Setting the three flags of the reminder at `i` one after another is marking it. */
  lemma MarkInPlace(r0: seq<ReminderEntry>, r1: seq<ReminderEntry>, r2: seq<ReminderEntry>, r3: seq<ReminderEntry>, i: nat, now: int)
    requires i < |r0|
    requires r1 == r0[i := r0[i].(reminder := SetIf(r0[i].reminder, OneHourBefore, Fires(r0[i].reminder, OneHourBefore, now)))]
    requires r2 == r1[i := r1[i].(reminder := SetIf(r1[i].reminder, SameDay, Fires(r0[i].reminder, SameDay, now)))]
    requires r3 == r2[i := r2[i].(reminder := SetIf(r2[i].reminder, NextDay, Fires(r0[i].reminder, NextDay, now)))]
    ensures r3 == r0[i := EntryMark(r0[i], now)]
  {
  }

  /** The notification `checkThreshold` sends for an alert of `kind`. */
  function ThresholdAlert(uid: string, petId: string, metric: Metric, kind: AlertKind, message: Message): Request
  {
    Request(uid, "SmartCollar Alert: " + MetricName(metric), message, Some(KindName(kind)), Some(petId))
  }

  /** The notification `checkGeofence` sends at distance `d`. */
  function GeofenceAlert(uid: string, petId: string, d: real): Request
  {
    Request(uid, "SmartCollar Alert: Geofence", LeftSafeZone(Round(d)), Some("geofence"), Some(petId))
  }

  /** What a permitted threshold alert writes: the owner's log gains one record
      typed with the alert kind's own key (never the `alert` default), for the
      pet, with the classifier's message, from the server at `now`; and the
      owner's device, if any, gets a message of the same type for the same pet. */
  lemma ThresholdAlertWritten(m: Mail, tokens: map<string, string>, uid: string, petId: string,
                              metric: Metric, kind: AlertKind, message: Message, now: int)
    ensures var q := ThresholdAlert(uid, petId, metric, kind, message);
            var r := Send(m, tokens, q, now, NoFault);
            exists n :: LogOf(r.log, uid) == LogOf(m.log, uid) + [n] &&
              n.kind == KindName(kind) && n.kind != "alert" && n.petId == Some(petId) &&
              n.message == message && n.source == "server" && n.timestamp == now
    ensures var q := ThresholdAlert(uid, petId, metric, kind, message);
            var r := Send(m, tokens, q, now, NoFault);
            uid in tokens && tokens[uid] != "" ==>
              |r.outbox| == |m.outbox| + 1 && r.outbox[|m.outbox|].kind == KindName(kind) &&
              r.outbox[|m.outbox|].petId == petId && r.outbox[|m.outbox|].token == tokens[uid]
  {
    var q := ThresholdAlert(uid, petId, metric, kind, message);
    SendEffect(m, tokens, q, now, NoFault, uid);
    assert KindName(kind) != "" && KindName(kind) != "alert" by {
      match kind
      case HrHigh => assert KindName(kind)[0] == 'h';
      case HrLow => assert KindName(kind)[0] == 'h';
      case TempHigh => assert KindName(kind)[0] == 't';
      case TempLow => assert KindName(kind)[0] == 't';
      case Geofence => assert KindName(kind)[0] == 'g';
    }
    assert Record(q, now).kind == KindName(kind);
  }

  /** What a permitted geofence alert writes: the owner's log gains one record
      of type `geofence` for the pet, whose distance is the measured one to
      within half a metre. */
  lemma GeofenceAlertWritten(m: Mail, tokens: map<string, string>, uid: string, petId: string, d: real, now: int)
    ensures var r := Send(m, tokens, GeofenceAlert(uid, petId, d), now, NoFault);
            exists n :: LogOf(r.log, uid) == LogOf(m.log, uid) + [n] &&
              n.kind == "geofence" && n.petId == Some(petId) && n.source == "server" && n.timestamp == now &&
              n.message.LeftSafeZone? && n.message.meters as real - 0.5 <= d < n.message.meters as real + 0.5
  {
    var q := GeofenceAlert(uid, petId, d);
    SendEffect(m, tokens, q, now, NoFault, uid);
    assert Record(q, now).message == LeftSafeZone(Round(d));
  }
}
