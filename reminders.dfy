/** The reminder sweep's decisions: three independent one-shot triggers per
    reminder, each guarded by its own "sent" flag. Days are UTC calendar days
    of epoch milliseconds. */
module Reminders {
  import opened Types

  const HOUR_MS: int := 60 * 60 * 1000
  const DAY_MS: int := 24 * 60 * 60 * 1000

  /** The UTC calendar day of an instant: the `YYYY-MM-DD` prefix of its
      ISO form, as a day number (division rounds down, also before 1970). */
  function Day(ms: int): int
  {
    ms / DAY_MS
  }

  /** An instant lies within its day: `Day(ms)` is the floor of `ms / DAY_MS`. */
  lemma DayBounds(ms: int)
    ensures Day(ms) * DAY_MS <= ms < (Day(ms) + 1) * DAY_MS
  {
  }

  /** The instant one day later is on the next calendar day, so `tomorrow` is `today + 1`. */
  lemma DayAfter(ms: int)
    ensures Day(ms + DAY_MS) == Day(ms) + 1
  {
    DayBounds(ms);
    var d := Day(ms);
    assert (d + 1) * DAY_MS <= ms + DAY_MS < (d + 2) * DAY_MS;
    DayUnique(ms + DAY_MS, d + 1);
  }

  /** The day number is the only one whose day contains the instant. */
  lemma DayUnique(ms: int, d: int)
    requires d * DAY_MS <= ms < (d + 1) * DAY_MS
    ensures Day(ms) == d
  {
    DayBounds(ms);
  }

  datatype Trigger = OneHourBefore | SameDay | NextDay

  /** The flag that records a trigger has fired. */
  predicate Sent(r: Reminder, t: Trigger)
  {
    match t
    case OneHourBefore => r.oneHourNotifSent
    case SameDay => r.dayNotifSent
    case NextDay => r.tomorrowNotifSent
  }

  /** Whether trigger `t` fires for `r` in a sweep at `now`. */
  predicate Fires(r: Reminder, t: Trigger, now: int)
  {
    && !r.completed
    && !Sent(r, t)
    && match t
       case OneHourBefore => r.due - HOUR_MS <= now < r.due
       case SameDay => Day(r.due) == Day(now)
       case NextDay => Day(r.due) == Day(now + DAY_MS)
  }

  /** `r` with the flag of trigger `t` set. */
  function WithSent(r: Reminder, t: Trigger): Reminder
  {
    match t
    case OneHourBefore => r.(oneHourNotifSent := true)
    case SameDay => r.(dayNotifSent := true)
    case NextDay => r.(tomorrowNotifSent := true)
  }

  /** `r` with the flag of trigger `t` set when `fired`. */
  function SetIf(r: Reminder, t: Trigger, fired: bool): Reminder
  {
    if fired then WithSent(r, t) else r
  }

  /** The reminder after a sweep at `now`: the flag of every fired trigger is set. */
  function Mark(r: Reminder, now: int): (r': Reminder)
    ensures forall t :: Sent(r', t) <==> Sent(r, t) || Fires(r, t, now)
    ensures r'.title == r.title && r'.notes == r.notes && r'.due == r.due && r'.completed == r.completed
  {
    var r1 := SetIf(r, OneHourBefore, Fires(r, OneHourBefore, now));
    var r2 := SetIf(r1, SameDay, Fires(r, SameDay, now));
    SetIf(r2, NextDay, Fires(r, NextDay, now))
  }

  /** The notification a trigger sends for a stored reminder. */
  function RequestFor(e: ReminderEntry, t: Trigger): Request
  {
    var lead := match t
      case OneHourBefore => "Your pet has an upcoming task in 1 hour: "
      case SameDay => "Today's task for your pet: "
      case NextDay => "Reminder for tomorrow: ";
    Request(e.uid, "Reminder: " + e.reminder.title, Text(lead + e.reminder.notes), Some("reminder"), Some(e.petId))
  }

  /** The request of trigger `t` if it fires, nothing otherwise. */
  function RequestIf(e: ReminderEntry, t: Trigger, now: int): seq<Request>
  {
    if Fires(e.reminder, t, now) then [RequestFor(e, t)] else []
  }

  /** The notifications one reminder sends in a sweep, in the order the triggers are checked. */
  function EntryRequests(e: ReminderEntry, now: int): seq<Request>
  {
    RequestIf(e, OneHourBefore, now) + RequestIf(e, SameDay, now) + RequestIf(e, NextDay, now)
  }

  function EntryMark(e: ReminderEntry, now: int): ReminderEntry
  {
    e.(reminder := Mark(e.reminder, now))
  }

  /** Every stored reminder after a sweep at `now`. */
  function SweepFlags(es: seq<ReminderEntry>, now: int): seq<ReminderEntry>
  {
    seq(|es|, i requires 0 <= i < |es| => EntryMark(es[i], now))
  }

  /** The notifications a sweep at `now` sends, reminder by reminder in traversal order. */
  function SweepRequests(es: seq<ReminderEntry>, now: int): seq<Request>
    decreases |es|
  {
    if es == [] then [] else SweepRequests(es[..|es| - 1], now) + EntryRequests(es[|es| - 1], now)
  }

  /** How many of the three flags are set. */
  function SentCount(r: Reminder): nat
  {
    (if r.oneHourNotifSent then 1 else 0) + (if r.dayNotifSent then 1 else 0) + (if r.tomorrowNotifSent then 1 else 0)
  }

  /** A completed reminder sends nothing and keeps its flags. */
  lemma CompletedIsSkipped(e: ReminderEntry, now: int)
    requires e.reminder.completed
    ensures EntryRequests(e, now) == [] && EntryMark(e, now) == e
  {
  }

  /** Every notification a sweep sends is paid for by one flag going from false to true. */
  lemma SendsMatchNewFlags(e: ReminderEntry, now: int)
    ensures |EntryRequests(e, now)| == SentCount(Mark(e.reminder, now)) - SentCount(e.reminder)
  {
  }

  /** A trigger that fired never fires again in any later sweep, and no flag is ever cleared. */
  lemma OneShot(r: Reminder, t: Trigger, now: int, later: int)
    ensures Fires(r, t, now) ==> !Fires(Mark(r, now), t, later)
    ensures Sent(r, t) ==> Sent(Mark(r, now), t)
  {
  }

  /** The number of notifications one reminder sends over a run of sweeps at
      the given times, each sweep seeing the flags the previous one left. */
  function SendsOver(e: ReminderEntry, nows: seq<int>): nat
    decreases |nows|
  {
    if nows == [] then 0
    else |EntryRequests(e, nows[0])| + SendsOver(EntryMark(e, nows[0]), nows[1..])
  }

  /** However many sweeps run, a reminder sends at most three notifications in
      all, fewer by the flags it already has. */
  lemma {:induction false} AtMostThreeEver(e: ReminderEntry, nows: seq<int>)
    ensures SendsOver(e, nows) + SentCount(e.reminder) <= 3
    decreases |nows|
  {
    if nows != [] {
      var e1 := EntryMark(e, nows[0]);
      AtMostThreeEver(e1, nows[1..]);
      SendsMatchNewFlags(e, nows[0]);
    }
  }

  /** The same-day and next-day triggers never both fire in one sweep. */
  lemma SameDayExcludesNextDay(r: Reminder, now: int)
    ensures !(Fires(r, SameDay, now) && Fires(r, NextDay, now))
  {
    DayAfter(now);
  }

  /** A reminder due in half an hour, with no flag set, fires the one-hour
      trigger and exactly one of the same-day and next-day triggers: same-day
      when the due time falls on today's UTC date, next-day when it is already
      past UTC midnight. */
  lemma DueInHalfAnHour(e: ReminderEntry, now: int)
    requires var r := e.reminder; !r.completed && SentCount(r) == 0 && r.due == now + 30 * 60 * 1000
    ensures Fires(e.reminder, OneHourBefore, now)
    ensures Fires(e.reminder, SameDay, now) <==> Day(e.reminder.due) == Day(now)
    ensures Fires(e.reminder, NextDay, now) <==> Day(e.reminder.due) != Day(now)
    ensures |EntryRequests(e, now)| == 2
  {
    var r := e.reminder;
    DayAfter(now);
    DayMonotone(now, r.due);
    DayMonotone(r.due, now + DAY_MS);
  }

  lemma DayMonotone(a: int, b: int)
    requires a <= b
    ensures Day(a) <= Day(b)
  {
    DayBounds(a);
    DayBounds(b);
  }

  /** A notification of the sweep addressed to the owner and pet of stored reminder `e`. */
  predicate AddressedTo(q: Request, e: ReminderEntry)
  {
    && q.uid == e.uid && q.petId == Some(e.petId) && q.kind == Some("reminder")
    && q.title == "Reminder: " + e.reminder.title
  }

  /** Every notification one reminder sends goes to that reminder's owner and
      pet, has type `reminder` and is titled after the reminder. */
  lemma EntryRequestsAddressed(e: ReminderEntry, now: int)
    ensures forall q :: q in EntryRequests(e, now) ==> AddressedTo(q, e) && !e.reminder.completed
  {
  }

  /** Every notification a sweep sends comes from some stored reminder that is
      not completed, and goes to its owner and pet with type `reminder`. */
  lemma {:induction false} SweepRequestsAddressed(es: seq<ReminderEntry>, now: int)
    ensures forall q :: q in SweepRequests(es, now) ==>
              exists j :: 0 <= j < |es| && !es[j].reminder.completed && AddressedTo(q, es[j])
    decreases |es|
  {
    if es != [] {
      var n := |es| - 1;
      SweepRequestsAddressed(es[..n], now);
      EntryRequestsAddressed(es[n], now);
      forall q | q in SweepRequests(es, now)
        ensures exists j :: 0 <= j < |es| && !es[j].reminder.completed && AddressedTo(q, es[j])
      {
        if q in SweepRequests(es[..n], now) {
          var j :| 0 <= j < n && !es[..n][j].reminder.completed && AddressedTo(q, es[..n][j]);
          assert es[j] == es[..n][j];
        } else {
          assert q in EntryRequests(es[n], now);
        }
      }
    }
  }

  /** A sweep repeated at the same instant sends nothing and changes no flag. */
  lemma {:induction false} SweepIdempotent(es: seq<ReminderEntry>, now: int)
    ensures SweepRequests(SweepFlags(es, now), now) == []
    ensures SweepFlags(SweepFlags(es, now), now) == SweepFlags(es, now)
    decreases |es|
  {
    if es != [] {
      var n := |es| - 1;
      var marked := SweepFlags(es, now);
      assert marked[..n] == SweepFlags(es[..n], now);
      SweepIdempotent(es[..n], now);
      var e := marked[n];
      assert EntryRequests(e, now) == [] by {
        OneShot(es[n].reminder, OneHourBefore, now, now);
        OneShot(es[n].reminder, SameDay, now, now);
        OneShot(es[n].reminder, NextDay, now, now);
      }
    }
  }
}
