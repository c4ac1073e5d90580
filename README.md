# SmartCollar alerting engine

This project models the alerting engine of the SmartCollar backend, a server that watches pet-collar telemetry and notifies the pet's owner, and proves properties of that model. Five parts are modelled:

- **Cooldown gate.** While the store answers, a send of one alert kind for one pet is permitted at most once per cooldown window (one minute). On a store error the gate fails open: it permits the send and records nothing. The window is kept as a timestamp under `last_alerts`, and a reset clears it.
- **Threshold evaluator.** A heart-rate or temperature reading is classified against the pet's configured bounds: above the maximum, below the minimum, or in range. An out-of-range reading is alerted through the gate. An in-range reading clears both of the metric's cooldowns.
- **Geofence evaluator.** A position fix farther than the fence radius from the fence centre is alerted through the gate. A fix inside the fence clears the geofence cooldown.
- **Notification dispatcher.** It always writes a record to the owner's notification log first. It then hands a message to the push channel only when the owner has a device token.
- **Reminder sweep.** It visits every stored reminder and skips completed ones. For the rest it checks three independent one-shot triggers: one hour before the due time, on the due date's UTC day, and on the UTC day before it. Each trigger sends one notification and sets its own flag.

How the model is laid out:

- The backing store is the class `Engine.Store`. Its fields are the parts of the database the engine reads and writes:
  - the alert timestamps;
  - every notification written, with its owner;
  - the push channel's outbox;
  - device tokens, settings and geofences;
  - every reminder, listed in the order the sweep visits users, their pets and their reminders.
- Every operation is a method of `Store`. It takes the current time `now` (epoch milliseconds) as a parameter.
- Each method is proved against pure functions in four modules: `Cooldown`, `Evaluate`, `Dispatch` and `Reminders`. The properties are proved as lemmas about those functions.
- A store error inside the gate or the reset is a `storeError` flag. The failing step of a dispatch is a `DispatchFault`.
- The great-circle distance used by the geofence check is a function parameter, `distance`.

UTC days are handled as follows:

- A calendar day is the day number `ms / 86400000`. Dafny's division rounds down for a positive divisor, so this is the `YYYY-MM-DD` prefix of the ISO form of the instant, also before 1970.
- "Tomorrow" is the day of `now + 24h`, which is always the day after today (`Reminders.DayAfter`).

Two points where the code differs from what a reader might expect:

- **Cooldown length.** `NOTIFICATION_COOLDOWN_MS` is `1 * 60 * 1000`, one minute, although its comment says two minutes. `COOLDOWN_MS` is 60000.
- **Half-hour reminders.** A fresh reminder due in half an hour fires the one-hour trigger, and it also fires the same-day trigger when the due time falls on today's UTC date, or the next-day trigger when it falls after UTC midnight. `Reminders.DueInHalfAnHour` states this: two notifications.

## Model

| member | source | states |
|---|---|---|
| `Types.KindNameInjective` | index.js:22-24 | Distinct alert kinds are stored under distinct `last_alerts` keys, so their cooldowns are separate slots |
| `Types.KindName` | index.js:208-216 | Definition: the `last_alerts` key and alert type of each kind: `hr_high`, `hr_low`, `temp_high`, `temp_low`, and `geofence` (index.js:246, 252) |
| `Cooldown.Gate` | index.js:25-35 | A send is permitted exactly when there is no timestamp, the timestamp is 0 (falsy), or it is at least `COOLDOWN_MS` old. A permitted send stores `now` in the slot. A refused send changes nothing, and the refusal means a non-zero timestamp younger than the window exists. No other slot changes |
| `Cooldown.Expired` | index.js:29 | Definition: the stored timestamp does not block a send when it is absent, 0 (falsy), or at least `COOLDOWN_MS` old |
| `Cooldown.Reset` | index.js:42-47 | After the reset the slot is absent; every other slot keeps its key and value |
| `Cooldown.SecondCallWithinWindow` | index.js:29-35 | After a permitted send at `t1`, a later call is permitted exactly when it comes at or after `t1 + COOLDOWN_MS`; a refused call keeps the timestamp |
| `Cooldown.SpacedCallsAllPermitted` | index.js:29-32 | Once the first call is permitted, calls at least one window apart are all permitted, whatever their number |
| `Cooldown.ResetThenSend` | index.js:42-47 | Right after a reset the next gate call is permitted at any time, and the reset removed no other slot |
| `Cooldown.SlotsIndependent` | index.js:22-30 | Gate calls and resets on one slot never change whether another slot blocks |
| `Engine.Store.ShouldSendNotification` | index.js:20-40 | The store's timestamps and the answer follow `Gate`; on a store error the gate fails open (permits) and writes nothing |
| `Engine.Store.ResetAlertCooldown` | index.js:42-52 | The timestamps become `Reset` of the old ones; a store error is swallowed and changes nothing |
| `Dispatch.LogOfAppend` | index.js:67 | The notifications are append-only: one owner's log of a log written in two parts is the two parts' logs in order |
| `Dispatch.TokenOf` | index.js:75 | Definition: the owner's device token when it is present and non-empty; a missing or empty token is falsy and ends the dispatch |
| `Dispatch.TypeOrAlert` | index.js:61 | Definition: the given type when present and non-empty, otherwise `"alert"` (also in the push payload, index.js:95) |
| `Dispatch.PetIdOrEmpty` | index.js:96 | Definition: the pet id in the push payload, or `""` when there is none |
| `Dispatch.Record` | index.js:57-64 | Definition: the log record of a request, with its title, body, pet, timestamp `now`, type (default `"alert"`) and source `"server"` |
| `Dispatch.PushOf` | index.js:81-99 | Definition: the push message of a request to a token, with the same type and the pet id or `""` |
| `Dispatch.Send` | index.js:66-104 | Definition: one dispatch appends the record unless the log write raised, and the push message only when no step raised and the owner has a non-empty token |
| `Dispatch.SendEffect` | index.js:56-78 | One dispatch: the requester's log gains exactly one record unless the write raised, and no other owner's log changes. The record has the request's title, body and pet, the timestamp `now`, source `"server"`, and the given type, or `"alert"` when none is given. A message goes to the push channel exactly when no step raised and the owner has a non-empty token, and it is addressed to that token |
| `Dispatch.DeliveredOnlyIfLogged` | index.js:66-78 | A dispatch that delivers a message has also written the record to the owner's log (the log comes first) |
| `Dispatch.SendAllConcat` | index.js:152-185 | Dispatching two batches one after the other is dispatching their concatenation |
| `Dispatch.SendAllThree` | index.js:149-186 | The same, for the three trigger batches of one reminder |
| `Dispatch.SendAllLog` | index.js:152-185 | A batch of dispatches appends one log record per request, in request order |
| `Dispatch.SendAllOutbox` | index.js:152-185 | A batch of dispatches hands over one message per request whose owner has a token, in request order |
| `Dispatch.SendAllOwnerLog` | index.js:152-185 | A batch appends, to each owner's log, the records of the requests addressed to that owner, in order, after the records the owner already had |
| `Engine.Store.SendPushNotification` | index.js:54-108 | The log and the outbox become `Send` of the old ones: the record is written before the token lookup, and the push happens only if no later step raised |
| `Evaluate.Classify` | index.js:198-217 | With no settings or the metric's toggle off, the reading is ignored. An enabled metric is high exactly when `value > max`, and low exactly when it is not high and `value < min`. It is in range exactly when `min <= value <= max`. A violation is always the metric's own high or low kind |
| `Evaluate.ViolationMessage` | index.js:208-215 | The alert message carries the reading and the bound it crossed, and the reading is strictly beyond that bound |
| `Evaluate.BoundsAreInRange` | index.js:207-217 | A reading equal to either bound is in range; one above the maximum is the metric's high kind |
| `Evaluate.Round` | index.js:251 | `Math.round` of the distance: the integer within half a unit, halves rounded up |
| `Evaluate.Outside` | index.js:243 | Definition: a fix is outside the fence when its distance is strictly greater than the radius |
| `Engine.ThresholdAlert` | index.js:221 | Definition: the request a threshold alert dispatches: title `SmartCollar Alert: <metric>`, the classifier's message, the alert kind's key as type, and the pet |
| `Engine.GeofenceAlert` | index.js:248-254 | Definition: the request a geofence alert dispatches: title `SmartCollar Alert: Geofence`, a left-the-safe-zone body with the distance rounded by `Math.round`, type `"geofence"`, and the pet |
| `Engine.ThresholdAlertWritten` | index.js:219-221 | A permitted threshold alert adds one record to the owner's log, typed with the alert kind's key (never the `"alert"` default), for the pet, with the classifier's message, from the server at `now`; an owner with a token also gets a message of that type for that pet |
| `Engine.GeofenceAlertWritten` | index.js:246-254 | A permitted geofence alert adds one record of type `"geofence"` for the pet to the owner's log, whose distance is the measured one to within half a metre |
| `Engine.Store.CheckThreshold` | index.js:198-223 | Without settings or with the toggle off, no timestamp changes and nothing is dispatched. In range, exactly the metric's high and low slots are removed and nothing is dispatched. A violation goes through `Gate` on the derived kind, and dispatches the threshold alert at `now` exactly when the gate permits |
| `Engine.Store.CheckGeofence` | index.js:225-265 | Without a fence nothing changes. Strictly outside the radius, the `geofence` slot goes through `Gate`, and the alert is dispatched exactly when the gate permits. At or within the radius, only the `geofence` slot is removed and nothing is dispatched |
| `Reminders.Day` | index.js:127 | Definition: the UTC day number of an instant, `ms / 86400000` rounded down |
| `Reminders.DayBounds` | index.js:127 | An instant lies inside its UTC day |
| `Reminders.DayUnique` | index.js:143 | A UTC day number is the only day containing the instant |
| `Reminders.DayAfter` | index.js:128-129 | The instant 24 hours later is on the next UTC day |
| `Reminders.DayMonotone` | index.js:143 | Later instants are never on earlier days |
| `Reminders.Fires` | index.js:150-176 | Definition: a trigger fires when the reminder is not completed and its flag is not set, and, for one-hour, `due - 1h <= now < due`; for same-day, the due day is today's day; for next-day, the due day is the day of `now + 24h` |
| `Reminders.Mark` | index.js:149-186 | After a sweep each flag is set exactly when it was set before or its trigger fired; title, notes, due time and completion are unchanged |
| `Reminders.RequestFor` | index.js:152-184 | Definition: the request of each trigger: title `Reminder: <title>`, body lead `Your pet has an upcoming task in 1 hour: `, `Today's task for your pet: ` or `Reminder for tomorrow: ` followed by the notes, type `"reminder"`, and the pet |
| `Reminders.SweepFlags` | index.js:159-185 | Definition: every stored reminder after a sweep, each with the flags of its fired triggers set (the writes at index.js:159, 172 and 185) |
| `Reminders.EntryRequests` | index.js:149-186 | Definition: the notifications one reminder sends, one per firing trigger, in trigger order |
| `Reminders.SweepRequests` | index.js:131-189 | Definition: the notifications a sweep sends, reminder by reminder in traversal order |
| `Reminders.EntryRequestsAddressed` | index.js:152-184 | Every notification one reminder sends comes from a reminder that is not completed and goes to its owner and pet, with type `"reminder"` and title `Reminder: <title>` |
| `Reminders.SweepRequestsAddressed` | index.js:131-186 | Every notification a sweep sends comes from some stored, not completed reminder, and goes to that reminder's owner and pet with type `"reminder"` |
| `Reminders.CompletedIsSkipped` | index.js:141 | A completed reminder sends nothing and keeps its flags |
| `Reminders.SendsMatchNewFlags` | index.js:149-186 | The number of notifications one reminder sends in a sweep equals the number of its flags that go from false to true |
| `Reminders.OneShot` | index.js:150-185 | A trigger that fired never fires again in a later sweep, and a set flag is never cleared |
| `Reminders.AtMostThreeEver` | index.js:149-186 | Over any number of sweeps, each seeing the flags the previous one left, a reminder sends at most three notifications in total, fewer by the flags it already had |
| `Reminders.SameDayExcludesNextDay` | index.js:163-176 | The same-day and next-day triggers never both fire in one sweep |
| `Reminders.DueInHalfAnHour` | index.js:145-176 | A fresh reminder due in 30 minutes fires the one-hour trigger. It also fires exactly one of same-day (due today, UTC) and next-day (due after UTC midnight), so it sends two notifications |
| `Reminders.SweepIdempotent` | index.js:141-186 | A second sweep at the same instant sends nothing and changes no flag |
| `Engine.Store.FireIfDue` | index.js:149-160 | One trigger against the reminder snapshot: when it fires, both its notification and its flag are written; otherwise nothing changes |
| `Engine.MarkInPlace` | index.js:159-185 | Setting the three flags one after another is marking the reminder |
| `Engine.Store.CheckReminder` | index.js:137-187 | One reminder: exactly its `EntryMark` is stored, and exactly its triggered notifications are dispatched, in trigger order |
| `Engine.Store.CheckReminders` | index.js:122-190 | After the sweep every reminder is marked in place. The dispatched notifications are those of every reminder, in traversal order, and each follows `Send` |

## Left out

- HTTP endpoints and database listeners. `/bpm`, `/temperature` and `/location` (index.js:302-318) and the listeners (index.js:326-360) forward to `checkThreshold` and `checkGeofence`, the listeners after dropping falsy values. `/`, `/testDB` and `/testNotif` only return a fixed string or read and return store data. None of them holds alerting logic.
- Great-circle distance (`haversineDistance`): floating-point trigonometry. `CheckGeofence` takes it as the parameter `distance`.
- The push-message format and the messaging library's multicast call. Delivery is an append of a `Push` value to the outbox. The library's per-token success count is not modelled.
- The ten-minute reminder timer, app and credential set-up, and server start.
- Concurrency. Each call is atomic and sequential. The read-then-write race in the gate, and the sweep's un-awaited dispatches and flag writes, are not modelled.
- Console logging.
- Clock reads. One `now` per call. The source reads the clock separately in the gate, in each dispatch and in the sweep, so their timestamps may differ by the time the awaited store calls between them take (in `checkThreshold`, the gate's timestamp write lies between the gate's clock read and the record's).
- Number-to-text rendering of alert bodies, and `.toFixed`/`Math.round` text. Bodies are the `Message` datatype, which carries the numbers.
- Dates. Reminder due dates are integer epoch milliseconds. An invalid date string, which makes the ISO conversion raise and aborts the sweep, is not modelled. An absent `notes` is the empty string (`notes || ""`).
- Settings and fences. Settings and fences are present with numeric bounds. Comparisons against a missing bound or radius (always false in the source) are not modelled.
- Metrics other than bpm and temperature. `Metric` has only those two; any other `type` does nothing in the source.
- Errors in `checkThreshold`. Its settings read has no error handler, so a store error rejects the call. Modelled only as the success path.
- Errors in the evaluators and the sweep. `CheckThreshold`, `CheckGeofence` and the reminder sweep call the gate, the reset and the dispatcher without faults. Each helper's own fault behaviour is modelled on the helper itself. A failed flag write in the sweep is not modelled.
- Users, pets and reminders. They are not nested. The sweep reads them from one list in traversal order, each with its owner and pet, and the notification log is one list of (owner, record) pairs that `Dispatch.LogOf` filters per owner.
