/** Values shared by every part of the alerting engine: the keys the store is
    addressed by, the alert kinds, the read-only per-pet configuration and the
    records the notification dispatcher writes. */
module Types {

  datatype Option<+T> = None | Some(value: T)

  /** The alert kinds written under `last_alerts`. */
  datatype AlertKind = HrHigh | HrLow | TempHigh | TempLow | Geofence

  /** The key each kind is stored under, and the `type` a dispatched alert carries. */
  function KindName(k: AlertKind): string
  {
    match k
    case HrHigh => "hr_high"
    case HrLow => "hr_low"
    case TempHigh => "temp_high"
    case TempLow => "temp_low"
    case Geofence => "geofence"
  }

  /** Distinct kinds are stored under distinct keys. */
  lemma KindNameInjective(j: AlertKind, k: AlertKind)
    ensures KindName(j) == KindName(k) ==> j == k
  {
    if j != k {
      match j
      case HrHigh => assert KindName(j)[1] == 'r' && KindName(j)[3] == 'h';
      case HrLow => assert KindName(j)[1] == 'r' && KindName(j)[3] == 'l';
      case TempHigh => assert KindName(j)[1] == 'e' && KindName(j)[5] == 'h';
      case TempLow => assert KindName(j)[1] == 'e' && KindName(j)[5] == 'l';
      case Geofence => assert KindName(j)[0] == 'g';
    }
  }

  /** A pet, addressed as `/users/<uid>/pets/<petId>`. */
  datatype PetKey = PetKey(uid: string, petId: string)

  /** One timestamp slot, `/users/<uid>/pets/<petId>/last_alerts/<kind>`. */
  datatype AlertKey = AlertKey(uid: string, petId: string, kind: AlertKind)

  /** `notification_settings` of a pet. */
  datatype Settings = Settings(
    heartRateAlert: bool, minHeartRate: real, maxHeartRate: real,
    tempAlert: bool, minTemp: real, maxTemp: real)

  /** `geofence` of a pet: a centre and a radius in metres. */
  datatype Fence = Fence(latitude: real, longitude: real, radius: real)

  /** The body of a notification. The alert bodies keep the numbers they name;
      rendering them as text is not part of this model. */
  datatype Message =
    | HeartRateTooHigh(bpm: real, max: real)
    | HeartRateTooLow(bpm: real, min: real)
    | TemperatureTooHigh(celsius: real, max: real)
    | TemperatureTooLow(celsius: real, min: real)
    | LeftSafeZone(meters: int)
    | Text(text: string)

  /** A call of the dispatcher: owner, title, body, optional type, optional pet. */
  datatype Request = Request(uid: string, title: string, body: Message, kind: Option<string>, petId: Option<string>)

  /** An entry of `/users/<uid>/notifications`. */
  datatype Notification = Notification(
    title: string, message: Message, timestamp: int,
    kind: string, petId: Option<string>, source: string)

  /** A message handed to the push channel. */
  datatype Push = Push(token: string, title: string, body: Message, kind: string, petId: string, timestamp: int)

  /** A reminder record; `due` is its date as epoch milliseconds, `notes` is
      empty when the record has none. */
  datatype Reminder = Reminder(
    title: string, notes: string, due: int, completed: bool,
    oneHourNotifSent: bool, dayNotifSent: bool, tomorrowNotifSent: bool)

  /** A reminder together with the path it is stored at,
      `/users/<uid>/pets/<petId>/reminders/<id>`. */
  datatype ReminderEntry = ReminderEntry(uid: string, petId: string, id: string, reminder: Reminder)
}
