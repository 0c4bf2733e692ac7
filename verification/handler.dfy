/**
  One invocation of the motion status handler on one position: look the
  device up, classify the position's telemetry, record a transition on the
  device and in storage, and copy the device's status onto the position.

  The device cache lookup is the `cached` input, the wall clock is `now`,
  and whether the storage update succeeds is `storageOk`. Storage updates
  and callback signals are returned as traces instead of being performed.
*/
module Handler {

  import opened Wrappers
  import opened Telemetry
  import opened Motion

  const IgnitionKey := "ignition"
  const MotionKey := "motion"
  const MotionStatusKey := "motionStatus"
  const MotionStatusChangedKey := "motionStatusChanged"

  /** The two device columns the handler updates, in the order it lists them. */
  const UpdatedColumns := [MotionStatusKey, MotionStatusChangedKey]

  /** The device record: a null status or change time is `None`. */
  datatype Device = Device(id: int, motionStatus: Option<string>, motionStatusChanged: Option<Time>)

  datatype Position = Position(deviceId: int, fixTime: Option<Time>, attributes: Attributes)

  /** A partial storage update: set `columns` of the row whose `id` is `matchId` from `record`. */
  datatype Update = Update(record: Device, columns: seq<string>, matchId: int)

  /**
    What one invocation leaves behind: the cached device after the call, the
    position's attributes, the storage updates issued and the arguments of
    every `callback.processed` signal.
  */
  datatype StepResult = StepResult(device: Option<Device>, attributes: Attributes, updates: seq<Update>, callbacks: seq<bool>)

  /** The status the position's telemetry stands for. */
  function PositionStatus(attrs: Attributes): (m: MotionStatus)
    ensures Describes(m, Flag(attrs, IgnitionKey), Flag(attrs, MotionKey))
  {
    Classify(Flag(attrs, IgnitionKey), Flag(attrs, MotionKey))
  }

  /** The change time of a transition: the fix time, or the processing time when the position has none. */
  function ChangeTime(fixTime: Option<Time>, now: Time): Time
  {
    match fixTime
    case Some(t) => t
    case None => now
  }

  /** A position whose `motion` attribute is Boolean true is moving, whatever its `ignition` attribute holds. */
  lemma MotionAttributeDominates(attrs: Attributes)
    requires MotionKey in attrs && attrs[MotionKey] == Bool(true)
    ensures PositionStatus(attrs) == Moving
  {
  }

  /** The device's stored status text differs from the new category (a null counts as different). */
  predicate IsTransition(d: Device, m: MotionStatus)
  {
    d.motionStatus != Some(Name(m))
  }

  /** For a device whose stored text is a category name, a transition is exactly a change of category. */
  lemma TransitionIffCategoryChanges(d: Device, previous: MotionStatus, m: MotionStatus)
    requires d.motionStatus == Some(Name(previous))
    ensures IsTransition(d, m) <==> previous != m
  {
    NameInjective(previous, m);
  }

  /**
    The change detector: the device after seeing status `m`. On a transition
    the status becomes `m` and the change time the fix time, or the
    processing time when the position has none; otherwise nothing changes.
  */
  function Detect(d: Device, m: MotionStatus, fixTime: Option<Time>, now: Time): (d': Device)
    ensures d'.id == d.id
    ensures d'.motionStatus == Some(Name(m))
    ensures !IsTransition(d, m) ==> d' == d
    ensures IsTransition(d, m) && fixTime.Some? ==> d'.motionStatusChanged == fixTime
    ensures IsTransition(d, m) && fixTime.None? ==> d'.motionStatusChanged == Some(now)
  {
    if IsTransition(d, m) then
      d.(motionStatus := Some(Name(m)), motionStatusChanged := Some(ChangeTime(fixTime, now)))
    else
      d
  }

  /** The attribute value of an optional device status. */
  function StatusValue(s: Option<string>): Value
  {
    match s
    case Some(text) => Text(text)
    case None => Null
  }

  /** The attribute value of an optional change time. */
  function TimeValue(t: Option<Time>): Value
  {
    match t
    case Some(time) => Date(time)
    case None => Null
  }

  /**
    `a` is `attrs` with the device's status and change time stored under
    their two keys and every other key left as it was.
  */
  ghost predicate Enriched(attrs: Attributes, a: Attributes, d: Device)
  {
    && a.Keys == attrs.Keys + {MotionStatusKey, MotionStatusChangedKey}
    && a[MotionStatusKey] == StatusValue(d.motionStatus)
    && a[MotionStatusChangedKey] == TimeValue(d.motionStatusChanged)
    && forall k :: k in attrs && k != MotionStatusKey && k != MotionStatusChangedKey ==> a[k] == attrs[k]
  }

  /** The attribute write-back: two `put` calls, status first. */
  function Enrich(attrs: Attributes, d: Device): (a: Attributes)
    ensures Enriched(attrs, a, d)
  {
    attrs[MotionStatusKey := StatusValue(d.motionStatus)][MotionStatusChangedKey := TimeValue(d.motionStatusChanged)]
  }

  /** Writing back the same device twice is the same as writing it back once. */
  lemma EnrichIdempotent(attrs: Attributes, d: Device)
    ensures Enrich(Enrich(attrs, d), d) == Enrich(attrs, d)
  {
  }

  /** The write-back leaves the telemetry flags as they were, so the position still classifies the same. */
  lemma EnrichKeepsStatus(attrs: Attributes, d: Device)
    ensures PositionStatus(Enrich(attrs, d)) == PositionStatus(attrs)
  {
    FlagFrame(attrs, IgnitionKey, MotionStatusKey, StatusValue(d.motionStatus));
    FlagFrame(attrs, MotionKey, MotionStatusKey, StatusValue(d.motionStatus));
    var a1 := attrs[MotionStatusKey := StatusValue(d.motionStatus)];
    FlagFrame(a1, IgnitionKey, MotionStatusChangedKey, TimeValue(d.motionStatusChanged));
    FlagFrame(a1, MotionKey, MotionStatusChangedKey, TimeValue(d.motionStatusChanged));
  }

  /** The invocation reaches the attribute write-back: the device is known and no storage update failed. */
  predicate WritesBack(cached: Option<Device>, pos: Position, storageOk: bool)
  {
    cached.Some? && (storageOk || !IsTransition(cached.value, PositionStatus(pos.attributes)))
  }

  /**
    One call of `onPosition`. An unknown device leaves everything alone. A
    known device is moved to the position's status; only a transition
    issues an update, of the two motion columns of that device's row. If that
    update fails the device stays changed but the attributes are not written
    back. On every path the callback is signalled exactly once, with `false`.
  */
  function Step(cached: Option<Device>, pos: Position, now: Time, storageOk: bool): (r: StepResult)
    ensures r.callbacks == [false]
    ensures cached.None? ==> r.device.None? && r.attributes == pos.attributes && r.updates == []
    ensures cached.Some? ==>
      var d, m := cached.value, PositionStatus(pos.attributes);
      && r.device.Some?
      && r.device.value.id == d.id
      && r.device.value.motionStatus == Some(Name(m))
      && (!IsTransition(d, m) ==> r.device == cached && r.updates == [])
      && (IsTransition(d, m) ==>
            && (pos.fixTime.Some? ==> r.device.value.motionStatusChanged == pos.fixTime)
            && (pos.fixTime.None? ==> r.device.value.motionStatusChanged == Some(now))
            && r.updates == [Update(r.device.value, [MotionStatusKey, MotionStatusChangedKey], d.id)])
    ensures WritesBack(cached, pos, storageOk) ==> Enriched(pos.attributes, r.attributes, r.device.value)
    ensures !WritesBack(cached, pos, storageOk) ==> r.attributes == pos.attributes
  {
    match cached
    case None => StepResult(None, pos.attributes, [], [false])
    case Some(d) =>
      var m := PositionStatus(pos.attributes);
      var d' := Detect(d, m, pos.fixTime, now);
      var updates := if IsTransition(d, m) then [Update(d', UpdatedColumns, d'.id)] else [];
      var attrs := if IsTransition(d, m) && !storageOk then pos.attributes else Enrich(pos.attributes, d');
      StepResult(Some(d'), attrs, updates, [false])
  }
}
