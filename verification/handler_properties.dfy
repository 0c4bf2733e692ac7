/** Properties relating several invocations of the handler. */
module HandlerProperties {

  import opened Wrappers
  import opened Telemetry
  import opened Motion
  import opened Handler

  /**
    Idempotence: a second invocation with the same position on the device the
    first one left behind changes nothing and issues no update, whatever the
    clock says and whether storage would fail. When the first invocation
    wrote the attributes back, the second yields the same attributes.
  */
  lemma StepIdempotent(cached: Option<Device>, pos: Position, now1: Time, now2: Time, ok1: bool, ok2: bool)
    ensures
      var r1 := Step(cached, pos, now1, ok1);
      var r2 := Step(r1.device, pos, now2, ok2);
      && r2.device == r1.device
      && r2.updates == []
      && (WritesBack(cached, pos, ok1) ==> r2.attributes == r1.attributes)
  {
    var r1 := Step(cached, pos, now1, ok1);
    if cached.Some? {
      var m := PositionStatus(pos.attributes);
      assert !IsTransition(r1.device.value, m);
    }
  }

  /**
    Feeding the enriched position back through the handler on the device
    the first invocation left behind returns the same position and device,
    with no update.
  */
  lemma ReprocessingIsStable(cached: Option<Device>, pos: Position, now1: Time, now2: Time, ok1: bool, ok2: bool)
    requires WritesBack(cached, pos, ok1)
    ensures
      var r1 := Step(cached, pos, now1, ok1);
      var r2 := Step(r1.device, pos.(attributes := r1.attributes), now2, ok2);
      && r2.device == r1.device
      && r2.updates == []
      && r2.attributes == r1.attributes
  {
    var r1 := Step(cached, pos, now1, ok1);
    var d' := r1.device.value;
    assert r1.attributes == Enrich(pos.attributes, d');
    EnrichKeepsStatus(pos.attributes, d');
    EnrichIdempotent(pos.attributes, d');
  }

  /**
    A device with no stored status (its first observation) always sees a
    transition: it takes the fix's own status and time, with one update.
  */
  lemma FirstObservationTransitions(d: Device, pos: Position, now: Time)
    requires d.motionStatus.None?
    ensures
      var r := Step(Some(d), pos, now, true);
      && r.device == Some(d.(motionStatus := Some(Name(PositionStatus(pos.attributes))),
                             motionStatusChanged := Some(ChangeTime(pos.fixTime, now))))
      && |r.updates| == 1
      && r.attributes[MotionStatusKey] == Text(Name(PositionStatus(pos.attributes)))
      && r.attributes[MotionStatusChangedKey] == Date(ChangeTime(pos.fixTime, now))
  {
  }

  /**
    A failed storage update leaves the cached device already moved to the
    new status while the position keeps its old attributes: the cache and
    storage can disagree.
  */
  lemma FailedUpdateKeepsCachedChange(d: Device, pos: Position, now: Time)
    requires IsTransition(d, PositionStatus(pos.attributes))
    ensures
      var r := Step(Some(d), pos, now, false);
      && r.device == Some(Detect(d, PositionStatus(pos.attributes), pos.fixTime, now))
      && r.device != Some(d)
      && |r.updates| == 1
      && r.attributes == pos.attributes
  {
  }

  /**
    A parked device with change time `t0` sees a fix with ignition on, no
    motion and fix time `t1`: it becomes idling at `t1`, with one update of
    its two motion columns, and the position carries the pair.
  */
  lemma IgnitionOnIdlingScenario(id: int, t0: Time, t1: Time, now: Time)
    ensures
      var d := Device(id, Some("parked"), Some(t0));
      var pos := Position(id, Some(t1), map[IgnitionKey := Bool(true), MotionKey := Bool(false)]);
      var r := Step(Some(d), pos, now, true);
      && r.device == Some(Device(id, Some("idling"), Some(t1)))
      && r.updates == [Update(Device(id, Some("idling"), Some(t1)), ["motionStatus", "motionStatusChanged"], id)]
      && r.attributes[MotionStatusKey] == Text("idling")
      && r.attributes[MotionStatusChangedKey] == Date(t1)
  {
    var pos := Position(id, Some(t1), map[IgnitionKey := Bool(true), MotionKey := Bool(false)]);
    assert Flag(pos.attributes, IgnitionKey);
    assert !Flag(pos.attributes, MotionKey);
  }

  /**
    The change time is taken from the fix as it comes: a late fix whose
    status differs from the stored one sets the change time to its own
    fix time, even when that is older than the stored change time.
  */
  lemma ChangeTimeCanMoveBackwards(d: Device, pos: Position, now: Time, ok: bool, t0: Time, t: Time)
    requires IsTransition(d, PositionStatus(pos.attributes))
    requires d.motionStatusChanged == Some(t0) && pos.fixTime == Some(t) && t < t0
    ensures Step(Some(d), pos, now, ok).device.value.motionStatusChanged == Some(t)
  {
  }

  /** A late fix whose status equals the stored one leaves the change time alone. */
  lemma LateSameStatusKeepsChangeTime(d: Device, pos: Position, now: Time, ok: bool, t0: Time, t: Time)
    requires !IsTransition(d, PositionStatus(pos.attributes))
    requires d.motionStatusChanged == Some(t0) && pos.fixTime == Some(t) && t < t0
    ensures Step(Some(d), pos, now, ok).device.value.motionStatusChanged == Some(t0)
  {
  }
}
