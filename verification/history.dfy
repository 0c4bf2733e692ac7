/**
  A device's history: the handler invoked on a sequence of positions for one
  known device, each with its own processing time, storage always succeeding.
*/
module History {

  import opened Wrappers
  import opened Telemetry
  import opened Motion
  import opened Handler

  /** One invocation: the position handed in and the wall clock when it was processed. */
  datatype Fix = Fix(pos: Position, now: Time)

  /** Every fix is a position of device `d`, the one the cache lookup returned. */
  predicate FixesOf(d: Device, fixes: seq<Fix>)
  {
    forall i :: 0 <= i < |fixes| ==> fixes[i].pos.deviceId == d.id
  }

  /** The statuses the fixes classify to, in order. */
  function Observed(fixes: seq<Fix>): seq<MotionStatus>
  {
    seq(|fixes|, i requires 0 <= i < |fixes| => PositionStatus(fixes[i].pos.attributes))
  }

  /**
    The number of transitions in a status sequence that follows the stored
    status `previous`: every element whose name differs from what precedes it.
  */
  function Transitions(previous: Option<string>, ms: seq<MotionStatus>): nat
    decreases |ms|
  {
    if |ms| == 0 then 0
    else (if previous != Some(Name(ms[0])) then 1 else 0) + Transitions(Some(Name(ms[0])), ms[1..])
  }

  /**
    The device after the fixes and every update issued along the way. Every
    update targets the device's own row and sets exactly the two motion
    columns, and the device's identity never changes.
  */
  function Replay(d: Device, fixes: seq<Fix>): (r: (Device, seq<Update>))
    requires FixesOf(d, fixes)
    ensures r.0.id == d.id
    ensures forall u :: u in r.1 ==> u.matchId == d.id && u.record.id == d.id && u.columns == UpdatedColumns
    ensures |fixes| > 0 ==> r.0.motionStatus == Some(Name(PositionStatus(fixes[|fixes| - 1].pos.attributes)))
    ensures |fixes| == 0 ==> r == (d, [])
    decreases |fixes|
  {
    if |fixes| == 0 then (d, [])
    else
      var s := Step(Some(d), fixes[0].pos, fixes[0].now, true);
      var rest := Replay(s.device.value, fixes[1..]);
      (rest.0, s.updates + rest.1)
  }

  /** Exactly one update per transition in the observed statuses. */
  lemma {:induction false} UpdatesCountTransitions(d: Device, fixes: seq<Fix>)
    requires FixesOf(d, fixes)
    ensures |Replay(d, fixes).1| == Transitions(d.motionStatus, Observed(fixes))
    decreases |fixes|
  {
    if |fixes| > 0 {
      var s := Step(Some(d), fixes[0].pos, fixes[0].now, true);
      UpdatesCountTransitions(s.device.value, fixes[1..]);
      assert Observed(fixes)[1..] == Observed(fixes[1..]);
    }
  }

  /**
    A device already in status `m`, fed any number of fixes that all
    classify to `m`, is left exactly as it was and storage is never written.
  */
  lemma {:induction false} SteadyStatusNeverWrites(d: Device, m: MotionStatus, fixes: seq<Fix>)
    requires FixesOf(d, fixes)
    requires d.motionStatus == Some(Name(m))
    requires forall i :: 0 <= i < |fixes| ==> PositionStatus(fixes[i].pos.attributes) == m
    ensures Replay(d, fixes) == (d, [])
    decreases |fixes|
  {
    if |fixes| > 0 {
      var s := Step(Some(d), fixes[0].pos, fixes[0].now, true);
      assert s.device == Some(d) && s.updates == [];
      SteadyStatusNeverWrites(d, m, fixes[1..]);
      assert s.updates + Replay(d, fixes[1..]).1 == [];
    }
  }

  /**
    Replaying two stretches of fixes one after the other is replaying them
    together: the device carries all the handler's state between invocations.
  */
  lemma {:induction false} ReplayAppend(d: Device, xs: seq<Fix>, ys: seq<Fix>)
    requires FixesOf(d, xs) && FixesOf(d, ys)
    ensures
      var a := Replay(d, xs);
      var b := Replay(a.0, ys);
      Replay(d, xs + ys) == (b.0, a.1 + b.1)
    decreases |xs|
  {
    if |xs| > 0 {
      var s := Step(Some(d), xs[0].pos, xs[0].now, true);
      assert (xs + ys)[1..] == xs[1..] + ys;
      ReplayAppend(s.device.value, xs[1..], ys);
      var a' := Replay(s.device.value, xs[1..]);
      var b := Replay(a'.0, ys);
      assert s.updates + (a'.1 + b.1) == (s.updates + a'.1) + b.1;
    } else {
      assert xs + ys == ys;
      assert Replay(d, xs).1 + Replay(d, ys).1 == Replay(d, ys).1;
    }
  }

  /**
    The change time a device ends with after the fixes, computed from the
    statuses alone: the change time of the last fix whose status differs
    from the one before it, or the starting change time when none does.
  */
  function LastChange(status: Option<string>, changed: Option<Time>, fixes: seq<Fix>): Option<Time>
    decreases |fixes|
  {
    if |fixes| == 0 then changed
    else
      var name := Name(PositionStatus(fixes[0].pos.attributes));
      if status != Some(name) then
        LastChange(Some(name), Some(ChangeTime(fixes[0].pos.fixTime, fixes[0].now)), fixes[1..])
      else
        LastChange(status, changed, fixes[1..])
  }

  /** Over a whole history the change time moves only on a transition, to that fix's time. */
  lemma {:induction false} ReplayChangeTime(d: Device, fixes: seq<Fix>)
    requires FixesOf(d, fixes)
    ensures Replay(d, fixes).0.motionStatusChanged == LastChange(d.motionStatus, d.motionStatusChanged, fixes)
    decreases |fixes|
  {
    if |fixes| > 0 {
      var s := Step(Some(d), fixes[0].pos, fixes[0].now, true);
      ReplayChangeTime(s.device.value, fixes[1..]);
    }
  }

  /**
    Parked, then moving, then moving again: the change time becomes the
    second fix's time (or its processing time when it has none) and stays
    there on the third fix, with one update for the first two fixes' change.
  */
  lemma ParkedMovingMovingScenario(d: Device, f1: Fix, f2: Fix, f3: Fix)
    requires FixesOf(d, [f1, f2, f3])
    requires d.motionStatus == Some("parked")
    requires PositionStatus(f1.pos.attributes) == Parked
    requires PositionStatus(f2.pos.attributes) == Moving
    requires PositionStatus(f3.pos.attributes) == Moving
    ensures
      var r := Replay(d, [f1, f2, f3]);
      && r.0.motionStatus == Some("moving")
      && r.0.motionStatusChanged == Some(ChangeTime(f2.pos.fixTime, f2.now))
      && |r.1| == 1
  {
    var s1 := Step(Some(d), f1.pos, f1.now, true);
    assert s1.device == Some(d) && s1.updates == [];
    var s2 := Step(Some(d), f2.pos, f2.now, true);
    var d2 := s2.device.value;
    assert d2.motionStatus == Some("moving") && |s2.updates| == 1;
    var s3 := Step(Some(d2), f3.pos, f3.now, true);
    assert s3.device == Some(d2) && s3.updates == [];
    assert [f1, f2, f3][1..] == [f2, f3];
    assert [f2, f3][1..] == [f3];
    assert [f3][1..] == [];
    assert s3.updates + Replay(d2, []).1 == [];
    assert Replay(d2, [f3]) == (d2, []);
    assert s2.updates + [] == s2.updates;
    assert Replay(d, [f2, f3]) == (d2, s2.updates);
    assert s1.updates + s2.updates == s2.updates;
  }
}
