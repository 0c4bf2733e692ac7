/** The motion classifier: two telemetry flags to one of three categories. */
module Motion {

  datatype MotionStatus = Moving | Idling | Parked

  /** The string the handler stores for each category. */
  function Name(m: MotionStatus): string
  {
    match m
    case Moving => "moving"
    case Idling => "idling"
    case Parked => "parked"
  }

  /** Distinct categories have distinct names, so comparing names compares categories. */
  lemma NameInjective(a: MotionStatus, b: MotionStatus)
    ensures Name(a) == Name(b) <==> a == b
  {
  }

  /**
    The decision table, row by row: which flag values each category stands
    for. Motion detected means moving whatever the ignition; otherwise the
    ignition separates idling from parked.
  */
  predicate Describes(m: MotionStatus, ignition: bool, motion: bool)
  {
    match m
    case Moving => motion
    case Idling => !motion && ignition
    case Parked => !motion && !ignition
  }

  /** The classifier, written as the handler's `if`/`else if`/`else` chain. */
  function Classify(ignition: bool, motion: bool): (m: MotionStatus)
    ensures Describes(m, ignition, motion)
  {
    if motion then Moving
    else if ignition then Idling
    else Parked
  }

  /** The table has exactly one row for every pair of flags: the classifier picks it. */
  lemma ClassifyIsUniqueDescription(m: MotionStatus, ignition: bool, motion: bool)
    ensures Describes(m, ignition, motion) <==> Classify(ignition, motion) == m
  {
  }

  /** Motion dominates: with motion detected the ignition is irrelevant. */
  lemma MotionDominates(ignition: bool)
    ensures Classify(ignition, true) == Moving
  {
  }

  /** Every category is the outcome of some pair of flags. */
  lemma ClassifyOnto(m: MotionStatus)
    ensures exists ignition: bool, motion: bool :: Classify(ignition, motion) == m
  {
    match m
    case Moving => assert Classify(false, true) == Moving;
    case Idling => assert Classify(true, false) == Idling;
    case Parked => assert Classify(false, false) == Parked;
  }
}
