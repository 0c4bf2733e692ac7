# Motion status handler — Dafny model

This project models the motion status step of the traccar position pipeline,
`MotionStatusHandler.onPosition`. The handler runs once for each incoming
position and does three things:

- It classifies the position's `ignition` and `motion` telemetry as `moving`,
  `idling` or `parked`.
- It compares that status with the device's stored `motionStatus`. On a
  difference it moves the device to the new status and stamps
  `motionStatusChanged` with the fix time. When the fix has no time, it uses
  the processing time. It then issues a partial storage update of those two
  columns.
- It copies the device's resulting status and change time into the
  position's attribute map.

Modules:

- `Wrappers`: `Option`, standing for Java references that may be null.
- `Telemetry`: attribute values, the attribute map, and the
  `Boolean.TRUE.equals` flag read.
- `Motion`: the three categories, their stored names, and the classifier
  with its decision table.
- `Handler`: the device and position records, the change detector, the
  attribute write-back and one whole invocation (`Step`).
- `HandlerProperties`: idempotence, re-processing, storage failure, a
  device's first observation, and two worked scenarios: a parked device
  seeing ignition on, and a late fix moving the change time back.
- `History`: the handler run over a sequence of fixes for one device, with
  one update counted per transition.

The inputs that come from outside become parameters. The device-cache lookup
is the `cached: Option<Device>` argument. The wall clock (`new Date()`) is
`now`. Whether `storage.updateObject` throws is `storageOk`. Each storage
update is returned as an `Update` value, naming the record, the columns and
the matched `id`. The `callback.processed(...)` signals are returned as the
list of their arguments.

Behaviours of the code worth knowing (line numbers refer to
`src/main/java/org/traccar/handler/MotionStatusHandler.java`):

- The cached device is changed at lines 51-52, before the storage update at
  line 54. An update that fails is caught at line 63, so the device stays
  changed and the attribute write-back at lines 60-61 is skipped.
  `HandlerProperties.FailedUpdateKeepsCachedChange` states this.
- The change time is taken from the fix without any check against the
  previous change time, so a late fix whose status differs from the stored
  one sets the change time to its older fix time, moving it backwards.
  `HandlerProperties.ChangeTimeCanMoveBackwards` states this. A late fix
  whose status equals the stored one leaves the change time alone
  (`HandlerProperties.LateSameStatusKeepsChangeTime`).
- A position whose device is unknown gets no status: the handler returns at
  lines 32-35 before classifying, and its attributes are left untouched.

## Model

| member | source | states |
|---|---|---|
| Telemetry.Flag | src/main/java/org/traccar/handler/MotionStatusHandler.java:37-38 | a flag reads true if and only if the key is present and holds Boolean true; an absent key or a non-Boolean value reads false |
| Telemetry.NonTrueReadsAsAbsent | src/main/java/org/traccar/handler/MotionStatusHandler.java:37-38 | any stored value other than Boolean true reads exactly like an absent key, i.e. false |
| Telemetry.FlagFrame | src/main/java/org/traccar/handler/MotionStatusHandler.java:37-38 | storing under another key does not change how a flag reads |
| Motion.NameInjective | src/main/java/org/traccar/handler/MotionStatusHandler.java:43-50 | the three stored names are distinct, so the string comparison at line 50 compares categories |
| Motion.Classify | src/main/java/org/traccar/handler/MotionStatusHandler.java:41-48 | the chosen category is the decision-table row that matches the two flags |
| Motion.ClassifyIsUniqueDescription | src/main/java/org/traccar/handler/MotionStatusHandler.java:41-48 | a category matches the flags if and only if the classifier picks it, so the table has exactly one row per flag pair |
| Motion.MotionDominates | src/main/java/org/traccar/handler/MotionStatusHandler.java:42-43 | with motion set the status is moving whatever the ignition |
| Motion.ClassifyOnto | src/main/java/org/traccar/handler/MotionStatusHandler.java:41-48 | each of moving, idling and parked is produced by some pair of flags |
| Handler.MotionAttributeDominates | src/main/java/org/traccar/handler/MotionStatusHandler.java:38-43 | a position whose `motion` attribute is Boolean true is moving, whatever its `ignition` attribute holds |
| Handler.PositionStatus | src/main/java/org/traccar/handler/MotionStatusHandler.java:37-48 | the position's status is the table row matching its ignition and motion flags as read by `Boolean.TRUE.equals` |
| Handler.TransitionIffCategoryChanges | src/main/java/org/traccar/handler/MotionStatusHandler.java:50 | for a device storing a category name, a transition happens exactly when the category changes |
| Handler.Detect | src/main/java/org/traccar/handler/MotionStatusHandler.java:50-52 | the device always ends in the new status with the same id; a transition means the stored status text differs from the new category's name ("moving", "idling" or "parked"), a null stored status counting as different; with no transition the device is unchanged; on a transition the change time is the fix time, else the processing time |
| Handler.Enrich | src/main/java/org/traccar/handler/MotionStatusHandler.java:60-61 | the attributes gain the device's status and change time under their two keys, a null becoming a null value; every other key is kept |
| Handler.EnrichIdempotent | src/main/java/org/traccar/handler/MotionStatusHandler.java:60-61 | writing the same device back twice equals writing it back once |
| Handler.EnrichKeepsStatus | src/main/java/org/traccar/handler/MotionStatusHandler.java:37-61 | the write-back does not change the position's classified status |
| Handler.Step | src/main/java/org/traccar/handler/MotionStatusHandler.java:29-67 | callback signalled once with false on every path; unknown device: nothing changes, no update; no transition (stored status text equals the new category's name): device unchanged, no update; transition (stored text differs or is null): new status, change time = fix time or now, exactly one update of the two motion columns of that device's row; attributes enriched unless the update failed |
| HandlerProperties.StepIdempotent | src/main/java/org/traccar/handler/MotionStatusHandler.java:50-61 | a second run with the same position leaves the device as the first left it, issues no update, and after a successful first run yields the same attributes |
| HandlerProperties.ReprocessingIsStable | src/main/java/org/traccar/handler/MotionStatusHandler.java:37-61 | feeding the enriched position back gives the same device and attributes and no update |
| HandlerProperties.FirstObservationTransitions | src/main/java/org/traccar/handler/MotionStatusHandler.java:50-61 | a device with no stored status always transitions to the fix's own status and time, with one update |
| HandlerProperties.FailedUpdateKeepsCachedChange | src/main/java/org/traccar/handler/MotionStatusHandler.java:50-65 | when the update fails, the cached device already holds the change detector's new status and time, one update was issued, and the attributes are untouched |
| HandlerProperties.IgnitionOnIdlingScenario | src/main/java/org/traccar/handler/MotionStatusHandler.java:37-61 | a parked device seeing ignition on without motion becomes idling at the fix time, whatever its earlier change time, with one update and the pair on the position |
| HandlerProperties.ChangeTimeCanMoveBackwards | src/main/java/org/traccar/handler/MotionStatusHandler.java:52 | a late fix whose status differs from the stored one sets the change time to its older fix time |
| HandlerProperties.LateSameStatusKeepsChangeTime | src/main/java/org/traccar/handler/MotionStatusHandler.java:50-52 | a late fix whose status equals the stored one leaves the change time as it was |
| History.Replay | src/main/java/org/traccar/handler/MotionStatusHandler.java:50-57 | across a sequence of fixes of the device the device keeps its id, ends in the last fix's status, and every update targets its own row and the two motion columns |
| History.ReplayChangeTime | src/main/java/org/traccar/handler/MotionStatusHandler.java:50-52 | after a run of fixes the change time is that of the last fix whose status differs from the one before it (its fix time, else its processing time), or the starting change time when no fix changes the status |
| History.UpdatesCountTransitions | src/main/java/org/traccar/handler/MotionStatusHandler.java:50-57 | the number of updates equals the number of status transitions in the observed sequence |
| History.SteadyStatusNeverWrites | src/main/java/org/traccar/handler/MotionStatusHandler.java:50-57 | any number of fixes repeating the device's current status leave the device unchanged and issue no update |
| History.ReplayAppend | src/main/java/org/traccar/handler/MotionStatusHandler.java:50-61 | replaying two stretches of fixes one after the other equals replaying them together |
| History.ParkedMovingMovingScenario | src/main/java/org/traccar/handler/MotionStatusHandler.java:50-57 | parked, moving, moving: the change time is the second fix's and stays there on the third, with one update |

## Left out

- Device-cache lookup (`CacheManager.getObject`, line 31): it is the `cached` input, not a cache.
- Persistence by `storage.updateObject` (line 54): it is a recorded `Update`, and `storageOk` says whether it throws. The `storage` field is not declared in the handler file, so its type is not part of this model.
- The callback is assumed not to throw; a throwing callback at line 33 would be caught at line 63 and signalled again at line 66.
- Only the storage update is modelled as able to fail. Other exceptions caught at line 63, such as a null attribute map, are not modelled.
- Logging (line 64): it has no behaviour to model.
- The commented-out speed read (line 39): it is not code.
- The trips report provider (`src/main/java/org/traccar/reports/TripsReportProvider.java`): it only delegates to trip detection, access checks, storage queries and template rendering, none of which is part of this model.
- The alternative tracker that reads the previous status from the device's last position is not part of this model. It does not appear in the handler source.
- Concurrent invocations are not modelled: calls for one device are assumed not to overlap, because the handler changes the shared cached device without locking and the caller's scheduling is not part of this model.
- History.Replay: it assumes every storage update succeeds. Failing updates are covered for a single invocation by `Handler.Step`.
