# cron-hpa in Dafny

A model of the core of cron-hpa, a Kubernetes controller. Its
CronHorizontalPodAutoscaler resource holds three things:

- an HPA template;
- a list of scheduled patches, each with a cron schedule, an optional time zone and a partial override of the template's spec;
- a status that records when the last cron decision was applied.

The model covers three parts of the controller:

- **The job registry** (`controllers/cron.go`). It maps a resource key
  `namespace/name` to a map from patch name to scheduler entry ID, and it wraps
  the cron scheduler. The scheduler is modelled by its entry IDs, issued 1, 2, 3, …,
  and its live entries. The model is the class `Registry.Cron`. Each method is
  proved against a function on the value `Registry.State`, and the registry
  invariant `ValidState` holds: every stored ID is live, no ID is stored twice,
  and every live ID was issued.
- **The CronHPA methods** (`controllers/cronhpa.go`). The class
  `Controllers.CronHorizontalPodAutoscaler` has the same methods as the source:
  - `GetCurrentPatchName`: the bounded search for the last activation of each
    schedule, and the choice of the latest one;
  - `ApplyHPAPatch` and `NewHPA`: override the template with a patch;
  - `UpdateSchedules` and `ClearSchedules`: reschedule or unschedule the patches;
  - `CreateOrPatchHPA`: create, keep or patch the HPA, then record an event and
    stamp the status;
  - `ToNamespacedName`.

  Each method is proved against a specification function in one of these modules:
  - `Resolution.Resolve`;
  - `Patching.PatchSpec` and `Patching.DesiredSpec`;
  - `Scheduling.UpdatedSchedules`;
  - `Decision.CreateOrPatch`.

  The lemmas in those modules state what the functions mean: for example, the
  latest firing patch wins, errors stop the call, the desired spec is kept after
  a run, and patching is idempotent.
- **The API types** (`api/v1alpha1/cronhorizontalpodautoscaler_types.go`). They
  are datatypes in `V1alpha1`, with optional fields as `Option`. The validation
  markers on a scheduled patch's name are written as predicates.

The cron library (github.com/robfig/cron) is a parameter, `CronLib.CronLibrary`:
- a `parse` function from schedule strings to schedules;
- a `next` function from a schedule and an instant to the next activation.

The general theorems assume only one fact about it: `next` lies strictly after
the instant it is given (`NextIsLater`), a precondition wherever it is used.
The two scenario lemmas (`RegistryScenarioAdds`, `WeekdayWeekendScenario`) also
assume the library's answers for their concrete schedule strings.
Instants are integers. The Kubernetes client is reduced to a few parts:
- the stored HPA specs and CronHPA statuses, as maps on the `Controllers.Reconciler`;
- the event recorder, as a sequence of events;
- a `Decision.Faults` value that says which client calls fail.

## Model

| member | source | states |
|---|---|---|
| Registry.ResourceEntryNameRoundTrip | controllers/cron.go:116-118 | the key `namespace/name` reads back as the resource when the namespace has no '/' |
| Registry.ResourceEntryNameInjective | controllers/cron.go:116-118 | distinct resources whose namespaces have no '/' get distinct keys |
| Registry.AddedRecordsFreshId | controllers/cron.go:57-73 | Add fails exactly when the schedule does not parse; on success the patch maps to the new ID lastId + 1, which was not live, the new entry runs the job, and the registry invariant is kept |
| Registry.AddedFailureRecordsNoPatch | controllers/cron.go:61-70 | a failed Add issues no ID and records no patch, but the resource's key has been inserted (empty if it was unknown) |
| Registry.AddedFrame | controllers/cron.go:61-71 | Add changes only its own patch key: other patches of the resource and other resources are unchanged |
| Registry.AddedOverwriteLeavesOldJobLive | controllers/cron.go:67-71 | re-adding a stored patch replaces its ID and leaves the old entry live with no key referring to it |
| Registry.RemovedDeletesPatch | controllers/cron.go:75-88 | Remove deletes the key, unschedules exactly its entry, leaves other resources unchanged and keeps the invariant |
| Registry.RemovedAbsentIsNoOp | controllers/cron.go:79-87 | removing an absent patch, or one from an unknown resource, changes nothing |
| Registry.RemovedIdempotent | controllers/cron.go:75-88 | removing twice is the same as removing once |
| Registry.ResourceEntryRemovedClears | controllers/cron.go:90-102 | RemoveResourceEntry unschedules every stored ID of the resource, after which its listing is empty; other resources are unchanged and the invariant is kept |
| Registry.RegistryScenarioAdds | controllers/cron_test.go:26-65 | three adds for ns/foo get IDs 1, 2, 3 and one for ns/bar gets 4 |
| Registry.RegistryScenarioRemoves | controllers/cron_test.go:67-80 | removing patch-1 leaves patch-2 and patch-3; a misspelt name changes nothing; clearing ns/foo lists it empty and leaves ns/bar alone |
| Registry.Cron.constructor | controllers/cron.go:35-41 | a new registry is empty, with no ID issued, and valid |
| Registry.Cron.AddJob | controllers/cron.go:67-70 | the scheduler's AddJob: a parse error, or the next ID bound to a new live entry |
| Registry.Cron.RemoveJob | controllers/cron.go:84 | the scheduler's Remove: the entry is no longer live |
| Registry.Cron.Add | controllers/cron.go:57-73 | the new state and error are those of `Added`, and the invariant is kept |
| Registry.Cron.Remove | controllers/cron.go:75-88 | the new state is that of `Removed`, and the invariant is kept |
| Registry.Cron.RemoveResourceEntry | controllers/cron.go:90-102 | the loop over stored IDs unschedules each one; the new state is that of `ResourceEntryRemoved` |
| Registry.Cron.ListResourceEntry | controllers/cron.go:104-114 | returns the resource's map, or the empty map for an unknown resource |
| V1alpha1.UnanchoredPatternIsWeaker | api/v1alpha1/cronhorizontalpodautoscaler_types.go:72-76 | every name made only of `[a-zA-Z0-9-]` passes the unanchored pattern, and the pattern also admits "a b" |
| Resolution.ScheduleSpecRoundTrip | controllers/cronhpa.go:153-156 | the zone and the schedule can be read back from the `CRON_TZ=` string given to the parser |
| Resolution.ScanFrom | controllers/cronhpa.go:161-172 | the inner loop's result is the start instant or one at or before now; its only error is the exhausted search for that patch |
| Resolution.LatestFireTimeIsLatest | controllers/cronhpa.go:161-172 | the reference "last activation in (t, now]" is an activation, is at least every activation in the window, and the next one after it lies beyond now |
| Resolution.ScanFromMeaning | controllers/cronhpa.go:161-172 | the bounded search fails exactly when the window holds more than MaxScheduleTry activations, and otherwise returns the last activation in the window |
| Resolution.LatestInMeaning | controllers/cronhpa.go:153-172 | one patch yields InvalidSchedule, ScheduleSearchExhausted, or its last activation in (anchor, now] |
| Resolution.ResolveFrom | controllers/cronhpa.go:151-177 | the outer loop's best instant is at least the anchor; a chosen patch is declared and its instant lies in (anchor, now] |
| Resolution.ResolveFromErrors | controllers/cronhpa.go:157-160 | the call fails exactly when some patch's search fails, with the error of the first such patch |
| Resolution.ResolveFromAllOk | controllers/cronhpa.go:151-177 | a successful call has searched every patch without error |
| Resolution.ResolveFromNoWinner | controllers/cronhpa.go:173-176 | no patch is chosen exactly when no patch's result lies in (anchor, now] |
| Resolution.ResolveFromWinner | controllers/cronhpa.go:173-176 | the chosen patch's result is in the window, at least every other result in the window, and strictly later than every earlier-declared one |
| Resolution.ResolveWithoutAnchor | controllers/cronhpa.go:144-146 | with no LastCronTimestamp the answer is "" whatever patches are declared |
| Resolution.ResolveNamesLatestFiringPatch | controllers/cronhpa.go:151-183 | a non-empty answer names a declared patch that fires in the window, whose last activation is the latest, and strictly later than that of every earlier-declared firing patch |
| Resolution.ResolveEmptyWhenNothingFires | controllers/cronhpa.go:173-183 | when every schedule parses and none fires in the window, the answer is "" |
| Resolution.ResolveAnchorNotBeforeNow | controllers/cronhpa.go:173 | an anchor at or after now yields "" unless a schedule fails to parse |
| Resolution.ResolveTieGoesToEarlier | controllers/cronhpa.go:173-176 | of two patches with the same last activation in the window, the later-declared one is not chosen |
| Resolution.WeekdayWeekendScenario | controllers/cronhpa_test.go:190-225 | anchored on 09-04, the weekday patch wins on Mon 10-04, the weekend patch on Sat 10-02, and neither on Wed 09-15, given as hypotheses the library's parse results for the two schedule strings and its next activations on those days |
| Patching.FindPatch | controllers/cronhpa.go:87-96 | the index of the first patch with that name, and None exactly when no patch has it |
| Patching.PatchSpecOverridesOnlySetFields | controllers/cronhpa.go:98-112 | each of MinReplicas, MaxReplicas and Metrics takes the patch's value when set and keeps the spec's otherwise; the target and behavior are kept; an absent patch changes nothing |
| Patching.PatchSpecIdempotent | controllers/cronhpa.go:98-112 | applying the same patch twice gives the same spec as applying it once |
| Patching.DesiredSpecMeaning | controllers/cronhpa.go:116-139 | NewHPA's spec fails only for a non-empty name no patch has (UnknownPatch); otherwise it is the template's spec with the first patch of that name applied |
| Patching.NewHPAScenario | controllers/cronhpa_test.go:31-148 | the template gives 1..10 replicas at 50% CPU for "", patch "one" gives 3..15 at 30%, and an unknown name is an error |
| Scheduling.Names | controllers/cronhpa.go:57-59 | entryNames lists the patch names in declaration order |
| Scheduling.ScheduledFromFrame | controllers/cronhpa.go:58-73 | adding the patches keeps the invariant, only adds fresh entries, never drops a key of the resource and leaves other resources unchanged |
| Scheduling.ScheduledFromSucceeds | controllers/cronhpa.go:58-73 | when every schedule parses, adding succeeds and each patch name maps to a new live entry running that patch |
| Scheduling.ScheduledFromStops | controllers/cronhpa.go:64-71 | the first unparsable schedule stops the loop with its error, and the earlier patches stay added |
| Scheduling.UpdatedSchedulesSucceeds | controllers/cronhpa.go:53-77 | on success the resource's keys are exactly the patch names, every old entry is unscheduled, and other entries and resources are kept |
| Scheduling.UpdatedSchedulesFails | controllers/cronhpa.go:53-77 | at the first unparsable schedule: its error, the old entries gone, only the earlier patches scheduled |
| Scheduling.UpdatedSchedulesIdempotent | controllers/cronhpa.go:53-77 | rescheduling gives the same keys and replaces every entry of the previous run |
| Scheduling.ScheduledMessageListsPatches | controllers/cronhpa.go:74 | the "Scheduled: " message splits back at ',' into the patch names when no name contains a comma |
| Decision.Decide | controllers/cronhpa.go:200-225 | Create exactly when no HPA is stored, Unchanged exactly when its spec equals the desired one, Patch otherwise |
| Decision.DecideConverges | controllers/cronhpa.go:200-225 | after the action the desired spec is stored, and deciding again gives Unchanged |
| Decision.EventOfMeaning | controllers/cronhpa.go:209-231 | the reason is Created exactly for a creation and Updated otherwise; the message is the base message, followed by " with <patch>" exactly when a patch is named |
| Decision.CreateOrPatchMeaning | controllers/cronhpa.go:186-242 | the desired spec is stored, the event recorded and the status stamped exactly when every call before the status update succeeds; otherwise nothing changes and an error is returned; the run succeeds exactly when the status update also succeeds |
| Decision.CreateOrPatchUnchangedWritesNothing | controllers/cronhpa.go:212-215 | an HPA that already has the desired spec gets an "Updated" event and no write, even when writes would fail |
| Controllers.CronHorizontalPodAutoscaler.ToNamespacedName | controllers/cronhpa.go:248-250 | the key is the object's namespace and name |
| Controllers.CronHorizontalPodAutoscaler.GetCurrentPatchName | controllers/cronhpa.go:141-184 | the nested loops return `Resolve`'s name, or its error with "" |
| Controllers.CronHorizontalPodAutoscaler.SearchLatest | controllers/cronhpa.go:161-172 | the inner loop returns `ScanFrom`'s instant or its error |
| Controllers.CronHorizontalPodAutoscaler.ApplyHPAPatch | controllers/cronhpa.go:86-114 | the HPA's spec becomes `PatchSpec` of the first patch with the name; UnknownPatch leaves it unchanged; the metrics are copied element by element |
| Controllers.CronHorizontalPodAutoscaler.NewHPA | controllers/cronhpa.go:116-139 | a fresh HPA with the CronHPA's name and namespace, the template's labels and annotations, and `DesiredSpec` as its spec; or the error with no HPA |
| Controllers.CronHorizontalPodAutoscaler.UpdateSchedules | controllers/cronhpa.go:53-77 | the registry and the error are those of `UpdatedSchedules`, the invariant is kept, and the "Scheduled" event is recorded only on success |
| Controllers.CronHorizontalPodAutoscaler.ClearSchedules | controllers/cronhpa.go:79-84 | the resource's entries are removed and an "Unscheduled" event is recorded |
| Controllers.CronHorizontalPodAutoscaler.CreateOrPatchHPA | controllers/cronhpa.go:186-242 | the error, the stored HPA, the event, the stamped LastCronTimestamp and the stored status are those of `CreateOrPatch`; LastScheduledPatchName is never written |
| Controllers.CronHorizontalPodAutoscaler.WriteHPA | controllers/cronhpa.go:198-241 | the get, create, patch and status-update half of the run, as `Written` states it |

## Left out

- Start, Stop, the RWMutex and the scheduler's asynchronous firing of jobs
  (controllers/cron.go:43-55 and the locks in every method) are left out. The
  registry is sequential.
- The cron library's parser, `Schedule.Next`, time zones and calendar arithmetic
  are parameters (`CronLibrary`). The general theorems assume only that the
  next activation is strictly later. The two scenario lemmas also take the
  parser's and `next`'s answers for their concrete schedules as hypotheses.
  Time is an integer.
- The registry's parser (`Registry.Cron.parse`) and the parser GetCurrentPatchName
  uses (`lib.parse`) are independent parameters. In the source both are the
  standard parser of the cron library (controllers/cron.go:37 and
  controllers/cronhpa.go:147-149), so the model does not promise that a schedule
  the registry accepted also parses in GetCurrentPatchName.
- The Kubernetes client is not modelled beyond three pieces:
  - Get, Create, Patch, Status().Update and SetControllerReference are a map of
    stored specs, a map of statuses, and a `Faults` value naming the failing calls.
  - A failing Get stands for any error other than NotFound.
  - The MergeFrom patch is modelled as storing the desired spec. Labels,
    annotations and owner references of the stored HPA are not kept.
- `reflect.DeepEqual` is structural equality on the spec datatype, so a nil and
  an empty slice or map are the same.
- Logging, the event type (always Normal) and the `CronContext` job payload are
  not modelled. A job is the pair of resource and patch name.
- controllers/controller.go (the reconcile loop, finalizers, manager setup) and
  controllers/croncontext.go (the fired-job callback) are not part of this model.
- ListResourceEntry returns the stored map itself in the source, so a caller
  could alias it. The model returns a value.
- ApplyHPAPatch writes through the template's MinReplicas pointer. With a nil
  MinReplicas the source dereferences nil. `CanApply` and `Patchable` make that a
  precondition of ApplyHPAPatch, NewHPA and CreateOrPatchHPA. Pointer sharing
  between the template and the HPA is not modelled.
- GetCurrentPatchName repeats the schedule-string code of UpdateSchedules. The
  model has it once, as `ScheduleSpec`. The inner loop is the method
  `SearchLatest`, and the writing half of CreateOrPatchHPA is `WriteHPA`.
- UpdateSchedules and ClearSchedules call `RemoveResourceEntries`, while the
  registry defines `RemoveResourceEntry`. Both are modelled as the one
  operation.
- controllers/cronhpa_test.go:227-236 expects "weekday" when
  LastScheduledPatchName is set and nothing fires. GetCurrentPatchName never
  reads that field and returns "". The model follows the code, and no
  carry-forward is modelled.
- Re-adding a stored patch does not unschedule the old entry
  (`AddedOverwriteLeavesOldJobLive`). The model keeps that behaviour.
- The types file uses autoscaling/v2 and the controllers use v2beta2. The HPA
  spec is one datatype, with the scale target and behavior as opaque values.
- V1alpha1.ValidScheduledPatchName reads the name pattern as unanchored, as
  OpenAPI does. The anchored reading is `WhollyOfNameChars`.
