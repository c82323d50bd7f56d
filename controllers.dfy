/**
 * The CronHPA object's controller methods (controllers/cronhpa.go), over a
 * reconciler that holds the job registry, the stored HPAs and statuses, and
 * the recorded events. Each method is proved against the specification
 * functions of Resolution, Patching, Scheduling and Decision.
 */
module Controllers {
  import opened Wrappers
  import opened Errors
  import opened CronLib
  import opened V1alpha1
  import opened Registry
  import opened Resolution
  import opened Patching
  import opened Scheduling
  import opened Decision

  /** An autoscaling/v2beta2 HorizontalPodAutoscaler object as NewHPA builds it. */
  class HorizontalPodAutoscaler {
    const kind: string := "HorizontalPodAutoscaler"
    const apiVersion: string := "autoscaling/v2beta2"
    var name: string
    var namespace: string
    var labels: map<string, string>
    var annotations: map<string, string>
    var spec: HPASpec

    constructor (name: string, namespace: string, labels: map<string, string>,
                 annotations: map<string, string>, spec: HPASpec)
      ensures this.name == name && this.namespace == namespace
      ensures this.labels == labels && this.annotations == annotations && this.spec == spec
    {
      this.name := name;
      this.namespace := namespace;
      this.labels := labels;
      this.annotations := annotations;
      this.spec := spec;
    }
  }

  /**
   * The reconciler's shared state: the job registry, the HPAs and CronHPA
   * statuses held by the API server, keyed by namespaced name, and the events
   * recorded so far.
   */
  class Reconciler {
    const cron: Cron
    var hpas: map<NamespacedName, HPASpec>
    var statuses: map<NamespacedName, CronHPAStatus>
    var events: seq<Event>

    constructor (cron: Cron)
      ensures this.cron == cron && hpas == map[] && statuses == map[] && events == []
    {
      this.cron := cron;
      hpas := map[];
      statuses := map[];
      events := [];
    }
  }

  /** A CronHorizontalPodAutoscaler object with the controller's methods. */
  class CronHorizontalPodAutoscaler {
    const name: string
    const namespace: string
    const spec: CronHPASpec
    var status: CronHPAStatus

    constructor (name: string, namespace: string, spec: CronHPASpec, status: CronHPAStatus)
      ensures this.name == name && this.namespace == namespace
      ensures this.spec == spec && this.status == status
    {
      this.name := name;
      this.namespace := namespace;
      this.spec := spec;
      this.status := status;
    }

    /** The object's key: its namespace and name. */
    function ToNamespacedName(): (nn: NamespacedName)
      ensures nn.namespace == namespace && nn.name == name
    {
      NamespacedName(namespace, name)
    }

    /**
     * The patch that should be in force at `currentTime`: among the patches
     * whose last activation after LastCronTimestamp lies in the window, the one
     * with the latest such activation (the earliest declared on a tie); "" with
     * no timestamp or when nothing fired; the first parse or search error otherwise.
     */
    method GetCurrentPatchName(lib: CronLibrary, currentTime: int) returns (patchName: string, err: Option<Error>)
      ensures match Resolve(lib, spec.scheduledPatches, status.lastCronTimestamp, currentTime)
        case Ok(n) => err.None? && patchName == n
        case Err(e) => err == Some(e) && patchName == ""
    {
      var currentPatchName := "";
      var lastCronTimestamp := status.lastCronTimestamp;
      if lastCronTimestamp.Some? {
        var anchor := lastCronTimestamp.value;
        var patches := spec.scheduledPatches;
        var mostLatestTime := anchor;
        ghost var winner: Option<nat> := None;
        var j := 0;
        while j < |patches|
          invariant 0 <= j <= |patches|
          invariant ResolveFrom(lib, patches[..j], anchor, currentTime) == Ok(Choice(mostLatestTime, winner))
          invariant currentPatchName == NameOf(patches, Choice(mostLatestTime, winner))
        {
          var scheduledPatch := patches[j];
          var tzs := ScheduleSpec(scheduledPatch);
          var parsed := lib.parse(tzs);
          if parsed.None? {
            ResolveFromStepError(lib, patches, j, anchor, currentTime);
            return "", Some(InvalidSchedule(tzs));
          }
          var latestTime, searchErr := SearchLatest(lib.next, parsed.value, scheduledPatch.name, anchor, currentTime);
          if searchErr.Some? {
            ResolveFromStepError(lib, patches, j, anchor, currentTime);
            return "", searchErr;
          }
          assert LatestIn(lib, scheduledPatch, anchor, currentTime) == Ok(latestTime);
          ghost var before := Choice(mostLatestTime, winner);
          ResolveFromStep(lib, patches, j, anchor, currentTime, before, latestTime);
          if latestTime > mostLatestTime && latestTime <= currentTime {
            currentPatchName := scheduledPatch.name;
            mostLatestTime := latestTime;
            winner := Some(j);
          }
          assert Choice(mostLatestTime, winner)
            == if latestTime > before.best && latestTime <= currentTime then Choice(latestTime, Some(j)) else before;
          assert ResolveFrom(lib, patches[..j + 1], anchor, currentTime) == Ok(Choice(mostLatestTime, winner));
          j := j + 1;
        }
        assert patches[..j] == patches;
      }
      return currentPatchName, None;
    }

    /**
     * The inner loop of GetCurrentPatchName: step through the activations of
     * `schedule` after `anchor` while they are not after `currentTime`; the
     * last one reached (or `anchor`), or an error when step MaxScheduleTry is
     * still inside the window.
     */
    static method SearchLatest(next: (Schedule, int) -> Option<int>, schedule: Schedule, name: string,
                               anchor: int, currentTime: int) returns (latestTime: int, err: Option<Error>)
      ensures match ScanFrom(next, schedule, name, anchor, currentTime, 0)
        case Ok(t) => err.None? && latestTime == t
        case Err(e) => err == Some(e)
    {
      var nextTime := anchor;
      latestTime := anchor;
      var i := 0;
      while i <= MaxScheduleTry
        invariant 0 <= i <= MaxScheduleTry + 1
        invariant nextTime == latestTime
        invariant ScanFrom(next, schedule, name, latestTime, currentTime, i)
                  == ScanFrom(next, schedule, name, anchor, currentTime, 0)
        decreases MaxScheduleTry + 1 - i
      {
        var n := next(schedule, nextTime);
        if n.None? || n.value > currentTime {
          break;
        }
        nextTime := n.value;
        latestTime := nextTime;
        if i == MaxScheduleTry {
          return latestTime, Some(ScheduleSearchExhausted(name));
        }
        i := i + 1;
      }
      return latestTime, None;
    }

    /**
     * Overwrite `hpa`'s spec with the fields of the first patch named
     * `patchName`; UnknownPatch, and no change, when no patch has that name.
     */
    method ApplyHPAPatch(patchName: string, hpa: HorizontalPodAutoscaler) returns (err: Option<Error>)
      requires var i := FindPatch(spec.scheduledPatches, patchName);
        i.Some? ==> CanApply(hpa.spec, spec.scheduledPatches[i.value].patch)
      modifies hpa`spec
      ensures match FindPatch(spec.scheduledPatches, patchName)
        case None => err == Some(UnknownPatch(patchName)) && hpa.spec == old(hpa.spec)
        case Some(i) => err.None? && hpa.spec == PatchSpec(old(hpa.spec), spec.scheduledPatches[i].patch)
    {
      var patches := spec.scheduledPatches;
      var k := 0;
      while k < |patches| && patches[k].name != patchName
        invariant 0 <= k <= |patches|
        invariant forall j :: 0 <= j < k ==> patches[j].name != patchName
      {
        k := k + 1;
      }
      if k == |patches| {
        return Some(UnknownPatch(patchName));
      }
      assert FindPatch(patches, patchName) == Some(k);
      var scheduledPatch := patches[k];
      ghost var before := hpa.spec;
      if scheduledPatch.patch.Some? {
        var patch := scheduledPatch.patch.value;
        if patch.minReplicas.Some? {
          hpa.spec := hpa.spec.(minReplicas := Some(patch.minReplicas.value));
        }
        if patch.maxReplicas.Some? {
          hpa.spec := hpa.spec.(maxReplicas := patch.maxReplicas.value);
        }
        if patch.metrics.Some? {
          var source := patch.metrics.value;
          var metrics := new MetricSpec[|source|];
          var m := 0;
          ghost var patched := hpa.spec;
          while m < |source|
            invariant 0 <= m <= |source|
            invariant metrics[..m] == source[..m]
            invariant hpa.spec == patched
          {
            metrics[m] := source[m];
            m := m + 1;
          }
          assert metrics[..] == source;
          hpa.spec := hpa.spec.(metrics := metrics[..]);
        }
        assert hpa.spec == PatchSpec(before, scheduledPatch.patch);
      }
      return None;
    }

    /**
     * A fresh HPA named like the CronHPA, with the template's labels,
     * annotations and spec, patched by `patchName` unless it is "".
     */
    method NewHPA(patchName: string) returns (hpa: HorizontalPodAutoscaler?, err: Option<Error>)
      requires Patchable(spec, patchName)
      ensures DesiredSpec(spec, patchName).Err? ==> err == Some(DesiredSpec(spec, patchName).error) && hpa == null
      ensures DesiredSpec(spec, patchName).Ok? ==>
        && err.None? && hpa != null && fresh(hpa)
        && hpa.name == name && hpa.namespace == namespace
        && hpa.labels == TemplateLabels(spec.template) && hpa.annotations == TemplateAnnotations(spec.template)
        && hpa.spec == DesiredSpec(spec, patchName).value
    {
      var template := spec.template;
      hpa := new HorizontalPodAutoscaler(name, namespace, map[], map[], template.spec);
      if template.metadata.Some? {
        hpa.labels := template.metadata.value.labels;
        hpa.annotations := template.metadata.value.annotations;
      }
      if patchName != "" {
        err := ApplyHPAPatch(patchName, hpa);
        if err.Some? {
          return null, err;
        }
      }
      return hpa, None;
    }

    /**
     * Replace the CronHPA's registry entries by one per scheduled patch and
     * record a "Scheduled" event listing them; the first unparsable schedule
     * stops it with that error and no event.
     */
    method UpdateSchedules(reconciler: Reconciler) returns (err: Option<Error>)
      requires reconciler.cron.Valid()
      modifies reconciler.cron, reconciler`events
      ensures (reconciler.cron.Snapshot(), err)
        == UpdatedSchedules(reconciler.cron.parse, old(reconciler.cron.Snapshot()), ToNamespacedName(), spec.scheduledPatches)
      ensures reconciler.cron.Valid()
      ensures reconciler.events
        == old(reconciler.events) + (if err.None? then [Event("Scheduled", ScheduledMessage(spec.scheduledPatches))] else [])
    {
      var cron := reconciler.cron;
      var nn := ToNamespacedName();
      var patches := spec.scheduledPatches;
      cron.RemoveResourceEntry(nn);
      ghost var cleared := cron.Snapshot();
      ghost var events := reconciler.events;
      var entryNames: seq<string> := [];
      var j := 0;
      while j < |patches|
        invariant 0 <= j <= |patches|
        invariant cron.Valid()
        invariant ScheduledFrom(cron.parse, cleared, nn, patches[..j]) == (cron.Snapshot(), None)
        invariant entryNames == Names(patches[..j])
        invariant reconciler.events == events
      {
        var scheduledPatch := patches[j];
        NamesSnoc(patches, j);
        entryNames := entryNames + [scheduledPatch.name];
        var tzs := ScheduleSpec(scheduledPatch);
        err := cron.Add(nn, scheduledPatch.name, tzs, CronJob(nn, scheduledPatch.name));
        ScheduledFromStep(cron.parse, cleared, nn, patches, j, cron.Snapshot(), err);
        if err.Some? {
          return err;
        }
        j := j + 1;
      }
      assert patches[..j] == patches;
      reconciler.events := reconciler.events + [Event("Scheduled", "Scheduled: " + Strings.Join(entryNames, ','))];
      return None;
    }

    /** Drop every registry entry of the CronHPA and record an "Unscheduled" event. */
    method ClearSchedules(reconciler: Reconciler) returns (err: Option<Error>)
      requires reconciler.cron.Valid()
      modifies reconciler.cron, reconciler`events
      ensures err.None?
      ensures reconciler.cron.Snapshot() == ResourceEntryRemoved(old(reconciler.cron.Snapshot()), ToNamespacedName())
      ensures reconciler.cron.Valid()
      ensures reconciler.events == old(reconciler.events) + [Event("Unscheduled", "Unscheduled")]
    {
      reconciler.cron.RemoveResourceEntry(ToNamespacedName());
      reconciler.events := reconciler.events + [Event("Unscheduled", "Unscheduled")];
      return None;
    }

    /** The HPA stored under this CronHPA's key, if any. */
    function StoredHPA(hpas: map<NamespacedName, HPASpec>): Option<HPASpec>
    {
      var nn := ToNamespacedName();
      if nn in hpas then Some(hpas[nn]) else None
    }

    /**
     * What a run with outcome `o` leaves behind: the stored HPA replaced when
     * the outcome stores a different one, the event appended, the status
     * stamped in memory and, when persisted, in the store.
     */
    twostate predicate RunEffect(reconciler: Reconciler, o: Outcome, currentTime: int)
      reads this, reconciler
    {
      && reconciler.hpas == (if o.stored.Some? && o.stored != StoredHPA(old(reconciler.hpas))
                             then old(reconciler.hpas)[ToNamespacedName() := o.stored.value]
                             else old(reconciler.hpas))
      && reconciler.events == old(reconciler.events) + (if o.event.Some? then [o.event.value] else [])
      && status == (if o.stamped then old(status).(lastCronTimestamp := Some(currentTime)) else old(status))
      && reconciler.statuses == (if o.persisted then old(reconciler.statuses)[ToNamespacedName() := status]
                                 else old(reconciler.statuses))
    }

    /**
     * Bring the stored HPA to the spec `patchName` asks for, record the event,
     * stamp LastCronTimestamp with `currentTime` and store the status; every
     * failing call in `faults` returns its error at the point the call is made.
     */
    method CreateOrPatchHPA(patchName: string, currentTime: int, reconciler: Reconciler, faults: Faults)
      returns (err: Option<Error>)
      requires Patchable(spec, patchName)
      modifies this`status, reconciler`hpas, reconciler`statuses, reconciler`events
      ensures var o := CreateOrPatch(DesiredSpec(spec, patchName), StoredHPA(old(reconciler.hpas)), faults, name, patchName);
        err == o.err && RunEffect(reconciler, o, currentTime)
    {
      var newhpa, e := NewHPA(patchName);
      if e.Some? {
        return e;
      }
      if faults.ownerReference {
        return Some(StoreError("SetControllerReference"));
      }
      err := WriteHPA(newhpa, patchName, currentTime, reconciler, faults);
    }

    /**
     * The writing half of CreateOrPatchHPA for the HPA NewHPA built: create it,
     * leave it or patch it, record the event, then stamp and store the status.
     */
    method WriteHPA(newhpa: HorizontalPodAutoscaler, patchName: string, currentTime: int, reconciler: Reconciler,
                    faults: Faults) returns (err: Option<Error>)
      requires newhpa.name == name
      modifies this`status, reconciler`hpas, reconciler`statuses, reconciler`events
      ensures var o := Written(newhpa.spec, StoredHPA(old(reconciler.hpas)), faults, name, patchName);
        err == o.err && RunEffect(reconciler, o, currentTime)
    {
      var nn := ToNamespacedName();
      var event := "";
      var msg := "";
      if faults.get {
        return Some(StoreError("Get"));
      }
      if nn !in reconciler.hpas {
        if faults.write {
          return Some(StoreError("Create"));
        }
        reconciler.hpas := reconciler.hpas[nn := newhpa.spec];
        event := "Created";
        msg := "Created HPA " + newhpa.name;
      } else {
        var hpa := reconciler.hpas[nn];
        if hpa == newhpa.spec {
          event := "Updated";
          msg := "Updated HPA " + newhpa.name + " without changes";
        } else {
          if faults.write {
            return Some(StoreError("Patch"));
          }
          reconciler.hpas := reconciler.hpas[nn := newhpa.spec];
          event := "Updated";
          msg := "Updated HPA " + newhpa.name;
        }
      }
      if event != "" {
        if patchName != "" {
          msg := msg + " with " + patchName;
        }
        reconciler.events := reconciler.events + [Event(event, msg)];
      }
      status := status.(lastCronTimestamp := Some(currentTime));
      if faults.statusUpdate {
        return Some(StoreError("Status().Update"));
      }
      reconciler.statuses := reconciler.statuses[nn := status];
      return None;
    }
  }
}
