/**
 * What UpdateSchedules and ClearSchedules do to the registry
 * (controllers/cronhpa.go:53-84): drop every entry of the CronHPA, then add one
 * per scheduled patch, in order, stopping at the first schedule that does not parse.
 */
module Scheduling {
  import opened Wrappers
  import opened Errors
  import opened CronLib
  import opened Strings
  import opened V1alpha1
  import opened Registry
  import opened Resolution

  /** The patch names, in declaration order. */
  function Names(patches: seq<ScheduledPatch>): (names: seq<string>)
    ensures |names| == |patches|
    ensures forall i :: 0 <= i < |patches| ==> names[i] == patches[i].name
  {
    seq(|patches|, i requires 0 <= i < |patches| => patches[i].name)
  }

  /** The names of one more patch of a prefix. */
  lemma NamesSnoc(patches: seq<ScheduledPatch>, j: nat)
    requires j < |patches|
    ensures Names(patches[..j + 1]) == Names(patches[..j]) + [patches[j].name]
  {
  }

  /** The set of patch names. */
  function NameSet(patches: seq<ScheduledPatch>): set<string>
  {
    set i | 0 <= i < |patches| :: patches[i].name
  }

  /** The names of all patches are those of all but the last, and the last one's. */
  lemma NameSetSnoc(patches: seq<ScheduledPatch>)
    requires |patches| >= 1
    ensures NameSet(patches) == NameSet(patches[..|patches| - 1]) + {patches[|patches| - 1].name}
  {
    var k := |patches| - 1;
    forall name | name in NameSet(patches) ensures name in NameSet(patches[..k]) + {patches[k].name} {
      var i :| 0 <= i < |patches| && patches[i].name == name;
      if i < k { assert patches[..k][i] == patches[i]; }
    }
    forall name | name in NameSet(patches[..k]) ensures name in NameSet(patches) {
      var i :| 0 <= i < k && patches[..k][i].name == name;
      assert patches[i] == patches[..k][i];
    }
  }

  /** The job a patch's entry runs: apply that patch to this CronHPA. */
  function JobOf(nn: NamespacedName, sp: ScheduledPatch): CronJob
  {
    CronJob(nn, sp.name)
  }

  /**
   * A left fold of `step` over the patches from state `st`: the first error
   * ends it with the state reached so far.
   */
  function AddAll(step: (State, ScheduledPatch) -> (State, Option<Error>), st: State,
                  patches: seq<ScheduledPatch>): (State, Option<Error>)
    decreases |patches|
  {
    if |patches| == 0 then (st, None)
    else
      var k := |patches| - 1;
      var r := AddAll(step, st, patches[..k]);
      if r.1.Some? then r else step(r.0, patches[k])
  }

  /** The fold over one more patch of a prefix. */
  lemma AddAllStep(step: (State, ScheduledPatch) -> (State, Option<Error>), st: State,
                   patches: seq<ScheduledPatch>, j: nat)
    requires j < |patches|
    ensures AddAll(step, st, patches[..j + 1])
      == (var r := AddAll(step, st, patches[..j]); if r.1.Some? then r else step(r.0, patches[j]))
  {
    assert patches[..j + 1][..j] == patches[..j];
  }

  /** Once the fold has failed on a prefix, the rest of the patches are not looked at. */
  lemma {:induction false} AddAllPrefixError(step: (State, ScheduledPatch) -> (State, Option<Error>), st: State,
                                             patches: seq<ScheduledPatch>, k: nat)
    requires k <= |patches|
    requires AddAll(step, st, patches[..k]).1.Some?
    ensures AddAll(step, st, patches) == AddAll(step, st, patches[..k])
    decreases |patches|
  {
    if k < |patches| {
      var n := |patches| - 1;
      assert patches[..n][..k] == patches[..k];
      AddAllPrefixError(step, st, patches[..n], k);
    } else {
      assert patches[..k] == patches;
    }
  }

  /** One step of UpdateSchedules' loop: add the patch under its name with its schedule string. */
  function AddStep(parse: string -> Option<Schedule>, nn: NamespacedName): (State, ScheduledPatch) -> (State, Option<Error>)
  {
    (s: State, sp: ScheduledPatch) => Added(parse, s, nn, sp.name, ScheduleSpec(sp), JobOf(nn, sp))
  }

  /**
   * The loop of UpdateSchedules over a prefix of the patches, from registry
   * state `st`: each patch is added under its name with its schedule string;
   * the first failed Add ends the loop with its error.
   */
  function ScheduledFrom(parse: string -> Option<Schedule>, st: State, nn: NamespacedName,
                         patches: seq<ScheduledPatch>): (State, Option<Error>)
  {
    AddAll(AddStep(parse, nn), st, patches)
  }

  /** The last patch is added after the others, unless adding them failed. */
  lemma ScheduledFromUnfold(parse: string -> Option<Schedule>, st: State, nn: NamespacedName,
                            patches: seq<ScheduledPatch>)
    requires |patches| >= 1
    ensures var k := |patches| - 1;
      var r := ScheduledFrom(parse, st, nn, patches[..k]);
      ScheduledFrom(parse, st, nn, patches)
        == if r.1.Some? then r
           else Added(parse, r.0, nn, patches[k].name, ScheduleSpec(patches[k]), JobOf(nn, patches[k]))
  {
  }

  /**
   * One more patch added after a successful prefix: success extends the
   * prefix, and failure is already the result for all the patches.
   */
  lemma ScheduledFromStep(parse: string -> Option<Schedule>, st: State, nn: NamespacedName,
                          patches: seq<ScheduledPatch>, j: nat, st': State, err: Option<Error>)
    requires j < |patches|
    requires ScheduledFrom(parse, st, nn, patches[..j]).1.None?
    requires (st', err) == Added(parse, ScheduledFrom(parse, st, nn, patches[..j]).0, nn, patches[j].name,
                                 ScheduleSpec(patches[j]), JobOf(nn, patches[j]))
    ensures err.None? ==> ScheduledFrom(parse, st, nn, patches[..j + 1]) == (st', None)
    ensures err.Some? ==> ScheduledFrom(parse, st, nn, patches) == (st', err)
  {
    var step := AddStep(parse, nn);
    AddAllStep(step, st, patches, j);
    assert AddAll(step, st, patches[..j + 1]) == (st', err);
    if err.Some? {
      AddAllPrefixError(step, st, patches, j + 1);
    }
  }

  /** UpdateSchedules on the registry: clear the resource, then add its patches. */
  function UpdatedSchedules(parse: string -> Option<Schedule>, st: State, nn: NamespacedName,
                            patches: seq<ScheduledPatch>): (State, Option<Error>)
  {
    ScheduledFrom(parse, ResourceEntryRemoved(st, nn), nn, patches)
  }

  /** Every patch's schedule string parses. */
  predicate AllParse(parse: string -> Option<Schedule>, patches: seq<ScheduledPatch>)
  {
    forall i :: 0 <= i < |patches| ==> parse(ScheduleSpec(patches[i])).Some?
  }

  /** `k` is the first patch whose schedule string does not parse. */
  predicate FirstUnparsable(parse: string -> Option<Schedule>, patches: seq<ScheduledPatch>, k: int)
  {
    && 0 <= k < |patches|
    && parse(ScheduleSpec(patches[k])).None?
    && forall i :: 0 <= i < k ==> parse(ScheduleSpec(patches[i])).Some?
  }

  /** `st'` keeps every entry of `st` and adds entries only under IDs issued after `st`'s. */
  ghost predicate OnlyAddsFresh(st: State, st': State)
  {
    && st.lastId <= st'.lastId
    && (forall id :: id in st.entries ==> id in st'.entries && st'.entries[id] == st.entries[id])
    && (forall id :: id in st'.entries && id <= st.lastId ==> id in st.entries)
  }

  /**
   * Adding patches keeps the registry valid, only adds freshly issued entries,
   * never drops a key of the resource and leaves every other resource alone.
   */
  lemma {:induction false} ScheduledFromFrame(parse: string -> Option<Schedule>, st: State, nn: NamespacedName,
                                              patches: seq<ScheduledPatch>, other: NamespacedName)
    requires ValidState(st)
    ensures var (st', _) := ScheduledFrom(parse, st, nn, patches);
      && ValidState(st')
      && OnlyAddsFresh(st, st')
      && Listed(st, nn).Keys <= Listed(st', nn).Keys
      && (ResourceEntryName(other) != ResourceEntryName(nn) ==> Listed(st', other) == Listed(st, other))
    decreases |patches|
  {
    if |patches| > 0 {
      var k := |patches| - 1;
      ScheduledFromFrame(parse, st, nn, patches[..k], other);
      ScheduledFromUnfold(parse, st, nn, patches);
      var (st1, err1) := ScheduledFrom(parse, st, nn, patches[..k]);
      if err1.None? {
        var sp := patches[k];
        AddedRecordsFreshId(parse, st1, nn, sp.name, ScheduleSpec(sp), JobOf(nn, sp));
        AddedFrame(parse, st1, nn, sp.name, ScheduleSpec(sp), JobOf(nn, sp), other);
        if parse(ScheduleSpec(sp)).None? {
          AddedFailureRecordsNoPatch(parse, st1, nn, sp.name, ScheduleSpec(sp), JobOf(nn, sp));
        }
      }
    }
  }

  /** One successful Add in ScheduledFromSucceeds: the claims carry over to one more name. */
  lemma AddedExtends(parse: string -> Option<Schedule>, st: State, st1: State, nn: NamespacedName,
                     names: set<string>, sp: ScheduledPatch)
    requires forall id :: id in st1.entries ==> id <= st1.lastId
    requires st.lastId <= st1.lastId
    requires Listed(st1, nn).Keys == Listed(st, nn).Keys + names
    requires forall name :: name in names ==>
      && st.lastId < Listed(st1, nn)[name]
      && Listed(st1, nn)[name] in st1.entries
      && st1.entries[Listed(st1, nn)[name]].job == CronJob(nn, name)
    requires parse(ScheduleSpec(sp)).Some?
    ensures var st' := Added(parse, st1, nn, sp.name, ScheduleSpec(sp), JobOf(nn, sp)).0;
      && Listed(st', nn).Keys == Listed(st, nn).Keys + (names + {sp.name})
      && (forall name :: name in names + {sp.name} ==>
            && st.lastId < Listed(st', nn)[name]
            && Listed(st', nn)[name] in st'.entries
            && st'.entries[Listed(st', nn)[name]].job == CronJob(nn, name))
  {
    var st' := Added(parse, st1, nn, sp.name, ScheduleSpec(sp), JobOf(nn, sp)).0;
    var id := st1.lastId + 1;
    assert Listed(st', nn) == Listed(st1, nn)[sp.name := id];
    assert st'.entries == st1.entries[id := Entry(parse(ScheduleSpec(sp)).value, JobOf(nn, sp))];
  }

  /**
   * When every schedule parses, adding succeeds, the resource's keys grow by
   * exactly the patch names, and each name refers to a live entry issued by
   * this call that runs that patch for this resource.
   */
  lemma {:induction false} ScheduledFromSucceeds(parse: string -> Option<Schedule>, st: State, nn: NamespacedName,
                                                 patches: seq<ScheduledPatch>)
    requires ValidState(st)
    requires AllParse(parse, patches)
    ensures var (st', err) := ScheduledFrom(parse, st, nn, patches);
      && err.None?
      && Listed(st', nn).Keys == Listed(st, nn).Keys + NameSet(patches)
      && (forall name :: name in NameSet(patches) ==>
            && st.lastId < Listed(st', nn)[name]
            && Listed(st', nn)[name] in st'.entries
            && st'.entries[Listed(st', nn)[name]].job == CronJob(nn, name))
    decreases |patches|
  {
    if |patches| > 0 {
      var k := |patches| - 1;
      var sp := patches[k];
      ScheduledFromSucceeds(parse, st, nn, patches[..k]);
      ScheduledFromFrame(parse, st, nn, patches[..k], nn);
      ScheduledFromUnfold(parse, st, nn, patches);
      var r1 := ScheduledFrom(parse, st, nn, patches[..k]);
      assert r1.1.None?;
      assert ScheduledFrom(parse, st, nn, patches) == Added(parse, r1.0, nn, sp.name, ScheduleSpec(sp), JobOf(nn, sp));
      NameSetSnoc(patches);
      assert forall id :: id in r1.0.entries ==> id <= r1.0.lastId;
      assert st.lastId <= r1.0.lastId;
      AddedExtends(parse, st, r1.0, nn, NameSet(patches[..k]), sp);
    } else {
      assert NameSet(patches) == {};
    }
  }

  /**
   * At the first schedule that does not parse, adding stops with that
   * schedule's error; the patches before it have been added.
   */
  lemma {:induction false} ScheduledFromStops(parse: string -> Option<Schedule>, st: State, nn: NamespacedName,
                                              patches: seq<ScheduledPatch>, k: nat)
    requires ValidState(st)
    requires FirstUnparsable(parse, patches, k)
    ensures var (st', err) := ScheduledFrom(parse, st, nn, patches);
      && err == Some(InvalidSchedule(ScheduleSpec(patches[k])))
      && Listed(st', nn).Keys == Listed(st, nn).Keys + NameSet(patches[..k])
    decreases |patches|
  {
    var n := |patches| - 1;
    if k == n {
      ScheduledFromSucceeds(parse, st, nn, patches[..k]);
      ScheduledFromUnfold(parse, st, nn, patches);
      var (st1, _) := ScheduledFrom(parse, st, nn, patches[..k]);
      AddedFailureRecordsNoPatch(parse, st1, nn, patches[k].name, ScheduleSpec(patches[k]), JobOf(nn, patches[k]));
    } else {
      assert patches[..n][..k] == patches[..k];
      ScheduledFromStops(parse, st, nn, patches[..n], k);
      AddAllPrefixError(AddStep(parse, nn), st, patches, n);
    }
  }

  /**
   * UpdateSchedules with parsable schedules: the resource's keys are exactly
   * its patch names, each running its patch, every entry it had before is
   * unscheduled, and every other live entry and other resource is kept.
   */
  lemma UpdatedSchedulesSucceeds(parse: string -> Option<Schedule>, st: State, nn: NamespacedName,
                                 patches: seq<ScheduledPatch>, other: NamespacedName)
    requires ValidState(st)
    requires AllParse(parse, patches)
    ensures var (st', err) := UpdatedSchedules(parse, st, nn, patches);
      && err.None?
      && ValidState(st')
      && Listed(st', nn).Keys == NameSet(patches)
      && (forall name :: name in NameSet(patches) ==>
            Listed(st', nn)[name] in st'.entries && st'.entries[Listed(st', nn)[name]].job == CronJob(nn, name))
      && (forall id :: id in Listed(st, nn).Values ==> id !in st'.entries)
      && (forall id :: id in st.entries && id !in Listed(st, nn).Values ==> id in st'.entries)
      && (ResourceEntryName(other) != ResourceEntryName(nn) ==> Listed(st', other) == Listed(st, other))
  {
    var cleared := ResourceEntryRemoved(st, nn);
    ResourceEntryRemovedClears(st, nn, other);
    ScheduledFromFrame(parse, cleared, nn, patches, other);
    ScheduledFromSucceeds(parse, cleared, nn, patches);
  }

  /**
   * UpdateSchedules at the first unparsable schedule: its error is returned,
   * the old entries are already unscheduled, and only the earlier patches are
   * scheduled.
   */
  lemma UpdatedSchedulesFails(parse: string -> Option<Schedule>, st: State, nn: NamespacedName,
                              patches: seq<ScheduledPatch>, k: nat)
    requires ValidState(st)
    requires FirstUnparsable(parse, patches, k)
    ensures var (st', err) := UpdatedSchedules(parse, st, nn, patches);
      && err == Some(InvalidSchedule(ScheduleSpec(patches[k])))
      && ValidState(st')
      && Listed(st', nn).Keys == NameSet(patches[..k])
      && (forall id :: id in Listed(st, nn).Values ==> id !in st'.entries)
  {
    var cleared := ResourceEntryRemoved(st, nn);
    ResourceEntryRemovedClears(st, nn, nn);
    ScheduledFromFrame(parse, cleared, nn, patches, nn);
    ScheduledFromStops(parse, cleared, nn, patches, k);
  }

  /**
   * Reconciling the same CronHPA twice schedules the same patches as once:
   * the second run replaces every entry of the first.
   */
  lemma UpdatedSchedulesIdempotent(parse: string -> Option<Schedule>, st: State, nn: NamespacedName,
                                   patches: seq<ScheduledPatch>)
    requires ValidState(st)
    requires AllParse(parse, patches)
    ensures var (st1, _) := UpdatedSchedules(parse, st, nn, patches);
      var (st2, err2) := UpdatedSchedules(parse, st1, nn, patches);
      && err2.None?
      && Listed(st2, nn).Keys == Listed(st1, nn).Keys
      && (forall id :: id in Listed(st1, nn).Values ==> id !in st2.entries)
  {
    var (st1, _) := UpdatedSchedules(parse, st, nn, patches);
    UpdatedSchedulesSucceeds(parse, st, nn, patches, nn);
    UpdatedSchedulesSucceeds(parse, st1, nn, patches, nn);
  }

  /** The "Scheduled" event's message: the patch names joined by commas. */
  function ScheduledMessage(patches: seq<ScheduledPatch>): string
  {
    "Scheduled: " + Join(Names(patches), ',')
  }

  /** The message names every patch in order, readable back when no name holds a comma. */
  lemma ScheduledMessageListsPatches(patches: seq<ScheduledPatch>)
    requires |patches| >= 1
    requires forall i :: 0 <= i < |patches| ==> ',' !in patches[i].name
    ensures |ScheduledMessage(patches)| >= 11
    ensures ScheduledMessage(patches)[..11] == "Scheduled: "
    ensures Split(ScheduledMessage(patches)[11..], ',') == Names(patches)
  {
    var m := ScheduledMessage(patches);
    assert m[11..] == Join(Names(patches), ',');
    SplitJoin(Names(patches), ',');
  }
}
