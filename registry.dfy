/**
 * The per-resource job registry (controllers/cron.go): for each resource
 * "namespace/name", a map from patch name to the ID of the scheduler entry that
 * applies that patch, beside the scheduler whose entries it adds and removes.
 */
module Registry {
  import opened Wrappers
  import opened Errors
  import opened CronLib
  import opened Strings

  /** The identity of a Kubernetes object. */
  datatype NamespacedName = NamespacedName(namespace: string, name: string)

  /** The scheduler issues entry IDs 1, 2, 3, ... in order. */
  type EntryID = nat

  /** What a scheduler entry runs when it fires: apply one patch of one resource. */
  datatype CronJob = CronJob(resource: NamespacedName, patchName: string)

  /** A live scheduler entry: its parsed schedule and its job. */
  datatype Entry = Entry(schedule: Schedule, job: CronJob)

  /** Patch name to entry ID, for one resource. */
  type ResourceEntry = map<string, EntryID>

  /**
   * The registry's whole state: the per-resource maps, the scheduler's live
   * entries by ID, and the last ID the scheduler issued (0 before the first).
   */
  datatype State = State(resourceEntries: map<string, ResourceEntry>, entries: map<EntryID, Entry>, lastId: nat)

  /** The registry key of a resource. */
  function ResourceEntryName(nn: NamespacedName): string
  {
    nn.namespace + "/" + nn.name
  }

  /** Reads a registry key back: the namespace ends at the first '/'. */
  function SplitResourceEntryName(key: string): NamespacedName
  {
    var i := FirstIndexOf(key, '/', 0);
    NamespacedName(key[..i], if i < |key| then key[i + 1..] else "")
  }

  /** A key reads back as the resource it was made from when the namespace holds no '/'. */
  lemma ResourceEntryNameRoundTrip(nn: NamespacedName)
    requires '/' !in nn.namespace
    ensures SplitResourceEntryName(ResourceEntryName(nn)) == nn
  {
    var key := ResourceEntryName(nn);
    var n := |nn.namespace|;
    assert key[n] == '/';
    forall j | 0 <= j < n ensures key[j] != '/' {
      assert key[j] == nn.namespace[j];
    }
    assert FirstIndexOf(key, '/', 0) == n by {
      var i := FirstIndexOf(key, '/', 0);
      assert !(i < n);
      assert !(i > n);
    }
    assert key[..n] == nn.namespace;
    assert key[n + 1..] == nn.name;
  }

  /** Hence distinct resources get distinct keys as long as namespaces contain no '/'. */
  lemma ResourceEntryNameInjective(a: NamespacedName, b: NamespacedName)
    requires '/' !in a.namespace && '/' !in b.namespace
    requires ResourceEntryName(a) == ResourceEntryName(b)
    ensures a == b
  {
    ResourceEntryNameRoundTrip(a);
    ResourceEntryNameRoundTrip(b);
  }

  /**
   * The registry's invariant: every stored ID is a live scheduler entry, no ID is
   * stored in two places, and every live ID was issued (1 <= id <= lastId).
   * The converse of the first clause does not hold: see AddedOverwriteLeavesOldJobLive.
   */
  ghost predicate ValidState(st: State)
  {
    && (forall r, p :: r in st.resourceEntries && p in st.resourceEntries[r] ==>
          st.resourceEntries[r][p] in st.entries)
    && (forall r1, p1, r2, p2 ::
          (r1 in st.resourceEntries && p1 in st.resourceEntries[r1] &&
           r2 in st.resourceEntries && p2 in st.resourceEntries[r2] &&
           st.resourceEntries[r1][p1] == st.resourceEntries[r2][p2]) ==> r1 == r2 && p1 == p2)
    && (forall id :: id in st.entries ==> 1 <= id <= st.lastId)
  }

  /** ListResourceEntry: the resource's map, or an empty map for an unknown resource. */
  function Listed(st: State, nn: NamespacedName): ResourceEntry
  {
    var key := ResourceEntryName(nn);
    if key in st.resourceEntries then st.resourceEntries[key] else map[]
  }

  /**
   * Add: make sure the resource has a map, then ask the scheduler for an entry;
   * on success store its ID under the patch name. A parse error returns after
   * the (possibly new, empty) map has been inserted.
   */
  function Added(parse: string -> Option<Schedule>, st: State, nn: NamespacedName, patchName: string,
                 spec: string, job: CronJob): (State, Option<Error>)
  {
    var key := ResourceEntryName(nn);
    var resourceEntry := Listed(st, nn);
    match parse(spec)
    case None =>
      (st.(resourceEntries := st.resourceEntries[key := resourceEntry]), Some(InvalidSchedule(spec)))
    case Some(s) =>
      var id := st.lastId + 1;
      (State(st.resourceEntries[key := resourceEntry[patchName := id]], st.entries[id := Entry(s, job)], id), None)
  }

  /** Remove: delete the patch's key and unschedule its entry; nothing for an unknown resource or patch. */
  function Removed(st: State, nn: NamespacedName, patchName: string): State
  {
    var key := ResourceEntryName(nn);
    if key in st.resourceEntries then
      var resourceEntry := st.resourceEntries[key];
      var entries := if patchName in resourceEntry then st.entries - {resourceEntry[patchName]} else st.entries;
      State(st.resourceEntries[key := resourceEntry - {patchName}], entries, st.lastId)
    else
      st
  }

  /** RemoveResourceEntry: unschedule every entry of the resource and drop its key. */
  function ResourceEntryRemoved(st: State, nn: NamespacedName): State
  {
    var key := ResourceEntryName(nn);
    if key in st.resourceEntries then
      State(st.resourceEntries - {key}, st.entries - st.resourceEntries[key].Values, st.lastId)
    else
      st
  }

  /**
   * A successful Add stores a freshly issued ID, one more than the last, under
   * the patch name; the new entry runs the given job. It fails exactly when the
   * schedule does not parse.
   */
  lemma AddedRecordsFreshId(parse: string -> Option<Schedule>, st: State, nn: NamespacedName, patchName: string,
                            spec: string, job: CronJob)
    requires ValidState(st)
    ensures var (st', err) := Added(parse, st, nn, patchName, spec, job);
      && (err.None? <==> parse(spec).Some?)
      && (err.None? ==>
            && patchName in Listed(st', nn)
            && Listed(st', nn)[patchName] == st'.lastId == st.lastId + 1
            && st'.lastId !in st.entries
            && st'.entries == st.entries[st'.lastId := Entry(parse(spec).value, job)])
      && ValidState(st')
  {
    var (st', err) := Added(parse, st, nn, patchName, spec, job);
    var key := ResourceEntryName(nn);
    if err.None? {
      var id := st.lastId + 1;
      assert id !in st.entries;
      forall r1, p1, r2, p2 |
        r1 in st'.resourceEntries && p1 in st'.resourceEntries[r1] &&
        r2 in st'.resourceEntries && p2 in st'.resourceEntries[r2] &&
        st'.resourceEntries[r1][p1] == st'.resourceEntries[r2][p2]
        ensures r1 == r2 && p1 == p2
      {
        if st'.resourceEntries[r1][p1] == id {
          assert r1 == key && p1 == patchName;
          assert r2 == key && p2 == patchName;
        }
      }
    }
  }

  /**
   * A failed Add issues no ID and records no patch, but it has inserted the
   * resource's key (with an empty map if the resource was unknown).
   */
  lemma AddedFailureRecordsNoPatch(parse: string -> Option<Schedule>, st: State, nn: NamespacedName,
                                   patchName: string, spec: string, job: CronJob)
    requires parse(spec).None?
    ensures var (st', err) := Added(parse, st, nn, patchName, spec, job);
      && err == Some(InvalidSchedule(spec))
      && st'.entries == st.entries && st'.lastId == st.lastId
      && Listed(st', nn) == Listed(st, nn)
      && st'.resourceEntries.Keys == st.resourceEntries.Keys + {ResourceEntryName(nn)}
  {
  }

  /**
   * Add touches one key of one resource: every other resource's map, and every
   * other patch of this resource, is unchanged.
   */
  lemma AddedFrame(parse: string -> Option<Schedule>, st: State, nn: NamespacedName, patchName: string,
                   spec: string, job: CronJob, other: NamespacedName)
    ensures var (st', _) := Added(parse, st, nn, patchName, spec, job);
      && Listed(st', nn) - {patchName} == Listed(st, nn) - {patchName}
      && (ResourceEntryName(other) != ResourceEntryName(nn) ==> Listed(st', other) == Listed(st, other))
  {
  }

  /**
   * Adding a patch that is already stored replaces its ID without unscheduling
   * the old entry: the old entry stays live though no key refers to it any more.
   */
  lemma AddedOverwriteLeavesOldJobLive(parse: string -> Option<Schedule>, st: State, nn: NamespacedName,
                                       patchName: string, spec: string, job: CronJob)
    requires ValidState(st)
    requires patchName in Listed(st, nn) && parse(spec).Some?
    ensures var (st', _) := Added(parse, st, nn, patchName, spec, job);
      var oldId := Listed(st, nn)[patchName];
      && oldId in st'.entries
      && Listed(st', nn)[patchName] != oldId
      && forall r, p :: r in st'.resourceEntries && p in st'.resourceEntries[r] ==> st'.resourceEntries[r][p] != oldId
  {
    var (st', _) := Added(parse, st, nn, patchName, spec, job);
    var key := ResourceEntryName(nn);
    var oldId := Listed(st, nn)[patchName];
    assert oldId in st.entries && oldId <= st.lastId;
    forall r, p | r in st'.resourceEntries && p in st'.resourceEntries[r]
      ensures st'.resourceEntries[r][p] != oldId
    {
      if r != key || p != patchName {
        assert r in st.resourceEntries && p in st.resourceEntries[r];
        assert st'.resourceEntries[r][p] == st.resourceEntries[r][p];
      }
    }
  }

  /**
   * Remove deletes the patch's key and unschedules exactly its entry; other
   * patches and other resources are unchanged, and the invariant is kept.
   */
  lemma RemovedDeletesPatch(st: State, nn: NamespacedName, patchName: string, other: NamespacedName)
    requires ValidState(st)
    ensures var st' := Removed(st, nn, patchName);
      && Listed(st', nn) == Listed(st, nn) - {patchName}
      && st'.entries == (if patchName in Listed(st, nn) then st.entries - {Listed(st, nn)[patchName]} else st.entries)
      && st'.lastId == st.lastId
      && (ResourceEntryName(other) != ResourceEntryName(nn) ==> Listed(st', other) == Listed(st, other))
      && ValidState(st')
  {
    var st' := Removed(st, nn, patchName);
    var key := ResourceEntryName(nn);
    if key in st.resourceEntries && patchName in st.resourceEntries[key] {
      var gone := st.resourceEntries[key][patchName];
      forall r, p | r in st'.resourceEntries && p in st'.resourceEntries[r]
        ensures st'.resourceEntries[r][p] in st'.entries
      {
        assert p in st.resourceEntries[r] && st'.resourceEntries[r][p] == st.resourceEntries[r][p];
        assert st'.resourceEntries[r][p] != gone;
      }
    }
  }

  /** Removing a patch that is not stored (or from an unknown resource) changes nothing. */
  lemma RemovedAbsentIsNoOp(st: State, nn: NamespacedName, patchName: string)
    requires patchName !in Listed(st, nn)
    ensures Removed(st, nn, patchName) == st
  {
    var key := ResourceEntryName(nn);
    if key in st.resourceEntries {
      assert st.resourceEntries[key] - {patchName} == st.resourceEntries[key];
      assert st.resourceEntries[key := st.resourceEntries[key]] == st.resourceEntries;
    }
  }

  /** Removing twice is removing once: the second Remove is not an error and changes nothing. */
  lemma RemovedIdempotent(st: State, nn: NamespacedName, patchName: string)
    ensures Removed(Removed(st, nn, patchName), nn, patchName) == Removed(st, nn, patchName)
  {
    RemovedAbsentIsNoOp(Removed(st, nn, patchName), nn, patchName);
  }

  /**
   * RemoveResourceEntry unschedules every entry stored for the resource, after
   * which listing it gives the empty map; other resources keep their maps.
   */
  lemma ResourceEntryRemovedClears(st: State, nn: NamespacedName, other: NamespacedName)
    requires ValidState(st)
    ensures var st' := ResourceEntryRemoved(st, nn);
      && Listed(st', nn) == map[]
      && st'.entries == st.entries - Listed(st, nn).Values
      && (forall id :: id in Listed(st, nn).Values ==> id !in st'.entries)
      && (ResourceEntryName(other) != ResourceEntryName(nn) ==> Listed(st', other) == Listed(st, other))
      && ValidState(st')
  {
    var st' := ResourceEntryRemoved(st, nn);
    var key := ResourceEntryName(nn);
    if key in st.resourceEntries {
      forall r, p | r in st'.resourceEntries && p in st'.resourceEntries[r]
        ensures st'.resourceEntries[r][p] in st'.entries
      {
        assert st'.resourceEntries[r][p] == st.resourceEntries[r][p];
      }
    }
  }

  /**
   * The registry's scenario, adding: three patches of ns/foo get IDs 1, 2, 3
   * and a patch of ns/bar gets 4, each a live entry.
   */
  lemma RegistryScenarioAdds(parse: string -> Option<Schedule>, s: Schedule, job: CronJob)
    requires parse("0 * * * *") == Some(s)
    ensures
      var foo := NamespacedName("ns", "foo");
      var bar := NamespacedName("ns", "bar");
      var (s1, e1) := Added(parse, State(map[], map[], 0), foo, "patch-1", "0 * * * *", job);
      var (s2, e2) := Added(parse, s1, foo, "patch-2", "0 * * * *", job);
      var (s3, e3) := Added(parse, s2, foo, "patch-3", "0 * * * *", job);
      var (s4, e4) := Added(parse, s3, bar, "patch-4", "0 * * * *", job);
      var e := Entry(s, job);
      && e1.None? && e2.None? && e3.None? && e4.None?
      && s4 == State(map["ns/foo" := map["patch-1" := 1, "patch-2" := 2, "patch-3" := 3], "ns/bar" := map["patch-4" := 4]],
                     map[1 := e, 2 := e, 3 := e, 4 := e], 4)
  {
    var foo := NamespacedName("ns", "foo");
    var bar := NamespacedName("ns", "bar");
    var kf, kb := ResourceEntryName(foo), ResourceEntryName(bar);
    assert kf == "ns/foo" && kb == "ns/bar";
    assert kf != kb by { assert kf[3] != kb[3]; }
    var e := Entry(s, job);
    var (s1, e1) := Added(parse, State(map[], map[], 0), foo, "patch-1", "0 * * * *", job);
    assert s1 == State(map[kf := map["patch-1" := 1]], map[1 := e], 1);
    var (s2, e2) := Added(parse, s1, foo, "patch-2", "0 * * * *", job);
    assert s2 == State(map[kf := map["patch-1" := 1, "patch-2" := 2]], map[1 := e, 2 := e], 2);
    var (s3, e3) := Added(parse, s2, foo, "patch-3", "0 * * * *", job);
    var fooMap := map["patch-1" := 1, "patch-2" := 2, "patch-3" := 3];
    assert s3 == State(map[kf := fooMap], map[1 := e, 2 := e, 3 := e], 3);
  }

  /**
   * The registry's scenario, removing: from the state above, removing patch-1
   * unschedules ID 1 and leaves 2 and 3; removing a misspelt patch is
   * harmless; clearing ns/foo leaves it empty and ns/bar untouched.
   */
  lemma RegistryScenarioRemoves(s: Schedule, job: CronJob)
    ensures
      var foo := NamespacedName("ns", "foo");
      var bar := NamespacedName("ns", "bar");
      var e := Entry(s, job);
      var s4 := State(map["ns/foo" := map["patch-1" := 1, "patch-2" := 2, "patch-3" := 3], "ns/bar" := map["patch-4" := 4]],
                      map[1 := e, 2 := e, 3 := e, 4 := e], 4);
      var s5 := Removed(s4, foo, "patch-1");
      var s6 := Removed(s5, foo, "paptch-1");
      var s7 := ResourceEntryRemoved(s6, foo);
      && Listed(s5, foo) == map["patch-2" := 2, "patch-3" := 3]
      && s5.entries == map[2 := e, 3 := e, 4 := e]
      && s6 == s5
      && Listed(s7, foo) == map[]
      && Listed(s7, bar) == map["patch-4" := 4]
  {
    var foo := NamespacedName("ns", "foo");
    var bar := NamespacedName("ns", "bar");
    var e := Entry(s, job);
    var fooMap := map["patch-1" := 1, "patch-2" := 2, "patch-3" := 3];
    var s4 := State(map["ns/foo" := fooMap, "ns/bar" := map["patch-4" := 4]], map[1 := e, 2 := e, 3 := e, 4 := e], 4);
    assert ResourceEntryName(foo) == "ns/foo" && ResourceEntryName(bar) == "ns/bar";
    assert "ns/foo" != "ns/bar" by { assert "ns/foo"[3] != "ns/bar"[3]; }
    var s5 := Removed(s4, foo, "patch-1");
    assert fooMap - {"patch-1"} == map["patch-2" := 2, "patch-3" := 3];
    assert Listed(s5, foo) == map["patch-2" := 2, "patch-3" := 3];
    assert s5.entries == map[2 := e, 3 := e, 4 := e];
    assert "paptch-1" != "patch-1" by { assert "paptch-1"[2] != "patch-1"[2]; }
    RemovedAbsentIsNoOp(s5, foo, "paptch-1");
    var s7 := ResourceEntryRemoved(s5, foo);
    assert Listed(s7, bar) == map["patch-4" := 4];
  }

  /**
   * The registry as the controllers hold it: the per-resource maps and the
   * scheduler it drives. `parse` is the scheduler's schedule parser.
   */
  class Cron {
    const parse: string -> Option<Schedule>
    var resourceEntries: map<string, ResourceEntry>
    var entries: map<EntryID, Entry>
    var lastId: nat

    /** The registry's state as a value. */
    function Snapshot(): State
      reads this
    {
      State(resourceEntries, entries, lastId)
    }

    ghost predicate Valid()
      reads this
    {
      ValidState(Snapshot())
    }

    /** NewCron: an empty registry around a new scheduler. */
    constructor (parse: string -> Option<Schedule>)
      ensures this.parse == parse
      ensures Snapshot() == State(map[], map[], 0) && Valid()
    {
      this.parse := parse;
      resourceEntries := map[];
      entries := map[];
      lastId := 0;
    }

    /** The scheduler's AddJob: parse the schedule, then issue the next ID for a new entry. */
    method AddJob(spec: string, job: CronJob) returns (id: EntryID, err: Option<Error>)
      modifies this`entries, this`lastId
      ensures match parse(spec)
        case None => err == Some(InvalidSchedule(spec)) && id == 0 && entries == old(entries) && lastId == old(lastId)
        case Some(s) => err.None? && id == lastId == old(lastId) + 1 && entries == old(entries)[id := Entry(s, job)]
    {
      var schedule := parse(spec);
      if schedule.None? {
        return 0, Some(InvalidSchedule(spec));
      }
      lastId := lastId + 1;
      id := lastId;
      entries := entries[id := Entry(schedule.value, job)];
      err := None;
    }

    /** The scheduler's Remove: drop the entry with that ID, if there is one. */
    method RemoveJob(id: EntryID)
      modifies this`entries
      ensures entries == old(entries) - {id}
    {
      entries := entries - {id};
    }

    method Add(nn: NamespacedName, patchName: string, spec: string, job: CronJob) returns (err: Option<Error>)
      requires Valid()
      modifies this
      ensures (Snapshot(), err) == Added(parse, old(Snapshot()), nn, patchName, spec, job)
      ensures Valid()
    {
      ghost var start := Snapshot();
      AddedRecordsFreshId(parse, start, nn, patchName, spec, job);
      var resourceName := ResourceEntryName(nn);
      var resourceEntry: ResourceEntry;
      if resourceName in resourceEntries {
        resourceEntry := resourceEntries[resourceName];
        assert resourceEntries[resourceName := resourceEntry] == resourceEntries;
      } else {
        resourceEntry := map[];
        resourceEntries := resourceEntries[resourceName := resourceEntry];
      }
      var entryId;
      entryId, err := AddJob(spec, job);
      if err.Some? {
        assert Snapshot() == start.(resourceEntries := start.resourceEntries[resourceName := Listed(start, nn)]);
        return;
      }
      resourceEntries := resourceEntries[resourceName := resourceEntry[patchName := entryId]];
      assert Snapshot() == State(start.resourceEntries[resourceName := Listed(start, nn)[patchName := entryId]],
                                 start.entries[entryId := Entry(parse(spec).value, job)], entryId);
    }

    method Remove(nn: NamespacedName, patchName: string)
      requires Valid()
      modifies this
      ensures Snapshot() == Removed(old(Snapshot()), nn, patchName)
      ensures Valid()
    {
      RemovedDeletesPatch(Snapshot(), nn, patchName, nn);
      var resourceName := ResourceEntryName(nn);
      if resourceName in resourceEntries {
        var resourceEntry := resourceEntries[resourceName];
        if patchName in resourceEntry {
          RemoveJob(resourceEntry[patchName]);
        }
        resourceEntries := resourceEntries[resourceName := resourceEntry - {patchName}];
      }
    }

    method RemoveResourceEntry(nn: NamespacedName)
      requires Valid()
      modifies this
      ensures Snapshot() == ResourceEntryRemoved(old(Snapshot()), nn)
      ensures Valid()
    {
      ResourceEntryRemovedClears(Snapshot(), nn, nn);
      var resourceName := ResourceEntryName(nn);
      if resourceName in resourceEntries {
        var resourceEntry := resourceEntries[resourceName];
        var pending := resourceEntry.Keys;
        while pending != {}
          invariant pending <= resourceEntry.Keys
          invariant resourceEntries == old(resourceEntries) && lastId == old(lastId)
          invariant entries == old(entries) - (set p | p in resourceEntry.Keys - pending :: resourceEntry[p])
          decreases pending
        {
          var p :| p in pending;
          RemoveJob(resourceEntry[p]);
          pending := pending - {p};
        }
        assert (set p | p in resourceEntry.Keys :: resourceEntry[p]) == resourceEntry.Values;
        resourceEntries := resourceEntries - {resourceName};
      }
    }

    method ListResourceEntry(nn: NamespacedName) returns (resourceEntry: ResourceEntry)
      ensures resourceEntry == Listed(Snapshot(), nn)
    {
      var resourceName := ResourceEntryName(nn);
      if resourceName in resourceEntries {
        return resourceEntries[resourceName];
      }
      return map[];
    }
  }
}
