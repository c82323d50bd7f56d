/**
 * Which scheduled patch is in effect now (GetCurrentPatchName,
 * controllers/cronhpa.go:141-184): from the anchor instant, each patch's
 * schedule is stepped forward with the cron library's `next` until it passes the
 * current instant, at most MaxScheduleTry + 1 times; the patch whose last
 * activation in (anchor, now] is strictly latest wins, earlier-declared patches
 * keeping the win on ties.
 */
module Resolution {
  import opened Wrappers
  import opened Errors
  import opened CronLib
  import opened V1alpha1
  import opened Strings

  /** MAX_SCHEDULE_TRY. */
  const MaxScheduleTry: nat := 1000000

  /** The string handed to the parser: the schedule, behind a `CRON_TZ=<zone> ` prefix when a zone is set. */
  function ScheduleSpec(sp: ScheduledPatch): string
  {
    if sp.timezone != "" then "CRON_TZ=" + sp.timezone + " " + sp.schedule else sp.schedule
  }

  /**
   * How a string built by ScheduleSpec splits back into zone and schedule: a
   * `CRON_TZ=` prefix names the zone up to the first space, and the schedule
   * follows that space; without the prefix there is no zone.
   */
  function SplitTimezone(spec: string): (string, string)
  {
    if |spec| >= 8 && spec[..8] == "CRON_TZ=" then
      var i := FirstIndexOf(spec, ' ', 8);
      (spec[8..i], if i < |spec| then spec[i + 1..] else "")
    else
      ("", spec)
  }

  /**
   * The zone and the schedule survive the trip through the schedule string, as
   * long as the zone has no space and a zone-less schedule does not itself start
   * with the prefix.
   */
  lemma ScheduleSpecRoundTrip(sp: ScheduledPatch)
    requires ' ' !in sp.timezone
    requires sp.timezone == "" ==> !(|sp.schedule| >= 8 && sp.schedule[..8] == "CRON_TZ=")
    ensures SplitTimezone(ScheduleSpec(sp)) == (sp.timezone, sp.schedule)
  {
    if sp.timezone != "" {
      var spec := ScheduleSpec(sp);
      var n := 8 + |sp.timezone|;
      assert spec[..8] == "CRON_TZ=";
      assert spec[n] == ' ';
      forall j | 8 <= j < n ensures spec[j] != ' ' {
        assert spec[j] == sp.timezone[j - 8];
      }
      assert FirstIndexOf(spec, ' ', 8) == n by {
        var i := FirstIndexOf(spec, ' ', 8);
        assert !(i < n);
        assert !(i > n);
      }
      assert spec[8..n] == sp.timezone;
      assert spec[n + 1..] == sp.schedule;
    }
  }

  /**
   * The inner search loop (controllers/cronhpa.go:161-172) from step `i`, at
   * instant `t`: step to the next activation; stop at `t` when there is none or
   * it lies after `now`; fail when step MaxScheduleTry still lands inside the window.
   */
  function ScanFrom(next: (Schedule, int) -> Option<int>, s: Schedule, name: string, t: int, now: int, i: nat)
    : (r: Result<int, Error>)
    ensures r.Ok? ==> r.value == t || r.value <= now
    ensures r.Err? ==> r.error == ScheduleSearchExhausted(name)
    decreases MaxScheduleTry + 1 - i
  {
    if i > MaxScheduleTry then Ok(t)
    else
      match next(s, t)
      case None => Ok(t)
      case Some(u) =>
        if u > now then Ok(t)
        else if i == MaxScheduleTry then Err(ScheduleSearchExhausted(name))
        else ScanFrom(next, s, name, u, now, i + 1)
  }

  /** One patch's contribution: parse its schedule string, then search from the anchor. */
  function LatestIn(lib: CronLibrary, sp: ScheduledPatch, anchor: int, now: int): Result<int, Error>
  {
    match lib.parse(ScheduleSpec(sp))
    case None => Err(InvalidSchedule(ScheduleSpec(sp)))
    case Some(s) => ScanFrom(lib.next, s, sp.name, anchor, now, 0)
  }

  /** The outer loop's state: `mostLatestTime` and the index of the patch chosen so far. */
  datatype Choice = Choice(best: int, winner: Option<nat>)

  /**
   * The outer loop (controllers/cronhpa.go:151-177) over a prefix of the
   * patches: the first error in declaration order, or the choice after the
   * prefix. A patch replaces the choice when its result is strictly after the
   * best so far and not after `now`.
   */
  function ResolveFrom(lib: CronLibrary, patches: seq<ScheduledPatch>, anchor: int, now: int)
    : (r: Result<Choice, Error>)
    ensures r.Ok? ==> r.value.best >= anchor
    ensures r.Ok? && r.value.winner.None? ==> r.value.best == anchor
    ensures r.Ok? && r.value.winner.Some? ==>
      r.value.winner.value < |patches| && anchor < r.value.best <= now
    decreases |patches|
  {
    if patches == [] then Ok(Choice(anchor, None))
    else
      var k := |patches| - 1;
      match ResolveFrom(lib, patches[..k], anchor, now)
      case Err(e) => Err(e)
      case Ok(c) =>
        match LatestIn(lib, patches[k], anchor, now)
        case Err(e) => Err(e)
        case Ok(latest) => Ok(if latest > c.best && latest <= now then Choice(latest, Some(k)) else c)
  }

  /** The name the loop reports for a choice: "" when no patch was chosen. */
  function NameOf(patches: seq<ScheduledPatch>, c: Choice): string
  {
    match c.winner
    case None => ""
    case Some(w) => if w < |patches| then patches[w].name else ""
  }

  /** GetCurrentPatchName as a function of the patches, the anchor and the current instant. */
  function Resolve(lib: CronLibrary, patches: seq<ScheduledPatch>, anchor: Option<int>, now: int): Result<string, Error>
  {
    match anchor
    case None => Ok("")
    case Some(a) =>
      match ResolveFrom(lib, patches, a, now)
      case Err(e) => Err(e)
      case Ok(c) => Ok(NameOf(patches, c))
  }

  // ---------------------------------------------------------------------------
  // What the search computes, stated without the step bound.

  /** The k-th activation of `s` after `t`; the 0-th is `t` itself, None once there is no next one. */
  function Iter(lib: CronLibrary, s: Schedule, t: int, k: nat): Option<int>
    decreases k
  {
    if k == 0 then Some(t)
    else
      match lib.next(s, t)
      case None => None
      case Some(u) => Iter(lib, s, u, k - 1)
  }

  /** The number of activations of `s` in (t, now]. */
  ghost function FireCount(lib: CronLibrary, s: Schedule, t: int, now: int): nat
    requires lib.NextIsLater()
    decreases now - t
  {
    match lib.next(s, t)
    case None => 0
    case Some(u) => if u > now then 0 else 1 + FireCount(lib, s, u, now)
  }

  /** The last activation of `s` in (t, now], or `t` when there is none. */
  ghost function LatestFireTime(lib: CronLibrary, s: Schedule, t: int, now: int): int
    requires lib.NextIsLater()
    decreases now - t
  {
    match lib.next(s, t)
    case None => t
    case Some(u) => if u > now then t else LatestFireTime(lib, s, u, now)
  }

  /** Activations only move forward: the k-th after `t` is at least `t`, and after it when k > 0. */
  lemma {:induction false} IterIncreasing(lib: CronLibrary, s: Schedule, t: int, k: nat)
    requires lib.NextIsLater()
    ensures Iter(lib, s, t, k).Some? ==> Iter(lib, s, t, k).value >= t
    ensures k > 0 && Iter(lib, s, t, k).Some? ==> Iter(lib, s, t, k).value > t
    decreases k
  {
    if k > 0 && lib.next(s, t).Some? {
      IterIncreasing(lib, s, lib.next(s, t).value, k - 1);
    }
  }

  /**
   * FireCount counts the activations in the window: the k-th activation
   * exists and lies at or before `now` exactly when k <= FireCount.
   */
  lemma {:induction false} FireCountCounts(lib: CronLibrary, s: Schedule, t: int, now: int, k: nat)
    requires lib.NextIsLater()
    ensures (Iter(lib, s, t, k).Some? && Iter(lib, s, t, k).value <= now) <==> (k <= FireCount(lib, s, t, now) && (k > 0 || t <= now))
    decreases k
  {
    if k > 0 {
      match lib.next(s, t)
      case None =>
      case Some(u) =>
        if u > now {
          IterIncreasing(lib, s, u, k - 1);
        } else {
          FireCountCounts(lib, s, u, now, k - 1);
        }
    }
  }

  /**
   * LatestFireTime is the last activation in the window: it is the
   * FireCount-th activation, every activation at or before `now` is at or before
   * it, it is after `t` exactly when the window holds an activation, and the
   * schedule's next activation after it lies beyond `now`.
   */
  lemma {:induction false} LatestFireTimeIsLatest(lib: CronLibrary, s: Schedule, t: int, now: int)
    requires lib.NextIsLater()
    ensures var latest := LatestFireTime(lib, s, t, now);
      && Iter(lib, s, t, FireCount(lib, s, t, now)) == Some(latest)
      && latest >= t
      && (latest > t <==> FireCount(lib, s, t, now) > 0)
      && (latest > t ==> latest <= now)
      && (lib.next(s, latest).None? || lib.next(s, latest).value > now)
      && forall k: nat :: Iter(lib, s, t, k).Some? && Iter(lib, s, t, k).value <= now ==> Iter(lib, s, t, k).value <= latest
    decreases now - t
  {
    var latest := LatestFireTime(lib, s, t, now);
    match lib.next(s, t)
    case None =>
      forall k: nat | Iter(lib, s, t, k).Some? && Iter(lib, s, t, k).value <= now
        ensures Iter(lib, s, t, k).value <= latest
      {
        assert k == 0;
      }
    case Some(u) =>
      if u > now {
        forall k: nat | Iter(lib, s, t, k).Some? && Iter(lib, s, t, k).value <= now
          ensures Iter(lib, s, t, k).value <= latest
        {
          if k > 0 {
            IterIncreasing(lib, s, u, k - 1);
          }
        }
      } else {
        LatestFireTimeIsLatest(lib, s, u, now);
        forall k: nat | Iter(lib, s, t, k).Some? && Iter(lib, s, t, k).value <= now
          ensures Iter(lib, s, t, k).value <= latest
        {
          if k > 0 {
            assert Iter(lib, s, t, k) == Iter(lib, s, u, k - 1);
          }
        }
      }
  }

  /**
   * The bounded search agrees with the unbounded definition: from step `i` it
   * fails exactly when the window holds more activations than the steps left,
   * and otherwise yields the last activation in the window.
   */
  lemma {:induction false} ScanFromMeaning(lib: CronLibrary, s: Schedule, name: string, t: int, now: int, i: nat)
    requires lib.NextIsLater()
    requires i <= MaxScheduleTry
    ensures ScanFrom(lib.next, s, name, t, now, i) ==
      if FireCount(lib, s, t, now) > MaxScheduleTry - i then Err(ScheduleSearchExhausted(name))
      else Ok(LatestFireTime(lib, s, t, now))
    decreases MaxScheduleTry - i
  {
    match lib.next(s, t)
    case None =>
    case Some(u) =>
      if u <= now && i < MaxScheduleTry {
        ScanFromMeaning(lib, s, name, u, now, i + 1);
      }
  }

  /** A patch has an activation in (anchor, now]. */
  ghost predicate Fires(lib: CronLibrary, sp: ScheduledPatch, anchor: int, now: int)
    requires lib.NextIsLater()
  {
    lib.parse(ScheduleSpec(sp)).Some? && FireCount(lib, lib.parse(ScheduleSpec(sp)).value, anchor, now) > 0
  }

  /** A patch's last activation in (anchor, now], or the anchor. */
  ghost function LatestOf(lib: CronLibrary, sp: ScheduledPatch, anchor: int, now: int): int
    requires lib.NextIsLater()
    requires lib.parse(ScheduleSpec(sp)).Some?
  {
    LatestFireTime(lib, lib.parse(ScheduleSpec(sp)).value, anchor, now)
  }

  /**
   * One patch's search result: an unparsable schedule fails with
   * InvalidSchedule, more than MaxScheduleTry activations in the window fail
   * with ScheduleSearchExhausted, anything else yields its last activation.
   */
  lemma LatestInMeaning(lib: CronLibrary, sp: ScheduledPatch, anchor: int, now: int)
    requires lib.NextIsLater()
    ensures LatestIn(lib, sp, anchor, now) ==
      match lib.parse(ScheduleSpec(sp))
      case None => Err(InvalidSchedule(ScheduleSpec(sp)))
      case Some(s) =>
        if FireCount(lib, s, anchor, now) > MaxScheduleTry then Err(ScheduleSearchExhausted(sp.name))
        else Ok(LatestFireTime(lib, s, anchor, now))
  {
    if lib.parse(ScheduleSpec(sp)).Some? {
      ScanFromMeaning(lib, lib.parse(ScheduleSpec(sp)).value, sp.name, anchor, now, 0);
    }
  }

  // ---------------------------------------------------------------------------
  // The outer loop.

  /** Once a prefix fails, the whole call fails with the same error. */
  lemma {:induction false} ResolveFromPrefixError(lib: CronLibrary, patches: seq<ScheduledPatch>, k: nat, anchor: int, now: int)
    requires k <= |patches|
    requires ResolveFrom(lib, patches[..k], anchor, now).Err?
    ensures ResolveFrom(lib, patches, anchor, now) == ResolveFrom(lib, patches[..k], anchor, now)
    decreases |patches|
  {
    if k < |patches| {
      var n := |patches| - 1;
      assert patches[..n][..k] == patches[..k];
      ResolveFromPrefixError(lib, patches[..n], k, anchor, now);
    } else {
      assert patches[..k] == patches;
    }
  }

  /** One more patch searched without error extends the fold by that patch's result. */
  lemma ResolveFromStep(lib: CronLibrary, patches: seq<ScheduledPatch>, j: nat, anchor: int, now: int,
                        c: Choice, latest: int)
    requires j < |patches|
    requires ResolveFrom(lib, patches[..j], anchor, now) == Ok(c)
    requires LatestIn(lib, patches[j], anchor, now) == Ok(latest)
    ensures ResolveFrom(lib, patches[..j + 1], anchor, now)
      == Ok(if latest > c.best && latest <= now then Choice(latest, Some(j)) else c)
  {
    assert patches[..j + 1][..j] == patches[..j];
  }

  /** A patch whose search fails ends the whole call with its error. */
  lemma ResolveFromStepError(lib: CronLibrary, patches: seq<ScheduledPatch>, j: nat, anchor: int, now: int)
    requires j < |patches|
    requires ResolveFrom(lib, patches[..j], anchor, now).Ok?
    requires LatestIn(lib, patches[j], anchor, now).Err?
    ensures Resolve(lib, patches, Some(anchor), now) == Err(LatestIn(lib, patches[j], anchor, now).error)
  {
    assert patches[..j + 1][..j] == patches[..j];
    ResolveFromPrefixError(lib, patches, j + 1, anchor, now);
  }

  /**
   * The call fails exactly when some patch's search fails, and then with the
   * error of the first such patch in declaration order.
   */
  lemma {:induction false} ResolveFromErrors(lib: CronLibrary, patches: seq<ScheduledPatch>, anchor: int, now: int)
    ensures ResolveFrom(lib, patches, anchor, now).Err? <==>
      exists i :: 0 <= i < |patches| && LatestIn(lib, patches[i], anchor, now).Err?
    ensures ResolveFrom(lib, patches, anchor, now).Err? ==>
      exists i :: 0 <= i < |patches| && LatestIn(lib, patches[i], anchor, now).Err?
        && LatestIn(lib, patches[i], anchor, now).error == ResolveFrom(lib, patches, anchor, now).error
        && forall j :: 0 <= j < i ==> LatestIn(lib, patches[j], anchor, now).Ok?
    decreases |patches|
  {
    if patches != [] {
      var k := |patches| - 1;
      var prefix := patches[..k];
      ResolveFromErrors(lib, prefix, anchor, now);
      assert forall i :: 0 <= i < k ==> prefix[i] == patches[i];
      if ResolveFrom(lib, prefix, anchor, now).Err? {
        var i :| 0 <= i < k && LatestIn(lib, prefix[i], anchor, now).Err?
          && LatestIn(lib, prefix[i], anchor, now).error == ResolveFrom(lib, prefix, anchor, now).error
          && forall j :: 0 <= j < i ==> LatestIn(lib, prefix[j], anchor, now).Ok?;
        assert LatestIn(lib, patches[i], anchor, now).error == ResolveFrom(lib, patches, anchor, now).error;
      } else if LatestIn(lib, patches[k], anchor, now).Err? {
        assert forall j :: 0 <= j < k ==> LatestIn(lib, prefix[j], anchor, now).Ok?;
      } else {
        forall i | 0 <= i < |patches| ensures LatestIn(lib, patches[i], anchor, now).Ok? {
          if i < k {
            assert LatestIn(lib, prefix[i], anchor, now).Ok?;
          }
        }
      }
    }
  }

  /** A patch's search succeeds with an instant in (anchor, now]. */
  predicate InWindow(lib: CronLibrary, sp: ScheduledPatch, anchor: int, now: int)
  {
    LatestIn(lib, sp, anchor, now).Ok? && anchor < LatestIn(lib, sp, anchor, now).value <= now
  }

  /** When the call succeeds, so did every patch's search. */
  lemma {:induction false} ResolveFromAllOk(lib: CronLibrary, patches: seq<ScheduledPatch>, anchor: int, now: int)
    requires ResolveFrom(lib, patches, anchor, now).Ok?
    ensures forall i :: 0 <= i < |patches| ==> LatestIn(lib, patches[i], anchor, now).Ok?
    decreases |patches|
  {
    if patches != [] {
      var k := |patches| - 1;
      ResolveFromAllOk(lib, patches[..k], anchor, now);
      assert forall i :: 0 <= i < k ==> patches[..k][i] == patches[i];
    }
  }

  /** No patch is chosen exactly when no patch's search result lies in (anchor, now]. */
  lemma {:induction false} ResolveFromNoWinner(lib: CronLibrary, patches: seq<ScheduledPatch>, anchor: int, now: int)
    requires ResolveFrom(lib, patches, anchor, now).Ok?
    ensures ResolveFrom(lib, patches, anchor, now).value.winner.None? <==>
      forall i :: 0 <= i < |patches| ==> !InWindow(lib, patches[i], anchor, now)
    decreases |patches|
  {
    if patches != [] {
      var k := |patches| - 1;
      var prefix := patches[..k];
      ResolveFromNoWinner(lib, prefix, anchor, now);
      assert forall i :: 0 <= i < k ==> prefix[i] == patches[i];
      var c0 := ResolveFrom(lib, prefix, anchor, now).value;
      if c0.winner.None? {
        assert c0.best == anchor;
      }
    }
  }

  /**
   * A chosen patch's search result lies in (anchor, now] and is the best; it is
   * at least every other result in the window, and strictly greater than that
   * of every earlier-declared patch in the window.
   */
  lemma {:induction false} ResolveFromWinner(lib: CronLibrary, patches: seq<ScheduledPatch>, anchor: int, now: int)
    requires ResolveFrom(lib, patches, anchor, now).Ok?
    requires ResolveFrom(lib, patches, anchor, now).value.winner.Some?
    ensures var c := ResolveFrom(lib, patches, anchor, now).value;
      var w := c.winner.value;
      && w < |patches|
      && LatestIn(lib, patches[w], anchor, now) == Ok(c.best)
      && InWindow(lib, patches[w], anchor, now)
      && (forall i :: 0 <= i < |patches| && InWindow(lib, patches[i], anchor, now) ==>
            LatestIn(lib, patches[i], anchor, now).value <= c.best)
      && (forall i :: 0 <= i < w && InWindow(lib, patches[i], anchor, now) ==>
            LatestIn(lib, patches[i], anchor, now).value < c.best)
    decreases |patches|
  {
    var k := |patches| - 1;
    var prefix := patches[..k];
    assert forall i :: 0 <= i < k ==> prefix[i] == patches[i];
    var c0 := ResolveFrom(lib, prefix, anchor, now).value;
    var latest := LatestIn(lib, patches[k], anchor, now).value;
    var c := ResolveFrom(lib, patches, anchor, now).value;
    if latest > c0.best && latest <= now {
      assert c == Choice(latest, Some(k));
      if c0.winner.Some? {
        ResolveFromWinner(lib, prefix, anchor, now);
      } else {
        ResolveFromNoWinner(lib, prefix, anchor, now);
      }
    } else {
      assert c == c0;
      ResolveFromWinner(lib, prefix, anchor, now);
    }
  }

  // ---------------------------------------------------------------------------
  // GetCurrentPatchName's promises.

  /** Without an anchor the answer is "no patch", whatever is declared. */
  lemma ResolveWithoutAnchor(lib: CronLibrary, patches: seq<ScheduledPatch>, now: int)
    ensures Resolve(lib, patches, None, now) == Ok("")
  {
  }

  /**
   * A non-empty answer names a declared patch that has an activation in
   * (anchor, now] and whose last activation there is at least every other
   * firing patch's, and strictly later than every earlier-declared firing patch's.
   */
  lemma ResolveNamesLatestFiringPatch(lib: CronLibrary, patches: seq<ScheduledPatch>, anchor: int, now: int, name: string)
    requires lib.NextIsLater()
    requires Resolve(lib, patches, Some(anchor), now) == Ok(name) && name != ""
    ensures exists w :: (
      && 0 <= w < |patches| && patches[w].name == name && Fires(lib, patches[w], anchor, now)
      && (forall i :: 0 <= i < |patches| && Fires(lib, patches[i], anchor, now) ==>
            LatestOf(lib, patches[i], anchor, now) <= LatestOf(lib, patches[w], anchor, now))
      && (forall i :: 0 <= i < w && Fires(lib, patches[i], anchor, now) ==>
            LatestOf(lib, patches[i], anchor, now) < LatestOf(lib, patches[w], anchor, now)))
  {
    ResolveFromAllOk(lib, patches, anchor, now);
    ResolveFromWinner(lib, patches, anchor, now);
    var c := ResolveFrom(lib, patches, anchor, now).value;
    var w := c.winner.value;
    forall i | 0 <= i < |patches|
      ensures lib.parse(ScheduleSpec(patches[i])).Some?
      ensures LatestIn(lib, patches[i], anchor, now) == Ok(LatestOf(lib, patches[i], anchor, now))
      ensures Fires(lib, patches[i], anchor, now) <==> anchor < LatestOf(lib, patches[i], anchor, now) <= now
    {
      LatestInMeaning(lib, patches[i], anchor, now);
      var s := lib.parse(ScheduleSpec(patches[i])).value;
      LatestFireTimeIsLatest(lib, s, anchor, now);
    }
  }

  /**
   * With every schedule parsing and no patch firing in (anchor, now], the
   * answer is "no patch".
   */
  lemma ResolveEmptyWhenNothingFires(lib: CronLibrary, patches: seq<ScheduledPatch>, anchor: int, now: int)
    requires lib.NextIsLater()
    requires forall i :: 0 <= i < |patches| ==> lib.parse(ScheduleSpec(patches[i])).Some?
    requires forall i :: 0 <= i < |patches| ==> !Fires(lib, patches[i], anchor, now)
    ensures Resolve(lib, patches, Some(anchor), now) == Ok("")
  {
    forall i | 0 <= i < |patches|
      ensures LatestIn(lib, patches[i], anchor, now) == Ok(anchor)
    {
      LatestInMeaning(lib, patches[i], anchor, now);
      LatestFireTimeIsLatest(lib, lib.parse(ScheduleSpec(patches[i])).value, anchor, now);
    }
    ResolveFromErrors(lib, patches, anchor, now);
    ResolveFromNoWinner(lib, patches, anchor, now);
  }

  /**
   * An anchor at or after the current instant leaves no window: the answer is
   * "no patch" unless a schedule does not parse.
   */
  lemma ResolveAnchorNotBeforeNow(lib: CronLibrary, patches: seq<ScheduledPatch>, anchor: int, now: int)
    requires lib.NextIsLater()
    requires anchor >= now
    ensures Resolve(lib, patches, Some(anchor), now) == Ok("")
      || Resolve(lib, patches, Some(anchor), now).error.InvalidSchedule?
  {
    forall i | 0 <= i < |patches|
      ensures LatestIn(lib, patches[i], anchor, now).Ok? ==> LatestIn(lib, patches[i], anchor, now).value == anchor
      ensures LatestIn(lib, patches[i], anchor, now).Err? ==> LatestIn(lib, patches[i], anchor, now).error.InvalidSchedule?
    {
      LatestInMeaning(lib, patches[i], anchor, now);
    }
    ResolveFromErrors(lib, patches, anchor, now);
    if ResolveFrom(lib, patches, anchor, now).Ok? {
      ResolveFromNoWinner(lib, patches, anchor, now);
    }
  }

  /**
   * Ties go to the earlier-declared patch: when two patches' last activations
   * in the window coincide, the later-declared one is not chosen.
   */
  lemma ResolveTieGoesToEarlier(lib: CronLibrary, patches: seq<ScheduledPatch>, anchor: int, now: int, i: nat, j: nat)
    requires i < j < |patches|
    requires ResolveFrom(lib, patches, anchor, now).Ok?
    requires LatestIn(lib, patches[i], anchor, now) == LatestIn(lib, patches[j], anchor, now)
    requires LatestIn(lib, patches[i], anchor, now).Ok?
    requires anchor < LatestIn(lib, patches[i], anchor, now).value <= now
    ensures ResolveFrom(lib, patches, anchor, now).value.winner != Some(j)
  {
    if ResolveFrom(lib, patches, anchor, now).value.winner.Some? {
      ResolveFromWinner(lib, patches, anchor, now);
    }
  }
  // ---------------------------------------------------------------------------
  // The weekday/weekend scenario. Instants count days from 2021-09-01 00:00 in
  // Asia/Tokyo: 3 is Sat 09-04, 14 is Wed 09-15, 30 is Fri 10-01, 31 Sat 10-02,
  // 32 Sun 10-03, 33 Mon 10-04, 34 Tue 10-05, 38 Sat 10-09.

  /** A patch for weekdays in October. */
  const Weekday := ScheduledPatch("weekday", "0 0 * 10 mon-fri", "Asia/Tokyo", None)

  /** A patch for weekends in October. */
  const Weekend := ScheduledPatch("weekend", "0 0 * 10 sat,sun", "Asia/Tokyo", None)

  /**
   * Anchored at 09-04, with the two schedules activating at midnight on the
   * October days the library reports: on Mon 10-04 the weekday patch is in
   * force, on Sat 10-02 the weekend patch, and on Wed 09-15 neither.
   */
  lemma WeekdayWeekendScenario(lib: CronLibrary, wd: Schedule, we: Schedule)
    requires lib.parse(ScheduleSpec(Weekday)) == Some(wd) && lib.parse(ScheduleSpec(Weekend)) == Some(we)
    requires lib.next(wd, 3) == Some(30) && lib.next(wd, 30) == Some(33) && lib.next(wd, 33) == Some(34)
    requires lib.next(we, 3) == Some(31) && lib.next(we, 31) == Some(32) && lib.next(we, 32) == Some(38)
    ensures Resolve(lib, [Weekday, Weekend], Some(3), 33) == Ok("weekday")
    ensures Resolve(lib, [Weekday, Weekend], Some(3), 31) == Ok("weekend")
    ensures Resolve(lib, [Weekday, Weekend], Some(3), 14) == Ok("")
  {
    var patches := [Weekday, Weekend];
    assert patches[..0] == [] && patches[..2] == patches;
    assert ScanFrom(lib.next, wd, "weekday", 3, 33, 0) == Ok(33);
    assert ScanFrom(lib.next, we, "weekend", 3, 33, 0) == Ok(32);
    ResolveFromStep(lib, patches, 0, 3, 33, Choice(3, None), 33);
    ResolveFromStep(lib, patches, 1, 3, 33, Choice(33, Some(0)), 32);
    assert ScanFrom(lib.next, wd, "weekday", 3, 31, 0) == Ok(30);
    assert ScanFrom(lib.next, we, "weekend", 3, 31, 0) == Ok(31);
    ResolveFromStep(lib, patches, 0, 3, 31, Choice(3, None), 30);
    ResolveFromStep(lib, patches, 1, 3, 31, Choice(30, Some(0)), 31);
    assert ScanFrom(lib.next, wd, "weekday", 3, 14, 0) == Ok(3);
    assert ScanFrom(lib.next, we, "weekend", 3, 14, 0) == Ok(3);
    ResolveFromStep(lib, patches, 0, 3, 14, Choice(3, None), 3);
    ResolveFromStep(lib, patches, 1, 3, 14, Choice(3, None), 3);
  }
}
