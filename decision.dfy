/**
 * What CreateOrPatchHPA decides and reports (controllers/cronhpa.go:186-242):
 * create the HPA when none is stored, leave it when its spec already equals
 * the desired one, patch it otherwise; then record an event and stamp the
 * CronHPA's status with the current time.
 */
module Decision {
  import opened Wrappers
  import opened Errors
  import opened V1alpha1

  /** An event recorded against the CronHPA: its reason and message. */
  datatype Event = Event(reason: string, message: string)

  /** The three ways the stored HPA is brought to the desired spec. */
  datatype Action = Create | Unchanged | Patch

  /** Create when absent, nothing when the spec is already equal, patch otherwise. */
  function Decide(current: Option<HPASpec>, desired: HPASpec): (a: Action)
    ensures a == Create <==> current.None?
    ensures a == Unchanged <==> current == Some(desired)
    ensures a == Patch <==> current.Some? && current.value != desired
  {
    match current
    case None => Create
    case Some(spec) => if spec == desired then Unchanged else Patch
  }

  /** The stored HPA spec after the action succeeds. */
  function Stored(current: Option<HPASpec>, a: Action, desired: HPASpec): Option<HPASpec>
  {
    if a == Unchanged then current else Some(desired)
  }

  /**
   * Whatever the starting point, the action leaves the desired spec stored,
   * and deciding again then changes nothing: reconciliation converges in one step.
   */
  lemma DecideConverges(current: Option<HPASpec>, desired: HPASpec)
    ensures Stored(current, Decide(current, desired), desired) == Some(desired)
    ensures Decide(Stored(current, Decide(current, desired), desired), desired) == Unchanged
  {
  }

  /** The store call each action makes, named for StoreError; Unchanged makes none. */
  function WriteCall(a: Action): string
  {
    if a == Create then "Create" else "Patch"
  }

  /** The event's message before the patch name is appended. */
  function BaseMessage(a: Action, hpaName: string): string
  {
    match a
    case Create => "Created HPA " + hpaName
    case Unchanged => "Updated HPA " + hpaName + " without changes"
    case Patch => "Updated HPA " + hpaName
  }

  /** The event of an action: Created or Updated, " with <patch>" appended for a named patch. */
  function EventOf(a: Action, hpaName: string, patchName: string): Event
  {
    var reason := if a == Create then "Created" else "Updated";
    var base := BaseMessage(a, hpaName);
    Event(reason, if patchName != "" then base + " with " + patchName else base)
  }

  /**
   * The reason is Created exactly for a creation; the message names the HPA and
   * ends with " with <patch>" exactly when a patch is named.
   */
  lemma EventOfMeaning(a: Action, hpaName: string, patchName: string)
    ensures var e := EventOf(a, hpaName, patchName);
      && (e.reason == "Created" <==> a == Create)
      && (e.reason == "Updated" <==> a != Create)
      && |BaseMessage(a, hpaName)| <= |e.message|
      && e.message[..|BaseMessage(a, hpaName)|] == BaseMessage(a, hpaName)
      && (patchName == "" ==> e.message == BaseMessage(a, hpaName))
      && (patchName != "" ==> e.message[|BaseMessage(a, hpaName)|..] == " with " + patchName)
  {
    var base := BaseMessage(a, hpaName);
    assert "Created" != "Updated" by { assert "Created"[0] != "Updated"[0]; }
    if patchName != "" {
      assert base + " with " + patchName == base + (" with " + patchName);
      SplitAfter(base, " with " + patchName);
    }
  }

  /** A concatenation splits back into its two parts. */
  lemma SplitAfter(base: string, rest: string)
    ensures (base + rest)[..|base|] == base
    ensures (base + rest)[|base|..] == rest
  {
  }

  /** Which Kubernetes API calls fail in a run; each stands for a non-NotFound error of that call. */
  datatype Faults = Faults(ownerReference: bool, get: bool, write: bool, statusUpdate: bool)

  /**
   * The result of one CreateOrPatchHPA: the error returned, the HPA spec stored
   * afterwards, the event recorded, whether the status was stamped in memory
   * and whether the stamped status reached the store.
   */
  datatype Outcome = Outcome(err: Option<Error>, stored: Option<HPASpec>, event: Option<Event>,
                             stamped: bool, persisted: bool)

  /** Nothing happened: the run stopped with `e` before any write. */
  function Stopped(e: Error, current: Option<HPASpec>): Outcome
  {
    Outcome(Some(e), current, None, false, false)
  }

  /**
   * The writing half of a run, once the desired spec `d` is built and owned:
   * each failing call returns at once; a successful create, patch or no-op
   * records its event and stamps the status, whose update may still fail.
   */
  function Written(d: HPASpec, current: Option<HPASpec>, faults: Faults, hpaName: string, patchName: string): Outcome
  {
    if faults.get then Stopped(StoreError("Get"), current)
    else
      var a := Decide(current, d);
      if a != Unchanged && faults.write then Stopped(StoreError(WriteCall(a)), current)
      else
        Outcome(if faults.statusUpdate then Some(StoreError("Status().Update")) else None,
                Stored(current, a, d), Some(EventOf(a, hpaName, patchName)), true, !faults.statusUpdate)
  }

  /**
   * One run, given the desired spec (or NewHPA's error), the stored HPA and the
   * failing calls: NewHPA's error or a failed owner reference stop it before
   * any write; the rest is the writing half.
   */
  function CreateOrPatch(desired: Result<HPASpec, Error>, current: Option<HPASpec>, faults: Faults,
                         hpaName: string, patchName: string): Outcome
  {
    match desired
    case Err(e) => Stopped(e, current)
    case Ok(d) =>
      if faults.ownerReference then Stopped(StoreError("SetControllerReference"), current)
      else Written(d, current, faults, hpaName, patchName)
  }

  /** The calls a run with this desired spec and stored HPA needs all succeed. */
  predicate Reaches(desired: Result<HPASpec, Error>, current: Option<HPASpec>, faults: Faults)
  {
    && desired.Ok? && !faults.ownerReference && !faults.get
    && (Decide(current, desired.value) == Unchanged || !faults.write)
  }

  /**
   * A run stores the desired spec and records its event exactly when it gets
   * past every call before the status update; otherwise it changes nothing and
   * records nothing. The status is stamped exactly in the first case, and the
   * run succeeds exactly when the status update also succeeds.
   */
  lemma CreateOrPatchMeaning(desired: Result<HPASpec, Error>, current: Option<HPASpec>, faults: Faults,
                             hpaName: string, patchName: string)
    ensures var o := CreateOrPatch(desired, current, faults, hpaName, patchName);
      && (o.stamped <==> Reaches(desired, current, faults))
      && (o.stamped ==>
            && o.stored == Some(desired.value)
            && o.event == Some(EventOf(Decide(current, desired.value), hpaName, patchName)))
      && (!o.stamped ==> o.stored == current && o.event.None? && o.err.Some?)
      && (o.err.None? <==> Reaches(desired, current, faults) && !faults.statusUpdate)
      && (o.persisted <==> o.err.None?)
      && (desired.Err? ==> o.err == Some(desired.error))
  {
    if desired.Ok? {
      DecideConverges(current, desired.value);
    }
  }

  /** A run against an HPA that already has the desired spec writes nothing, even if writes would fail. */
  lemma CreateOrPatchUnchangedWritesNothing(d: HPASpec, faults: Faults, hpaName: string, patchName: string)
    requires !faults.ownerReference && !faults.get
    ensures var o := CreateOrPatch(Ok(d), Some(d), faults, hpaName, patchName);
      && o.stored == Some(d)
      && o.event == Some(Event("Updated", EventOf(Unchanged, hpaName, patchName).message))
      && (o.err.None? <==> !faults.statusUpdate)
  {
  }
}
