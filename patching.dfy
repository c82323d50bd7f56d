/**
 * Building the HPA a CronHPA asks for (ApplyHPAPatch and NewHPA,
 * controllers/cronhpa.go:86-139): the template's spec, overridden by the
 * fields the named patch sets.
 */
module Patching {
  import opened Wrappers
  import opened Errors
  import opened V1alpha1

  /** The index of the first scheduled patch with that name, if any. */
  function FindPatch(patches: seq<ScheduledPatch>, name: string): (r: Option<nat>)
    ensures r.None? <==> forall i :: 0 <= i < |patches| ==> patches[i].name != name
    ensures r.Some? ==> r.value < |patches| && patches[r.value].name == name
    ensures r.Some? ==> forall j :: 0 <= j < r.value ==> patches[j].name != name
    decreases |patches|
  {
    if patches == [] then None
    else if patches[0].name == name then Some(0)
    else
      match FindPatch(patches[1..], name)
      case None => None
      case Some(i) => Some(i + 1)
  }

  /**
   * The override writes MinReplicas through the spec's pointer, so a patch that
   * sets it needs a spec whose MinReplicas is present (otherwise Go dereferences nil).
   */
  predicate CanApply(spec: HPASpec, patch: Option<HPAPatch>)
  {
    patch.Some? && patch.value.minReplicas.Some? ==> spec.minReplicas.Some?
  }

  /** The override: each field the patch sets replaces the spec's; an absent patch changes nothing. */
  function PatchSpec(spec: HPASpec, patch: Option<HPAPatch>): HPASpec
    requires CanApply(spec, patch)
  {
    match patch
    case None => spec
    case Some(p) =>
      spec.(minReplicas := if p.minReplicas.Some? then p.minReplicas else spec.minReplicas,
            maxReplicas := if p.maxReplicas.Some? then p.maxReplicas.value else spec.maxReplicas,
            metrics := if p.metrics.Some? then p.metrics.value else spec.metrics)
  }

  /**
   * Only what the patch sets is overwritten: the scale target and behavior are
   * kept, and each of MinReplicas, MaxReplicas and Metrics is the patch's value
   * when the patch sets it and the spec's otherwise.
   */
  lemma PatchSpecOverridesOnlySetFields(spec: HPASpec, patch: Option<HPAPatch>)
    requires CanApply(spec, patch)
    ensures var r := PatchSpec(spec, patch);
      && r.scaleTargetRef == spec.scaleTargetRef && r.behavior == spec.behavior
      && r.minReplicas == (if patch.Some? && patch.value.minReplicas.Some? then patch.value.minReplicas else spec.minReplicas)
      && r.maxReplicas == (if patch.Some? && patch.value.maxReplicas.Some? then patch.value.maxReplicas.value else spec.maxReplicas)
      && r.metrics == (if patch.Some? && patch.value.metrics.Some? then patch.value.metrics.value else spec.metrics)
      && (r.minReplicas.Some? <==> spec.minReplicas.Some?)
  {
  }

  /**
   * Applying a patch twice is applying it once: the patched spec is already
   * what the patch asks for, so a later reconciliation finds nothing to change.
   */
  lemma PatchSpecIdempotent(spec: HPASpec, patch: Option<HPAPatch>)
    requires CanApply(spec, patch)
    ensures CanApply(PatchSpec(spec, patch), patch)
    ensures PatchSpec(PatchSpec(spec, patch), patch) == PatchSpec(spec, patch)
  {
  }

  /** NewHPA's precondition: the named patch, if it exists, can be applied to the template. */
  predicate Patchable(cronSpec: CronHPASpec, patchName: string)
  {
    var i := FindPatch(cronSpec.scheduledPatches, patchName);
    patchName != "" && i.Some? ==> CanApply(cronSpec.template.spec, cronSpec.scheduledPatches[i.value].patch)
  }

  /**
   * The spec NewHPA builds: the template's for "", the first patch of that name
   * applied to the template otherwise, and UnknownPatch when no patch has it.
   */
  function DesiredSpec(cronSpec: CronHPASpec, patchName: string): Result<HPASpec, Error>
    requires Patchable(cronSpec, patchName)
  {
    if patchName == "" then Ok(cronSpec.template.spec)
    else
      match FindPatch(cronSpec.scheduledPatches, patchName)
      case None => Err(UnknownPatch(patchName))
      case Some(i) => Ok(PatchSpec(cronSpec.template.spec, cronSpec.scheduledPatches[i].patch))
  }

  /**
   * The desired spec fails exactly for a non-empty name no patch carries; it
   * differs from the template only in the fields of the first patch of that name.
   */
  lemma DesiredSpecMeaning(cronSpec: CronHPASpec, patchName: string)
    requires Patchable(cronSpec, patchName)
    ensures DesiredSpec(cronSpec, patchName).Err? <==>
      patchName != "" && forall i :: 0 <= i < |cronSpec.scheduledPatches| ==> cronSpec.scheduledPatches[i].name != patchName
    ensures DesiredSpec(cronSpec, patchName).Err? ==> DesiredSpec(cronSpec, patchName).error == UnknownPatch(patchName)
    ensures DesiredSpec(cronSpec, patchName).Ok? && patchName != "" ==>
      exists i :: 0 <= i < |cronSpec.scheduledPatches| && cronSpec.scheduledPatches[i].name == patchName
        && (forall j :: 0 <= j < i ==> cronSpec.scheduledPatches[j].name != patchName)
        && DesiredSpec(cronSpec, patchName).value == PatchSpec(cronSpec.template.spec, cronSpec.scheduledPatches[i].patch)
  {
  }

  /** The labels of the HPA to create: the template's, or none without template metadata. */
  function TemplateLabels(t: HPATemplate): map<string, string>
  {
    if t.metadata.Some? then t.metadata.value.labels else map[]
  }

  /** The annotations of the HPA to create: the template's, or none without template metadata. */
  function TemplateAnnotations(t: HPATemplate): map<string, string>
  {
    if t.metadata.Some? then t.metadata.value.annotations else map[]
  }

  /**
   * The NewHPA scenario: a template of 1..10 replicas at 50% CPU and a patch
   * "one" of 3..15 replicas at 30% CPU give the template for "" and the patched
   * values for "one"; an unknown name is an error.
   */
  lemma NewHPAScenario()
    ensures
      var target := CrossVersionObjectReference("apps/v1", "Deployment", "cron-hpa-nginx");
      var cpu50 := MetricSpec("Resource", "cpu", "Utilization", 50);
      var cpu30 := MetricSpec("Resource", "cpu", "Utilization", 30);
      var template := HPASpec(target, Some(1), 10, [cpu50], None);
      var one := ScheduledPatch("one", "0,10,20,30,40,50 * * * *", "Asia/Tokyo", Some(HPAPatch(Some(3), Some(15), Some([cpu30]))));
      var cronSpec := CronHPASpec(HPATemplate(None, template), [one]);
      && DesiredSpec(cronSpec, "") == Ok(template)
      && DesiredSpec(cronSpec, "one") == Ok(HPASpec(target, Some(3), 15, [cpu30], None))
      && DesiredSpec(cronSpec, "two") == Err(UnknownPatch("two"))
  {
    var one := ScheduledPatch("one", "0,10,20,30,40,50 * * * *", "Asia/Tokyo", Some(HPAPatch(Some(3), Some(15), Some([MetricSpec("Resource", "cpu", "Utilization", 30)]))));
    assert "two" != "one" by { assert "two"[0] != "one"[0]; }
    assert FindPatch([one], "two") == None;
  }
}
