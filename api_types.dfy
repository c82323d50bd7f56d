/**
 * The CronHorizontalPodAutoscaler API (group cron-hpa.dtaniwaki.github.com,
 * version v1alpha1) and the parts of the autoscaling HorizontalPodAutoscaler spec
 * that the controllers read or write.
 */
module V1alpha1 {
  import opened Wrappers

  /** Kubernetes declares replica counts as `int32`. */
  type Int32 = x: int | -0x8000_0000 <= x < 0x8000_0000

  /** One entry of an HPA's `metrics` list, kept as a value the controllers only copy. */
  datatype MetricSpec = MetricSpec(metricType: string, resourceName: string, targetType: string, averageUtilization: Int32)

  /** The workload an HPA scales. */
  datatype CrossVersionObjectReference = CrossVersionObjectReference(apiVersion: string, kind: string, name: string)

  /**
   * An HPA spec. `minReplicas` is a pointer in Go (absent = nil); `scaleTargetRef`
   * and `behavior` stand for every field no patch can touch.
   */
  datatype HPASpec = HPASpec(
    scaleTargetRef: CrossVersionObjectReference,
    minReplicas: Option<Int32>,
    maxReplicas: Int32,
    metrics: seq<MetricSpec>,
    behavior: Option<string>)

  /** Labels and annotations for the HPA to create. */
  datatype TemplateMetadata = TemplateMetadata(labels: map<string, string>, annotations: map<string, string>)

  /** The HPA to create: optional metadata and a full spec. */
  datatype HPATemplate = HPATemplate(metadata: Option<TemplateMetadata>, spec: HPASpec)

  /** A partial override of the template's spec; each field is independently optional. */
  datatype HPAPatch = HPAPatch(minReplicas: Option<Int32>, maxReplicas: Option<Int32>, metrics: Option<seq<MetricSpec>>)

  /**
   * A patch with the cron schedule at which it takes effect. `timezone` is a plain
   * string whose empty value means "no time zone prefix"; an absent `patch` applies nothing.
   */
  datatype ScheduledPatch = ScheduledPatch(name: string, schedule: string, timezone: string, patch: Option<HPAPatch>)

  /** The desired state of a CronHorizontalPodAutoscaler. */
  datatype CronHPASpec = CronHPASpec(template: HPATemplate, scheduledPatches: seq<ScheduledPatch>)

  /**
   * The observed state: the instant of the last applied cron decision (absent until
   * the first one) and the name of the last scheduled patch ("" by default).
   */
  datatype CronHPAStatus = CronHPAStatus(lastCronTimestamp: Option<int>, lastScheduledPatchName: string)

  /** A character of the class `[a-zA-Z0-9\-]`. */
  predicate IsNameChar(c: char)
  {
    ('a' <= c <= 'z') || ('A' <= c <= 'Z') || ('0' <= c <= '9') || c == '-'
  }

  /**
   * The validation markers on a scheduled patch's name: length 1 to 16, and the
   * pattern `[a-zA-Z0-9\-]+` read as an OpenAPI pattern, which is not anchored:
   * it asks for at least one character of the class somewhere in the name.
   */
  predicate ValidScheduledPatchName(name: string)
  {
    1 <= |name| <= 16 && exists i :: 0 <= i < |name| && IsNameChar(name[i])
  }

  /** The anchored reading of the same pattern: every character is of the class. */
  predicate WhollyOfNameChars(name: string)
  {
    |name| >= 1 && forall i :: 0 <= i < |name| ==> IsNameChar(name[i])
  }

  /** The two readings differ: the unanchored one admits names with other characters. */
  lemma UnanchoredPatternIsWeaker(name: string)
    requires |name| <= 16
    ensures WhollyOfNameChars(name) ==> ValidScheduledPatchName(name)
    ensures ValidScheduledPatchName("a b") && !WhollyOfNameChars("a b")
  {
    if WhollyOfNameChars(name) {
      assert IsNameChar(name[0]);
    }
    assert IsNameChar("a b"[0]) && !IsNameChar("a b"[1]);
  }
}
