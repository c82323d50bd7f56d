/** Optional values and error-carrying results shared by every module. */
module Wrappers {

  /** A value that may be absent: Go's nil pointers and optional fields. */
  datatype Option<+T> = None | Some(value: T)

  /** A value or an error: Go's `(value, error)` return pairs. */
  datatype Result<+T, +E> = Ok(value: T) | Err(error: E)
}

/** Searching strings. */
module Strings {

  /** The index of the first `c` in `s` at or after `from`, or |s| when there is none. */
  function FirstIndexOf(s: string, c: char, from: nat): (i: nat)
    requires from <= |s|
    ensures from <= i <= |s|
    ensures i < |s| ==> s[i] == c
    ensures forall j :: from <= j < i ==> s[j] != c
    decreases |s| - from
  {
    if from == |s| || s[from] == c then from else FirstIndexOf(s, c, from + 1)
  }

  /** Go's strings.Join: the parts with `sep` between neighbours; "" for no parts. */
  function Join(parts: seq<string>, sep: char): string
  {
    if |parts| == 0 then ""
    else if |parts| == 1 then parts[0]
    else parts[0] + [sep] + Join(parts[1..], sep)
  }

  /** Go's strings.Split on one character: the pieces between occurrences of `sep`. */
  function Split(s: string, sep: char): (parts: seq<string>)
    ensures |parts| >= 1
    decreases |s|
  {
    var i := FirstIndexOf(s, sep, 0);
    if i == |s| then [s] else [s[..i]] + Split(s[i + 1..], sep)
  }

  /** Splitting a join gives the parts back when no part contains the separator. */
  lemma {:induction false} SplitJoin(parts: seq<string>, sep: char)
    requires |parts| >= 1
    requires forall k :: 0 <= k < |parts| ==> sep !in parts[k]
    ensures Split(Join(parts, sep), sep) == parts
    decreases |parts|
  {
    var a := parts[0];
    if |parts| == 1 {
      var i := FirstIndexOf(a, sep, 0);
      assert i == |a|;
    } else {
      var rest := Join(parts[1..], sep);
      var s := a + [sep] + rest;
      assert Join(parts, sep) == s;
      var i := FirstIndexOf(s, sep, 0);
      assert s[|a|] == sep;
      assert i == |a|;
      assert s[..i] == a;
      assert s[i + 1..] == rest;
      SplitJoin(parts[1..], sep);
      assert Split(s, sep) == [a] + parts[1..];
    }
  }
}

/** The errors the controllers return. */
module Errors {

  datatype Error =
    /** The cron parser refused a schedule string (controllers/cron.go:67, controllers/cronhpa.go:157). */
    | InvalidSchedule(spec: string)
    /** "Cannot find the next schedule of <patch>" (controllers/cronhpa.go:170). */
    | ScheduleSearchExhausted(patchName: string)
    /** "No schedule patch named <patch>" (controllers/cronhpa.go:95). */
    | UnknownPatch(patchName: string)
    /** A call into the Kubernetes API failed; `operation` names the call. */
    | StoreError(operation: string)
}
