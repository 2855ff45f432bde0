/**
 * The logging helper `safeJSONStringify`: the JSON text of a value, cut to
 * a maximum length with a fixed marker, or a fixed placeholder when the
 * value cannot be serialised. `JSON.stringify` itself is foreign and enters
 * as its outcome: `Some(text)`, or `None` when it throws (a cycle, a BigInt)
 * or yields `undefined` (whose `.length` then throws inside the same `try`).
 */
module SafeJson {
  import opened Common

  /** The default of the `maxLength` parameter. */
  const DefaultMaxLength: int := 100

  /** Appended after the kept characters of a truncated text. */
  const TruncationMarker: string := "... [truncated]"

  /** Returned when serialisation fails. */
  const UnserializableText: string := "[Unserializable Object]"

  function Min(a: int, b: int): int
  {
    if a <= b then a else b
  }

  /** JavaScript's `s.slice(0, end)`: a negative `end` counts back from the end. */
  function SliceTo(s: string, end: int): (r: string)
    ensures r <= s
    ensures 0 <= end ==> |r| == Min(end, |s|)
    ensures end < 0 ==> |r| == if |s| + end > 0 then |s| + end else 0
  {
    if end >= 0 then (if end <= |s| then s[..end] else s)
    else if |s| + end > 0 then s[..|s| + end]
    else ""
  }

  /** `safeJSONStringify(obj, maxLength)` where `stringified` is the outcome of `JSON.stringify(obj)`. */
  function SafeJsonStringify(stringified: Option<string>, maxLength: int): (r: string)
    ensures stringified.None? ==> r == UnserializableText
    ensures stringified.Some? && |stringified.value| <= maxLength ==> r == stringified.value
    ensures stringified.Some? && 0 <= maxLength < |stringified.value| ==>
              r == stringified.value[..maxLength] + TruncationMarker
    ensures stringified.Some? && 0 <= maxLength ==>
              |r| <= maxLength + |TruncationMarker| &&
              stringified.value[..Min(|stringified.value|, maxLength)] <= r
  {
    match stringified
    case None => UnserializableText
    case Some(str) =>
      if |str| > maxLength then SliceTo(str, maxLength) + TruncationMarker else str
  }

  /** The call with the default bound of 100 characters. */
  function SafeJsonStringifyDefault(stringified: Option<string>): (r: string)
    ensures stringified.Some? && |stringified.value| <= 100 ==> r == stringified.value
    ensures stringified.Some? && |stringified.value| > 100 ==>
              r == stringified.value[..100] + "... [truncated]"
  {
    SafeJsonStringify(stringified, DefaultMaxLength)
  }

  /** The marker is fifteen characters long, so a truncated text is exactly
      `maxLength + 15` characters long. */
  lemma TruncatedLength(str: string, maxLength: nat)
    requires |str| > maxLength
    ensures |SafeJsonStringify(Some(str), maxLength)| == maxLength + 15
  {
  }

  /** A negative bound counts from the end, as `slice` does: the text loses
      its last `-maxLength` characters before the marker is added. */
  lemma NegativeBound(str: string, k: int)
    requires 0 < k < |str|
    ensures SafeJsonStringify(Some(str), -k) == str[..|str| - k] + TruncationMarker
  {
  }
}
