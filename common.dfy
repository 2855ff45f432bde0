/**
 * Values shared by every part of the model: failure-compatible wrappers,
 * JSON values, the conversation message shape of the inference backend,
 * and the few JavaScript string operations the source relies on
 * (`indexOf`, `split`, `replace` with a string pattern, `trim`).
 */
module Common {

  datatype Option<+T> = None | Some(value: T)

  datatype Result<+T, +E> = Ok(value: T) | Err(error: E)

  /** A JSON value: tool inputs, tool input schemas and tool results. */
  datatype Json =
    | JNull
    | JBool(b: bool)
    | JNumber(n: int)
    | JString(s: string)
    | JArray(items: seq<Json>)
    | JObject(fields: seq<(string, Json)>)

  /** The empty object `{}`. */
  const EmptyObject: Json := JObject([])

  datatype Role = User | Assistant

  /** One block of a message: text, a tool invocation, or any other kind
      (images, tool results, ...) that the core passes through untouched. */
  datatype ContentBlock =
    | Text(text: string)
    | ToolUse(toolUseId: string, name: string, input: Json)
    | OtherBlock

  datatype Message = Message(role: Role, content: seq<ContentBlock>)

  /** A message holding one text block, the only shape the core creates. */
  function TextMessage(role: Role, text: string): (m: Message)
    ensures m.role == role && m.content == [Text(text)]
  {
    Message(role, [Text(text)])
  }

  // ---------------------------------------------------------------------
  // Concatenation

  /** The in-order concatenation of `parts`, built the way `s += part` builds it. */
  function Concat(parts: seq<string>): string
  {
    if parts == [] then "" else Concat(parts[..|parts| - 1]) + parts[|parts| - 1]
  }

  lemma AppendAssoc<T>(a: seq<T>, b: seq<T>, c: seq<T>)
    ensures (a + b) + c == a + (b + c)
  {
  }

  lemma {:induction false} ConcatAppend(a: seq<string>, b: seq<string>)
    ensures Concat(a + b) == Concat(a) + Concat(b)
    decreases |b|
  {
    if b == [] {
      assert a + b == a;
    } else {
      var b' := b[..|b| - 1];
      assert (a + b)[..|a + b| - 1] == a + b';
      ConcatAppend(a, b');
      AppendAssoc(Concat(a), Concat(b'), b[|b| - 1]);
    }
  }

  // ---------------------------------------------------------------------
  // Searching for a substring

  /** `d` occurs in `s` starting at index `j`. */
  predicate OccursAt(s: string, d: string, j: int)
  {
    0 <= j && j + |d| <= |s| && s[j..j + |d|] == d
  }

  /** The first index at or after `from` where `d` occurs in `s`. */
  function IndexOfFrom(s: string, d: string, from: nat): (r: Option<nat>)
    ensures r.Some? ==> from <= r.value && OccursAt(s, d, r.value)
    ensures r.Some? ==> forall j :: from <= j < r.value ==> !OccursAt(s, d, j)
    ensures r.None? ==> forall j :: from <= j ==> !OccursAt(s, d, j)
    decreases |s| - from
  {
    if from + |d| > |s| then None
    else if s[from..from + |d|] == d then Some(from)
    else IndexOfFrom(s, d, from + 1)
  }

  /** JavaScript's `s.indexOf(d)`: the first occurrence, if any. */
  function IndexOf(s: string, d: string): (r: Option<nat>)
    ensures r.Some? <==> exists j :: OccursAt(s, d, j)
    ensures r.Some? ==> OccursAt(s, d, r.value) && forall j :: 0 <= j < r.value ==> !OccursAt(s, d, j)
  {
    IndexOfFrom(s, d, 0)
  }

  /** JavaScript's `s.includes(d)`. */
  predicate Contains(s: string, d: string)
  {
    IndexOf(s, d).Some?
  }

  lemma PrefixOccurs(s: string, p: string)
    requires p <= s
    ensures IndexOf(s, p) == Some(0)
  {
    assert OccursAt(s, p, 0);
  }

  /** The middle of a concatenation occurs in it. */
  lemma InfixOccurs(x: string, y: string, z: string)
    ensures Contains(x + y + z, y)
  {
    var s := x + y + z;
    assert s[|x|..|x| + |y|] == y;
    assert OccursAt(s, y, |x|);
  }

  /** Occurrence is transitive. */
  lemma ContainsWithin(s: string, t: string, u: string)
    requires Contains(s, t) && Contains(t, u)
    ensures Contains(s, u)
  {
    var i := IndexOf(s, t).value;
    var k := IndexOf(t, u).value;
    assert OccursAt(s, t, i) && OccursAt(t, u, k);
    OccursWithin(s, t, u, i, k);
  }

  lemma OccursWithin(s: string, t: string, u: string, i: nat, k: nat)
    requires OccursAt(s, t, i) && OccursAt(t, u, k)
    ensures Contains(s, u)
  {
    SliceOfSlice(s, i, i + |t|, k, k + |u|);
    assert OccursAt(s, u, i + k);
  }

  lemma SliceOfSlice<T>(s: seq<T>, i: nat, j: nat, k: nat, l: nat)
    requires i <= j <= |s| && k <= l <= j - i
    ensures s[i..j][k..l] == s[i + k..i + l]
  {
    var a, b := s[i..j][k..l], s[i + k..i + l];
    forall x | 0 <= x < |a| ensures a[x] == b[x] {
      assert a[x] == s[i..j][k + x] == s[i + k + x];
    }
  }

  lemma ConcatSnoc(parts: seq<string>, p: string)
    ensures Concat(parts + [p]) == Concat(parts) + p
  {
    assert (parts + [p])[..|parts|] == parts;
  }

  lemma ConcatAround(parts: seq<string>, k: nat)
    requires k < |parts|
    ensures Concat(parts) == Concat(parts[..k]) + parts[k] + Concat(parts[k + 1..])
  {
    AroundIndex(parts, k);
    ConcatThree(parts, parts[..k], parts[k], parts[k + 1..]);
  }

  lemma AroundIndex<T>(s: seq<T>, k: nat)
    requires k < |s|
    ensures s == s[..k] + [s[k]] + s[k + 1..]
  {
  }

  lemma ConcatThree(s: seq<string>, x: seq<string>, p: string, y: seq<string>)
    requires s == x + [p] + y
    ensures Concat(s) == Concat(x) + p + Concat(y)
  {
    ConcatAppend(x + [p], y);
    ConcatSnoc(x, p);
  }

  lemma ContainsMiddle(s: string, x: string, y: string, z: string)
    requires s == x + y + z
    ensures Contains(s, y)
  {
    InfixOccurs(x, y, z);
  }

  /** Every part occurs in the concatenation of the parts. */
  lemma ConcatContains(parts: seq<string>, k: nat)
    requires k < |parts|
    ensures Contains(Concat(parts), parts[k])
  {
    ConcatAround(parts, k);
    ContainsMiddle(Concat(parts), Concat(parts[..k]), parts[k], Concat(parts[k + 1..]));
  }

  // ---------------------------------------------------------------------
  // `replace` with a string pattern and an empty replacement

  /** JavaScript's `s.replace(pat, '')`: removes the first occurrence of `pat`. */
  function RemoveFirst(s: string, pat: string): string
  {
    match IndexOf(s, pat)
    case None => s
    case Some(i) => s[..i] + s[i + |pat|..]
  }

  /** When `pat` is a prefix of `s`, its first occurrence is that prefix. */
  lemma RemoveFirstOfPrefix(pat: string, rest: string)
    ensures RemoveFirst(pat + rest, pat) == rest
  {
    var s := pat + rest;
    assert s[..|pat|] == pat;
    PrefixOccurs(s, pat);
    assert s[|pat|..] == rest;
  }

  // ---------------------------------------------------------------------
  // `split` with a non-empty string separator

  /** JavaScript's `s.split(d)` for a non-empty separator `d`. */
  function Split(s: string, d: string): (parts: seq<string>)
    requires |d| > 0
    ensures |parts| >= 1
    decreases |s|
  {
    match IndexOf(s, d)
    case None => [s]
    case Some(i) => [s[..i]] + Split(s[i + |d|..], d)
  }

  /** JavaScript's `parts.join(d)`. */
  function Join(parts: seq<string>, d: string): string
  {
    if |parts| == 0 then ""
    else if |parts| == 1 then parts[0]
    else parts[0] + d + Join(parts[1..], d)
  }

  /** A string cut around an occurrence of `d` at `i`. */
  lemma CutAt(s: string, d: string, i: nat)
    requires OccursAt(s, d, i)
    ensures s == s[..i] + d + s[i + |d|..]
  {
    assert s == s[..i] + s[i..i + |d|] + s[i + |d|..];
  }

  /** Nothing occurs in a prefix that ends before the first occurrence of `d` . */
  lemma NoOccurrenceBefore(s: string, d: string, i: nat)
    requires |d| > 0 && i <= |s|
    requires forall j :: 0 <= j < i ==> !OccursAt(s, d, j)
    ensures !Contains(s[..i], d)
  {
    var head := s[..i];
    forall j | OccursAt(head, d, j) ensures false {
      assert head[j..j + |d|] == s[j..j + |d|];
      assert OccursAt(s, d, j);
    }
  }

  /** Splitting loses nothing: joining the parts again gives back `s`,
      and no part holds a complete separator. */
  lemma {:induction false} SplitJoin(s: string, d: string)
    requires |d| > 0
    ensures Join(Split(s, d), d) == s
    ensures forall k :: 0 <= k < |Split(s, d)| ==> !Contains(Split(s, d)[k], d)
    decreases |s|
  {
    match IndexOf(s, d)
    case None =>
    case Some(i) =>
      var head, tail := s[..i], s[i + |d|..];
      var rest := Split(tail, d);
      SplitJoin(tail, d);
      CutAt(s, d, i);
      NoOccurrenceBefore(s, d, i);
      var parts := [head] + rest;
      assert Split(s, d) == parts;
      assert parts[1..] == rest;
      assert Join(parts, d) == head + d + Join(rest, d);
      forall k | 0 <= k < |parts| ensures !Contains(parts[k], d) {
        if k > 0 { assert parts[k] == rest[k - 1]; }
      }
  }

  /** The last part of a split is a suffix of the string. */
  lemma {:induction false} SplitLastSuffix(s: string, d: string)
    requires |d| > 0
    ensures var p := Split(s, d);
            |p[|p| - 1]| <= |s| && s[|s| - |p[|p| - 1]|..] == p[|p| - 1]
    decreases |s|
  {
    if IndexOf(s, d).Some? {
      var i := IndexOf(s, d).value;
      var tail := s[i + |d|..];
      SplitAt(s, d, i);
      SplitLastSuffix(tail, d);
      var q := Split(tail, d);
      LastOfCons(s[..i], q);
      SuffixOfSuffix(s, i + |d|, q[|q| - 1]);
    }
  }

  lemma LastOfCons<T>(x: T, q: seq<T>)
    requires |q| > 0
    ensures ([x] + q)[|[x] + q| - 1] == q[|q| - 1]
  {
  }

  /** A suffix of a suffix is a suffix. */
  lemma SuffixOfSuffix<T>(s: seq<T>, i: nat, t: seq<T>)
    requires i <= |s| && |t| <= |s| - i && s[i..][|s| - i - |t|..] == t
    ensures |t| <= |s| && s[|s| - |t|..] == t
  {
    assert s[i..][|s| - i - |t|..] == s[|s| - |t|..];
  }

  /** The first occurrence is determined by an occurrence with none before it. */
  lemma IndexOfIs(s: string, d: string, k: nat)
    requires OccursAt(s, d, k)
    requires forall j :: 0 <= j < k ==> !OccursAt(s, d, j)
    ensures IndexOf(s, d) == Some(k)
  {
  }

  /** A string without the first character of `d` does not contain `d`. */
  lemma MissingFirstChar(s: string, d: string)
    requires |d| > 0 && d[0] !in s
    ensures !Contains(s, d)
  {
    forall j | 0 <= j && j + |d| <= |s| ensures !OccursAt(s, d, j) {
      assert s[j..j + |d|][0] == s[j];
    }
  }

  /** An occurrence at `k` is the first when the first character of `d`
      does not appear before `k`. */
  lemma FirstOccurrence(s: string, d: string, k: nat)
    requires |d| > 0 && OccursAt(s, d, k) && d[0] !in s[..k]
    ensures IndexOf(s, d) == Some(k)
  {
    forall j | 0 <= j < k ensures !OccursAt(s, d, j) {
      assert s[j] == s[..k][j];
      assert s[j..j + |d|][0] == s[j];
    }
    IndexOfIs(s, d, k);
  }

  /** Appending text cannot move an occurrence that is already complete. */
  lemma IndexOfExtend(x: string, c: string, d: string)
    requires IndexOf(x, d).Some?
    ensures IndexOf(x + c, d) == IndexOf(x, d)
  {
    var i := IndexOf(x, d).value;
    var s := x + c;
    assert OccursAt(x, d, i);
    assert s[i..i + |d|] == x[i..i + |d|];
    forall j | 0 <= j < i ensures !OccursAt(s, d, j) {
      assert !OccursAt(x, d, j);
      assert s[j..j + |d|] == x[j..j + |d|];
    }
    IndexOfIs(s, d, i);
  }

  /** Splitting `x + c` splits `x` up to its last part, then splits that
      part with `c` appended: text that arrives later never changes the
      separators already seen. */
  lemma {:induction false} SplitAppend(x: string, c: string, d: string)
    requires |d| > 0
    ensures var p := Split(x, d);
            Split(x + c, d) == p[..|p| - 1] + Split(p[|p| - 1] + c, d)
    decreases |x|
  {
    var ix := IndexOf(x, d);
    if ix.Some? {
      var i := ix.value;
      IndexOfExtend(x, c, d);
      SplitAt(x, d, i);
      SplitAt(x + c, d, i);
      var head, tail := x[..i], x[i + |d|..];
      SliceAppend(x, c, i, i + |d|);
      SplitAppend(tail, c, d);
      var q := Split(tail, d);
      SplitAppendStep(Split(x, d), Split(x + c, d), head, q,
                      Split(q[|q| - 1] + c, d), Split(tail + c, d));
    }
  }

  /** One step of `Split` at the first occurrence. */
  lemma {:induction false} SplitAt(s: string, d: string, i: nat)
    requires |d| > 0 && IndexOf(s, d) == Some(i)
    ensures i + |d| <= |s|
    ensures Split(s, d) == [s[..i]] + Split(s[i + |d|..], d)
  {
    assert OccursAt(s, d, i);
  }

  lemma SliceAppend<T>(x: seq<T>, c: seq<T>, i: nat, j: nat)
    requires i <= j <= |x|
    ensures (x + c)[..i] == x[..i] && (x + c)[j..] == x[j..] + c
  {
  }

  lemma SplitAppendStep<T>(px: seq<T>, pxc: seq<T>, head: T, q: seq<T>, r: seq<T>, tc: seq<T>)
    requires |q| > 0
    requires px == [head] + q && pxc == [head] + tc && tc == q[..|q| - 1] + r
    ensures px[|px| - 1] == q[|q| - 1] && pxc == px[..|px| - 1] + r
  {
    assert px[..|px| - 1] == [head] + q[..|q| - 1];
  }

  // ---------------------------------------------------------------------
  // `trim`

  /** The characters JavaScript's `trim` removes: white space and line terminators. */
  predicate IsWhitespace(c: char)
  {
    c in {' ', '\t', '\n', '\r', '\U{000B}', '\U{000C}', '\U{00A0}', '\U{1680}',
          '\U{2000}', '\U{2001}', '\U{2002}', '\U{2003}', '\U{2004}', '\U{2005}',
          '\U{2006}', '\U{2007}', '\U{2008}', '\U{2009}', '\U{200A}', '\U{2028}',
          '\U{2029}', '\U{202F}', '\U{205F}', '\U{3000}', '\U{FEFF}'}
  }

  function TrimStart(s: string): string
  {
    if |s| > 0 && IsWhitespace(s[0]) then TrimStart(s[1..]) else s
  }

  function TrimEnd(s: string): string
  {
    if |s| > 0 && IsWhitespace(s[|s| - 1]) then TrimEnd(s[..|s| - 1]) else s
  }

  /** JavaScript's `s.trim()`. */
  function Trim(s: string): string
  {
    TrimEnd(TrimStart(s))
  }

  /** `!s.trim()`: the string is empty once trimmed. */
  predicate IsBlank(s: string)
  {
    Trim(s) == ""
  }

  predicate AllWhitespace(s: string)
  {
    forall i :: 0 <= i < |s| ==> IsWhitespace(s[i])
  }

  lemma {:induction false} TrimStartShape(s: string)
    ensures TrimStart(s) == [] || !IsWhitespace(TrimStart(s)[0])
    ensures TrimStart(s) == [] <==> AllWhitespace(s)
    decreases |s|
  {
    if |s| > 0 && IsWhitespace(s[0]) {
      TrimStartShape(s[1..]);
      if AllWhitespace(s[1..]) {
        forall i | 0 <= i < |s| ensures IsWhitespace(s[i]) {
          if i > 0 { assert s[1..][i - 1] == s[i]; }
        }
      }
      if AllWhitespace(s) {
        forall i | 0 <= i < |s| - 1 ensures IsWhitespace(s[1..][i]) {
          assert s[1..][i] == s[i + 1];
        }
      }
    }
  }

  lemma {:induction false} TrimEndEmpty(s: string)
    ensures TrimEnd(s) == [] <==> AllWhitespace(s)
    decreases |s|
  {
    if |s| > 0 && IsWhitespace(s[|s| - 1]) {
      var s' := s[..|s| - 1];
      TrimEndEmpty(s');
      if AllWhitespace(s') {
        forall i | 0 <= i < |s| ensures IsWhitespace(s[i]) {
          if i < |s| - 1 { assert s'[i] == s[i]; }
        }
      }
      if AllWhitespace(s) {
        forall i | 0 <= i < |s'| ensures IsWhitespace(s'[i]) {
          assert s'[i] == s[i];
        }
      }
    }
  }

  /** A string is blank exactly when every character of it is white space. */
  lemma BlankIffAllWhitespace(s: string)
    ensures IsBlank(s) <==> AllWhitespace(s)
  {
    TrimStartShape(s);
    TrimEndEmpty(TrimStart(s));
    var t := TrimStart(s);
    if t != [] {
      assert !IsWhitespace(t[0]);
    }
  }
}
