/**
 * The two JavaScript string operations the authentication core relies on:
 * `String.prototype.trim` (used by the "field is blank" guards) and
 * `String.prototype.replace` with a string pattern, which replaces the FIRST
 * occurrence of the pattern wherever it stands (used to strip "Bearer ").
 */
module JsString {
  import opened Wrappers

  /** The characters `trim` removes: ECMAScript WhiteSpace and LineTerminator. */
  predicate IsWhitespace(c: char)
  {
    || '\t' <= c <= '\r'            // tab, line feed, vertical tab, form feed, carriage return
    || c == ' ' || c == '\U{00A0}' || c == '\U{1680}'
    || '\U{2000}' <= c <= '\U{200A}'
    || c == '\U{2028}' || c == '\U{2029}' || c == '\U{202F}' || c == '\U{205F}'
    || c == '\U{3000}' || c == '\U{FEFF}'
  }

  predicate AllWhitespace(s: string)
  {
    forall i :: 0 <= i < |s| ==> IsWhitespace(s[i])
  }

  /** The index of the first character at or after `from` that is not whitespace, or `|s|`. */
  function FirstNonWhitespace(s: string, from: nat): (i: nat)
    requires from <= |s|
    ensures from <= i <= |s|
    ensures forall j :: from <= j < i ==> IsWhitespace(s[j])
    ensures i < |s| ==> !IsWhitespace(s[i])
    decreases |s| - from
  {
    if from < |s| && IsWhitespace(s[from]) then FirstNonWhitespace(s, from + 1) else from
  }

  /**
   * One past the last character before `high` that is not whitespace,
   * looking no further back than `low`.
   */
  function AfterLastNonWhitespace(s: string, low: nat, high: nat): (j: nat)
    requires low <= high <= |s|
    ensures low <= j <= high
    ensures forall k :: j <= k < high ==> IsWhitespace(s[k])
    ensures low < j ==> !IsWhitespace(s[j - 1])
    decreases high
  {
    if low < high && IsWhitespace(s[high - 1]) then AfterLastNonWhitespace(s, low, high - 1) else high
  }

  /**
   * `s.trim()`: the slice of `s` that starts at its first non-whitespace
   * character, with everything before and after it whitespace; the slice
   * neither starts nor ends with whitespace, so it is empty exactly when `s`
   * is all whitespace.
   */
  function Trim(s: string): (r: string)
    ensures
      var a := FirstNonWhitespace(s, 0);
      && a + |r| <= |s| && r == s[a..a + |r|]
      && (forall j :: 0 <= j < a ==> IsWhitespace(s[j]))
      && (forall j :: a + |r| <= j < |s| ==> IsWhitespace(s[j]))
    ensures r == [] || (!IsWhitespace(r[0]) && !IsWhitespace(r[|r| - 1]))
    ensures r == [] <==> AllWhitespace(s)
  {
    var a := FirstNonWhitespace(s, 0);
    s[a..AfterLastNonWhitespace(s, a, |s|)]
  }

  /**
   * The JavaScript test `!field || field.trim() === ""` on an optional
   * string: it holds exactly for a missing field or one made only of
   * whitespace.
   */
  predicate Blank(field: Option<string>)
    ensures Blank(field) <==> field.None? || AllWhitespace(field.value)
  {
    field.None? || field.value == "" || Trim(field.value) == ""
  }

  /** JavaScript truthiness of an optional string: present and non-empty. */
  predicate Truthy(field: Option<string>)
  {
    field.Some? && field.value != ""
  }

  predicate OccursAt(s: string, pat: string, i: nat)
  {
    i + |pat| <= |s| && s[i..i + |pat|] == pat
  }

  /** The first position at or after `from` where `pat` occurs in `s`. */
  function IndexFrom(s: string, pat: string, from: nat): (r: Option<nat>)
    requires from <= |s|
    ensures r.Some? ==> from <= r.value && OccursAt(s, pat, r.value)
    ensures r.Some? ==> forall j :: from <= j < r.value ==> !OccursAt(s, pat, j)
    ensures r.None? ==> forall j :: from <= j <= |s| ==> !OccursAt(s, pat, j)
    decreases |s| - from
  {
    if OccursAt(s, pat, from) then Some(from)
    else if from == |s| then None
    else IndexFrom(s, pat, from + 1)
  }

  /** `s.indexOf(pat)`. */
  function IndexOf(s: string, pat: string): (r: Option<nat>)
    ensures r.Some? ==> OccursAt(s, pat, r.value)
    ensures r.Some? ==> forall j :: 0 <= j < r.value ==> !OccursAt(s, pat, j)
    ensures r.None? ==> forall j :: 0 <= j <= |s| ==> !OccursAt(s, pat, j)
  {
    IndexFrom(s, pat, 0)
  }

  /**
   * `s.replace(pat, rep)` with a string pattern and a replacement that holds
   * no `$` (JavaScript expands `$$`, `$&`, `` $` `` and `$'` in the
   * replacement; the core only ever replaces with ""): only the first
   * occurrence is replaced.
   */
  function ReplaceFirst(s: string, pat: string, rep: string): (r: string)
    ensures (forall j :: 0 <= j <= |s| ==> !OccursAt(s, pat, j)) ==> r == s
    ensures IndexOf(s, pat).Some? ==>
      var i := IndexOf(s, pat).value;
      && |r| == |s| - |pat| + |rep|
      && r[..i] == s[..i] && r[i..i + |rep|] == rep && r[i + |rep|..] == s[i + |pat|..]
  {
    match IndexOf(s, pat)
    case None => s
    case Some(i) => s[..i] + rep + s[i + |pat|..]
  }

  /**
   * The replacement is not anchored: when the text before the first
   * occurrence is `p`, that occurrence is cut out of the middle, so
   * `"xBearer t".replace("Bearer ", "")` is `"xt"`.
   */
  lemma {:induction false} ReplaceFirstCutsFirstOccurrence(p: string, pat: string, q: string, rep: string)
    requires forall j :: 0 <= j < |p| ==> !OccursAt(p + pat + q, pat, j)
    ensures ReplaceFirst(p + pat + q, pat, rep) == p + rep + q
  {
    var s := p + pat + q;
    assert s[|p|..|p| + |pat|] == pat;
    assert OccursAt(s, pat, |p|);
    var i := IndexOf(s, pat).value;
    assert i == |p|;
    assert s[..i] == p;
    assert s[i + |pat|..] == q;
  }

  /** Removing a leading pattern leaves exactly what followed it. */
  lemma PrefixRemoved(pat: string, q: string)
    ensures ReplaceFirst(pat + q, pat, "") == q
  {
    ReplaceFirstCutsFirstOccurrence([], pat, q, "");
    assert [] + pat + q == pat + q;
  }
}
