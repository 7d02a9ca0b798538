/** JavaScript value semantics that the rest of the model relies on: optional
    values, truthiness, the white space that `String.prototype.trim` and the
    regular-expression class `\s` agree on, `slice(0, n)`, `endsWith` and
    `toLowerCase` on the characters that matter here. */
module Js {

  datatype Option<+T> = None | Some(value: T)

  /** A value read out of a parsed JSON body. Strings are kept; any other value
      (undefined, null, a number, an object) is kept only as its truthiness and
      the text `String(v)` would give. */
  datatype JsValue = Str(s: string) | Other(truthy: bool, text: string)

  const Undefined: JsValue := Other(false, "undefined")

  predicate Truthy(v: JsValue) {
    match v
    case Str(s) => s != ""
    case Other(t, _) => t
  }

  /** `String(v)`, which is also what a template literal embeds and what a
      property lookup uses as its key. */
  function ToString(v: JsValue): string {
    match v
    case Str(s) => s
    case Other(_, text) => text
  }

  /** `a || b` on two values. */
  function Or(a: JsValue, b: JsValue): (r: JsValue)
    ensures Truthy(r) <==> Truthy(a) || Truthy(b)
    ensures Truthy(a) ==> r == a
    ensures !Truthy(a) ==> r == b
  {
    if Truthy(a) then a else b
  }

  /** `x || fallback` where x is an optional string (absent and "" are falsy). */
  function OrElse(x: Option<string>, fallback: string): (r: string)
    ensures x.Some? && x.value != "" ==> r == x.value
    ensures x.None? || x.value == "" ==> r == fallback
  {
    if x.Some? && x.value != "" then x.value else fallback
  }

  /** White space and line terminators, as ECMAScript defines them for `trim`
      and for `\s` in a regular expression. */
  const Spaces: set<char> := {'\t', '\n', '\U{000B}', '\U{000C}', '\r', ' ', '\U{00A0}', '\U{1680}',
    '\U{2000}', '\U{2001}', '\U{2002}', '\U{2003}', '\U{2004}', '\U{2005}', '\U{2006}', '\U{2007}',
    '\U{2008}', '\U{2009}', '\U{200A}', '\U{2028}', '\U{2029}', '\U{202F}', '\U{205F}', '\U{3000}', '\U{FEFF}'}
  predicate IsSpace(c: char) { c in Spaces }

  predicate AllSpace(s: string) {
    forall i :: 0 <= i < |s| ==> IsSpace(s[i])
  }

  /** Neither end of s is white space. */
  predicate Trimmed(s: string) {
    s != [] ==> !IsSpace(s[0]) && !IsSpace(s[|s| - 1])
  }

  /** The end of the run of white space that starts at i. */
  function SkipSpace(s: string, i: nat): (e: nat)
    requires i <= |s|
    ensures i <= e <= |s|
    ensures forall j :: i <= j < e ==> IsSpace(s[j])
    ensures e < |s| ==> !IsSpace(s[e])
    decreases |s| - i
  {
    if i < |s| && IsSpace(s[i]) then SkipSpace(s, i + 1) else i
  }

  /** The start of the run of white space, at or after lo, that ends at hi. */
  function SkipSpaceBack(s: string, lo: nat, hi: nat): (b: nat)
    requires lo <= hi <= |s|
    ensures lo <= b <= hi
    ensures forall j :: b <= j < hi ==> IsSpace(s[j])
    ensures b > lo ==> !IsSpace(s[b - 1])
    decreases hi - lo
  {
    if lo < hi && IsSpace(s[hi - 1]) then SkipSpaceBack(s, lo, hi - 1) else hi
  }

  /** `s.trim()`: what lies between the leading and the trailing white space. */
  function Trim(s: string): (r: string)
    ensures Trimmed(r)
    ensures var a := SkipSpace(s, 0); r == s[a..SkipSpaceBack(s, a, |s|)]
  {
    var a := SkipSpace(s, 0);
    var b := SkipSpaceBack(s, a, |s|);
    assert a < b ==> s[a..b][0] == s[a] && s[a..b][b - a - 1] == s[b - 1];
    s[a..b]
  }

  /** A string trims to "" exactly when it is all white space. */
  lemma TrimEmptyIffBlank(s: string)
    ensures Trim(s) == "" <==> AllSpace(s)
  {
    var a := SkipSpace(s, 0);
    var b := SkipSpaceBack(s, a, |s|);
    if a < |s| {
      assert !IsSpace(s[a]);
      assert a < b;
    }
  }

  /** SkipSpace stops at the first character that is not white space. */
  lemma {:induction false} SkipSpaceAt(s: string, i: nat, e: nat)
    requires i <= e <= |s|
    requires forall j :: i <= j < e ==> IsSpace(s[j])
    requires e < |s| ==> !IsSpace(s[e])
    ensures SkipSpace(s, i) == e
    decreases e - i
  {
    if i < e {
      SkipSpaceAt(s, i + 1, e);
    }
  }

  /** A trimmed string is its own trim. */
  lemma TrimOfTrimmed(s: string)
    requires Trimmed(s)
    ensures Trim(s) == s
  {
    assert SkipSpace(s, 0) == 0;
  }

  /** `s.slice(0, n)`. */
  function Slice(s: string, n: nat): (r: string)
    ensures |r| <= n && r <= s
    ensures |s| <= n ==> r == s
    ensures |s| > n ==> r == s[..n]
  {
    if |s| <= n then s else s[..n]
  }

  /** `s.endsWith(suffix)`. */
  predicate EndsWith(s: string, suffix: string) {
    |suffix| <= |s| && s[|s| - |suffix|..] == suffix
  }

  /** `toLowerCase` on one character; only the ASCII capitals are mapped,
      which is all that a comparison against a lower-case ASCII word needs. */
  function LowerChar(c: char): (r: char)
    ensures 'A' <= c <= 'Z' ==> 'a' <= r <= 'z' && r as int == c as int + 32
    ensures !('A' <= c <= 'Z') ==> r == c
  {
    if 'A' <= c <= 'Z' then (c as int - 'A' as int + 'a' as int) as char else c
  }

  function ToLower(s: string): (r: string)
    ensures |r| == |s|
    ensures forall i :: 0 <= i < |s| ==> r[i] == LowerChar(s[i])
  {
    if s == [] then [] else [LowerChar(s[0])] + ToLower(s[1..])
  }
}
