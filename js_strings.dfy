/** The JavaScript string operations the application relies on, over strings
    modelled as sequences of Unicode scalar values. Every pattern used by the
    application lies in the Basic Multilingual Plane, so nothing below depends
    on the UTF-16 code units JavaScript actually indexes. */
module JsStrings {
  import opened Wrappers

  /** `p` occurs in `s` starting at index `i`. */
  predicate OccursAt(s: string, p: string, i: nat) {
    i + |p| <= |s| && s[i..i + |p|] == p
  }

  /** `s.indexOf(p, from)`: the first index at or after `from` where `p`
      occurs, or `None` for JavaScript's -1. */
  function IndexOfFrom(s: string, p: string, from: nat): (r: Option<nat>)
    decreases |s| - from
    ensures r.Some? ==> from <= r.value && OccursAt(s, p, r.value)
    ensures r.Some? ==> forall j :: from <= j < r.value ==> !OccursAt(s, p, j)
    ensures r.None? ==> forall j :: from <= j ==> !OccursAt(s, p, j)
  {
    if from + |p| > |s| then None
    else if s[from..from + |p|] == p then Some(from)
    else IndexOfFrom(s, p, from + 1)
  }

  /** `s.indexOf(p)`. */
  function IndexOf(s: string, p: string): Option<nat> {
    IndexOfFrom(s, p, 0)
  }

  /** `s.includes(p)`. */
  predicate Includes(s: string, p: string) {
    IndexOf(s, p).Some?
  }

  /** `includes` holds exactly when the pattern occurs somewhere. */
  lemma IncludesIffOccurs(s: string, p: string)
    ensures Includes(s, p) <==> exists i :: OccursAt(s, p, i)
  {
    if exists i :: OccursAt(s, p, i) {
      var i :| OccursAt(s, p, i);
      assert !IndexOf(s, p).None?;
    }
  }

  /** A pattern holding a character that `s` lacks does not occur in `s`. */
  lemma MissingCharExcludes(s: string, p: string, c: char)
    requires c in p && c !in s
    ensures !Includes(s, p)
  {
  }

  /** The replacement text `String.prototype.replace` inserts for a string
      pattern (the GetSubstitution step of the ECMAScript standard, with no
      capture groups): `$$` stands for a dollar sign, `$&` for the matched
      text, `` $` `` for the text before the match and `$'` for the text after
      it; any other `$` stands for itself. */
  function Expand(r: string, matched: string, before: string, after: string): (e: string)
    decreases |r|
    ensures '$' !in r ==> e == r
  {
    if |r| == 0 then ""
    else if r[0] == '$' && |r| >= 2 && r[1] in "$&`'" then
      (match r[1]
       case '$' => "$"
       case '&' => matched
       case '`' => before
       case _ => after) + Expand(r[2..], matched, before, after)
    else [r[0]] + Expand(r[1..], matched, before, after)
  }

  /** `s.replace(p, r)` with a string pattern: only the first occurrence of
      `p` is replaced; without one, `s` is returned as it is. */
  function ReplaceFirst(s: string, p: string, r: string): (t: string)
    ensures !Includes(s, p) ==> t == s
    ensures Includes(s, p) && '$' !in r ==> |t| == |s| - |p| + |r|
  {
    match IndexOf(s, p)
    case None => s
    case Some(i) => s[..i] + Expand(r, p, s[..i], s[i + |p|..]) + s[i + |p|..]
  }

  /** Replacing at the first occurrence `i` keeps everything before it and
      everything after it, later occurrences of `p` included. */
  lemma ReplaceFirstAt(s: string, p: string, r: string, i: nat)
    requires OccursAt(s, p, i)
    requires forall j :: 0 <= j < i ==> !OccursAt(s, p, j)
    requires '$' !in r
    ensures ReplaceFirst(s, p, r) == s[..i] + r + s[i + |p|..]
  {
    assert IndexOf(s, p) == Some(i);
  }

  /** Without an occurrence the string is left unchanged. */
  lemma ReplaceFirstAbsent(s: string, p: string, r: string)
    requires !Includes(s, p)
    ensures ReplaceFirst(s, p, r) == s
  {
  }

  // ----- whitespace and trim -----

  /** The ECMAScript LineTerminator characters. */
  predicate IsLineTerminator(c: char) {
    c == '\n' || c == '\r' || c == '\U{2028}' || c == '\U{2029}'
  }

  /** The characters `String.prototype.trim` removes: ECMAScript WhiteSpace
      (tab, vertical tab, form feed, space, no-break space, byte order mark
      and the space separators of Unicode category Zs) and LineTerminator. */
  predicate IsWhiteSpace(c: char) {
    || c == '\t' || c == '\U{000B}' || c == '\U{000C}' || c == ' '
    || c == '\U{00A0}' || c == '\U{FEFF}' || c == '\U{1680}'
    || ('\U{2000}' <= c <= '\U{200A}')
    || c == '\U{202F}' || c == '\U{205F}' || c == '\U{3000}'
    || IsLineTerminator(c)
  }

  predicate Blank(s: string) {
    forall k :: 0 <= k < |s| ==> IsWhiteSpace(s[k])
  }

  /** The first index at or after `i` that holds no whitespace (`|s|` when
      there is none). */
  function SkipBlankFrom(s: string, i: nat): (a: nat)
    requires i <= |s|
    decreases |s| - i
    ensures i <= a <= |s|
    ensures forall k :: i <= k < a ==> IsWhiteSpace(s[k])
    ensures a < |s| ==> !IsWhiteSpace(s[a])
  {
    if i == |s| || !IsWhiteSpace(s[i]) then i else SkipBlankFrom(s, i + 1)
  }

  /** The length of the longest whitespace prefix. */
  function LeadingBlank(s: string): nat {
    SkipBlankFrom(s, 0)
  }

  /** The end of `s[..j]` once its whitespace suffix is dropped. */
  function SkipBlankBefore(s: string, j: nat): (b: nat)
    requires j <= |s|
    ensures b <= j
    ensures forall k :: b <= k < j ==> IsWhiteSpace(s[k])
    ensures b > 0 ==> !IsWhiteSpace(s[b - 1])
  {
    if j == 0 || !IsWhiteSpace(s[j - 1]) then j else SkipBlankBefore(s, j - 1)
  }

  /** `s.trim()`: the text between the longest whitespace prefix and the
      longest whitespace suffix; empty when `s` is all whitespace. */
  function Trim(s: string): (t: string)
    ensures t == "" <==> Blank(s)
    ensures t != "" ==> !IsWhiteSpace(t[0]) && !IsWhiteSpace(t[|t| - 1])
    ensures LeadingBlank(s) + |t| <= |s|
    ensures t == s[LeadingBlank(s)..LeadingBlank(s) + |t|]
    ensures forall k :: 0 <= k < LeadingBlank(s) ==> IsWhiteSpace(s[k])
    ensures forall k :: LeadingBlank(s) + |t| <= k < |s| ==> IsWhiteSpace(s[k])
  {
    var a := LeadingBlank(s);
    var b := SkipBlankBefore(s, |s|);
    if a < b then s[a..b] else ""
  }

  /** Trimming twice trims nothing more. */
  lemma TrimIdempotent(s: string)
    ensures Trim(Trim(s)) == Trim(s)
  {
    var t := Trim(s);
    if t != "" {
      assert LeadingBlank(t) == 0;
      assert SkipBlankBefore(t, |t|) == |t|;
    }
  }
}
