/** The text clean-up the story loop applies to every generated part, and the
    transform that turns the finished story into narration input
    (main.js:142-153 and main.js:183-185). */
module PartCleanup {
  import opened Wrappers
  import opened JsStrings

  /** The sentinel a reply carries when the story is over. */
  const EndMarker := "END"

  /** The placeholder the template uses for the target language. */
  const LanguageTag := "{LANGUAGE}"

  /** `text.replace("END", "")`, done only when the reply contains the
      sentinel: the first `END` is deleted and any later one is kept. */
  function RemoveEndMarker(text: string): (r: string)
    ensures !Includes(text, EndMarker) ==> r == text
    ensures Includes(text, EndMarker) ==> |r| == |text| - |EndMarker|
  {
    if Includes(text, EndMarker) then ReplaceFirst(text, EndMarker, "") else text
  }

  /** Only the first `END` goes: the text around it is kept verbatim. */
  lemma RemoveEndMarkerFirstOnly(text: string, i: nat)
    requires OccursAt(text, EndMarker, i)
    requires forall j :: 0 <= j < i ==> !OccursAt(text, EndMarker, j)
    ensures RemoveEndMarker(text) == text[..i] + text[i + 3..]
  {
    assert Includes(text, EndMarker);
    ReplaceFirstAt(text, EndMarker, "", i);
  }

  // ----- /^\*\*Title\*\*:.*$/gim -----

  /** ASCII case folding: exactly what a regular expression with the `i` flag
      and without the `u` flag identifies for the letters of the patterns
      below, since that canonicalisation never maps a non-ASCII character to
      an ASCII one. */
  function AsciiLower(c: char): char {
    if 'A' <= c <= 'Z' then (c as int + 32) as char else c
  }

  /** `s` holds, from index `i`, the text `lower` up to ASCII case. */
  predicate FoldedAt(s: string, i: nat, lower: string) {
    i + |lower| <= |s| && forall k :: 0 <= k < |lower| ==> AsciiLower(s[i + k]) == lower[k]
  }

  /** The heading `**Title**:` in lower case. */
  const TitleHeading := "**title**:"

  /** A line that starts at `i` is a title heading. */
  predicate HeadingAt(s: string, i: nat) {
    FoldedAt(s, i, TitleHeading)
  }

  /** Index `i` is where a line starts: `^` in multiline mode. */
  predicate LineStart(s: string, i: nat) {
    i == 0 || (0 < i <= |s| && IsLineTerminator(s[i - 1]))
  }

  /** The length of the first line of `s`. */
  function LineEnd(s: string): (k: nat)
    ensures k <= |s|
    ensures k < |s| ==> IsLineTerminator(s[k])
    ensures forall j :: 0 <= j < k ==> !IsLineTerminator(s[j])
  {
    if |s| == 0 || IsLineTerminator(s[0]) then 0 else 1 + LineEnd(s[1..])
  }

  /** `s.replace(/^\*\*Title\*\*:.*$/gim, "")`: the content of every line
      that starts with `**Title**:` (in any ASCII case) is deleted; the line
      terminators all stay. */
  function BlankTitleLines(s: string): (t: string)
    decreases |s|
    ensures |t| <= |s|
  {
    var k := LineEnd(s);
    var line := if HeadingAt(s, 0) then "" else s[..k];
    if k == |s| then line else line + [s[k]] + BlankTitleLines(s[k + 1..])
  }

  /** The line terminators of `s`, in order. */
  function Breaks(s: string): string {
    if |s| == 0 then ""
    else (if IsLineTerminator(s[0]) then [s[0]] else "") + Breaks(s[1..])
  }

  lemma {:induction false} BreaksConcat(a: string, b: string)
    ensures Breaks(a + b) == Breaks(a) + Breaks(b)
  {
    if |a| == 0 {
      assert a + b == b;
    } else {
      var head := if IsLineTerminator(a[0]) then [a[0]] else "";
      assert (a + b)[0] == a[0];
      assert (a + b)[1..] == a[1..] + b;
      BreaksConcat(a[1..], b);
      assert Breaks(a + b) == head + (Breaks(a[1..]) + Breaks(b));
      assert Breaks(a) == head + Breaks(a[1..]);
    }
  }

  lemma {:induction false} BreaksOfLine(line: string)
    requires forall j :: 0 <= j < |line| ==> !IsLineTerminator(line[j])
    ensures Breaks(line) == ""
  {
    if |line| > 0 {
      BreaksOfLine(line[1..]);
    }
  }

  /** The breaks of a text that starts with a whole line. */
  lemma BreaksAfterLine(line: string, t: char, rest: string)
    requires forall j :: 0 <= j < |line| ==> !IsLineTerminator(line[j])
    requires IsLineTerminator(t)
    ensures Breaks(line + [t] + rest) == [t] + Breaks(rest)
  {
    BreaksOfLine(line);
    assert line + [t] + rest == line + ([t] + rest);
    BreaksConcat(line, [t] + rest);
    assert ([t] + rest)[1..] == rest;
  }

  /** The breaks of a text whose first line, up to `k`, is replaced by
      `line` without breaks, and whose rest is replaced by `rest`. */
  lemma FirstLineKeepsBreaks(s: string, k: nat, line: string, rest: string)
    requires k == LineEnd(s) && k < |s|
    requires line == "" || line == s[..k]
    requires Breaks(rest) == Breaks(s[k + 1..])
    ensures Breaks(line + [s[k]] + rest) == Breaks(s)
  {
    assert forall j :: 0 <= j < k ==> s[..k][j] == s[j];
    BreaksAfterLine(line, s[k], rest);
    assert s == s[..k] + [s[k]] + s[k + 1..];
    BreaksAfterLine(s[..k], s[k], s[k + 1..]);
  }

  /** Blanking title lines keeps every line break, so the line structure of
      the part is unchanged. */
  lemma {:induction false} BlankTitleLinesKeepsBreaks(s: string)
    ensures Breaks(BlankTitleLines(s)) == Breaks(s)
    decreases |s|
  {
    var k := LineEnd(s);
    var line := if HeadingAt(s, 0) then "" else s[..k];
    if k == |s| {
      BreaksOfLine(line);
      BreaksOfLine(s);
    } else {
      var rest := s[k + 1..];
      assert BlankTitleLines(s) == line + [s[k]] + BlankTitleLines(rest);
      BlankTitleLinesKeepsBreaks(rest);
      FirstLineKeepsBreaks(s, k, line, BlankTitleLines(rest));
    }
  }

  /** No line of `s` starts with a title heading. */
  predicate NoHeadingLine(s: string) {
    forall i :: 0 <= i <= |s| && LineStart(s, i) ==> !HeadingAt(s, i)
  }

  lemma LineStartShifted(s: string, k: nat, i: nat)
    requires k < |s| && IsLineTerminator(s[k])
    requires i <= |s| - k - 1 && LineStart(s[k + 1..], i)
    ensures k + 1 + i <= |s| && LineStart(s, k + 1 + i)
  {
    if i > 0 {
      assert s[k + 1..][i - 1] == s[k + i];
    }
  }

  /** The lines after the first one start with no heading either. */
  lemma NoHeadingAfterFirstLine(s: string, k: nat)
    requires NoHeadingLine(s)
    requires k == LineEnd(s) && k < |s|
    ensures NoHeadingLine(s[k + 1..])
  {
    var rest := s[k + 1..];
    forall i | 0 <= i <= |rest| && LineStart(rest, i) ensures !HeadingAt(rest, i) {
      ShiftedLine(s, k + 1, i);
      LineStartShifted(s, k, i);
      assert !HeadingAt(s, k + 1 + i);
    }
  }

  /** A part in which no line starts with a title heading is left as it is. */
  lemma {:induction false} BlankTitleLinesNoHeading(s: string)
    requires NoHeadingLine(s)
    ensures BlankTitleLines(s) == s
    decreases |s|
  {
    assert LineStart(s, 0);
    var k := LineEnd(s);
    var first := s[..k];
    assert forall j :: 0 <= j < |first| ==> first[j] == s[j];
    if k < |s| {
      var rest := s[k + 1..];
      assert s == first + [s[k]] + rest;
      HeadingWithinLine(first, s[k], rest);
      BlankTitleLinesStep(first, s[k], rest);
      NoHeadingAfterFirstLine(s, k);
      BlankTitleLinesNoHeading(rest);
    } else {
      assert first == s;
      BlankTitleLinesLast(s);
    }
  }

  lemma {:induction false} FirstLineOf(line: string, t: char, rest: string)
    requires forall j :: 0 <= j < |line| ==> !IsLineTerminator(line[j])
    requires IsLineTerminator(t)
    ensures LineEnd(line + [t] + rest) == |line|
    ensures (line + [t] + rest)[..|line|] == line
    ensures (line + [t] + rest)[|line| + 1..] == rest
  {
    var s := line + [t] + rest;
    if |line| == 0 {
      assert s[0] == t;
    } else {
      FirstLineOf(line[1..], t, rest);
      assert s[1..] == line[1..] + [t] + rest;
    }
  }

  /** Whether a text starts with a title heading is decided by its first
      line alone. */
  lemma HeadingWithinLine(line: string, t: char, rest: string)
    requires forall j :: 0 <= j < |line| ==> !IsLineTerminator(line[j])
    requires IsLineTerminator(t)
    ensures HeadingAt(line + [t] + rest, 0) <==> HeadingAt(line, 0)
  {
    var s := line + [t] + rest;
    if HeadingAt(s, 0) {
      forall m | 0 <= m < |TitleHeading| ensures !IsLineTerminator(s[m]) {
        assert AsciiLower(s[0 + m]) == TitleHeading[m];
      }
      assert s[|line|] == t;
      assert |line| >= |TitleHeading|;
      forall m | 0 <= m < |TitleHeading| ensures AsciiLower(line[m]) == TitleHeading[m] {
        assert s[0 + m] == line[m];
      }
    }
    if HeadingAt(line, 0) {
      forall m | 0 <= m < |TitleHeading| ensures AsciiLower(s[0 + m]) == TitleHeading[m] {
        assert s[m] == line[m];
      }
    }
  }

  /** Title headings and line starts seen from a suffix of the text. */
  lemma ShiftedLine(s: string, off: nat, i: nat)
    requires off <= |s|
    ensures HeadingAt(s[off..], i) <==> HeadingAt(s, off + i)
    ensures i > 0 ==> (LineStart(s[off..], i) <==> LineStart(s, off + i))
  {
    var r := s[off..];
    if HeadingAt(r, i) {
      forall m | 0 <= m < |TitleHeading| ensures AsciiLower(s[off + i + m]) == TitleHeading[m] {
        assert r[i + m] == s[off + i + m];
      }
    }
    if HeadingAt(s, off + i) {
      forall m | 0 <= m < |TitleHeading| ensures AsciiLower(r[i + m]) == TitleHeading[m] {
        assert r[i + m] == s[off + i + m];
      }
    }
  }

  /** One step of the blanking: the first line, then the rest. */
  lemma BlankTitleLinesStep(line: string, t: char, rest: string)
    requires forall j :: 0 <= j < |line| ==> !IsLineTerminator(line[j])
    requires IsLineTerminator(t)
    ensures BlankTitleLines(line + [t] + rest)
            == (if HeadingAt(line, 0) then "" else line) + [t] + BlankTitleLines(rest)
  {
    FirstLineOf(line, t, rest);
    HeadingWithinLine(line, t, rest);
  }

  /** The blanking of a text without line terminators. */
  lemma BlankTitleLinesLast(line: string)
    requires forall j :: 0 <= j < |line| ==> !IsLineTerminator(line[j])
    ensures BlankTitleLines(line) == if HeadingAt(line, 0) then "" else line
  {
    assert LineEnd(line) == |line|;
    assert line[..|line|] == line;
  }

  /** Blanking title lines a second time changes nothing. */
  lemma {:induction false} BlankTitleLinesIdempotent(s: string)
    ensures BlankTitleLines(BlankTitleLines(s)) == BlankTitleLines(s)
    decreases |s|
  {
    var k := LineEnd(s);
    var first := s[..k];
    if k == |s| {
      assert first == s;
      BlankTitleLinesLast(s);
      if !HeadingAt(s, 0) {
        BlankTitleLinesLast(s);
      } else {
        BlankTitleLinesLast("");
      }
    } else {
      var t := s[k];
      var tail := s[k + 1..];
      assert s == first + [t] + tail;
      BlankTitleLinesStep(first, t, tail);
      var kept := if HeadingAt(first, 0) then "" else first;
      BlankTitleLinesIdempotent(tail);
      BlankTitleLinesStep(kept, t, BlankTitleLines(tail));
    }
  }

  // ----- /{LANGUAGE}/g and the instruction phrase -----

  /** The two patterns the clean-up deletes everywhere. */
  datatype Pattern =
    | LanguagePlaceholder   // /{LANGUAGE}/g
    | ContinueInstruction   // /Type ['"‘`]?Continue['"’`]? to receive the next part\.?/gi

  const OpenQuotes := "'\"\U{2018}`"
  const CloseQuotes := "'\"\U{2019}`"

  /** The length of the instruction phrase at `i`, 0 when it does not start
      there: `Type`, a space, an optional opening quote, `Continue`, an
      optional closing quote, ` to receive the next part` and an optional
      period, letters in any ASCII case. Each optional quote is taken when
      present; leaving it out cannot rescue a failed match, because the text
      that must follow begins with a letter or a space. */
  function InstructionLength(s: string, i: nat): (n: nat)
    requires i <= |s|
    ensures i + n <= |s|
    ensures n == 0 || 38 <= n <= 41
  {
    if !FoldedAt(s, i, "type ") then 0
    else
      var q1 := if i + 5 < |s| && s[i + 5] in OpenQuotes then 1 else 0;
      var c := i + 5 + q1;
      if !FoldedAt(s, c, "continue") then 0
      else
        var q2 := if c + 8 < |s| && s[c + 8] in CloseQuotes then 1 else 0;
        var t := c + 8 + q2;
        if !FoldedAt(s, t, " to receive the next part") then 0
        else
          var e := t + 25;
          var dot := if e < |s| && s[e] == '.' then 1 else 0;
          e + dot - i
  }

  /** The length of the match of `pat` at `i`; 0 means no match there. */
  function MatchLength(pat: Pattern, s: string, i: nat): (n: nat)
    requires i <= |s|
    ensures i + n <= |s|
  {
    match pat
    case LanguagePlaceholder => if OccursAt(s, LanguageTag, i) then |LanguageTag| else 0
    case ContinueInstruction => InstructionLength(s, i)
  }

  /** The length of the match of `pat` at every index of `s`, the end
      included. */
  function MatchTable(pat: Pattern, s: string): (t: seq<nat>)
    ensures IsTable(t, s)
    ensures forall j :: 0 <= j <= |s| ==> t[j] == MatchLength(pat, s, j)
  {
    seq(|s| + 1, j requires 0 <= j <= |s| => MatchLength(pat, s, j))
  }

  /** `t` gives, for every index of `s`, the length of a match there that
      stays within `s`. */
  predicate IsTable(t: seq<nat>, s: string) {
    |t| == |s| + 1 && forall j :: 0 <= j < |t| ==> j + t[j] <= |s|
  }

  /** The first match at or after `from`: the search a global regular
      expression performs from its `lastIndex`. */
  function NextMatch(t: seq<nat>, from: nat): (r: Option<nat>)
    requires from < |t|
    decreases |t| - from
    ensures r.Some? ==> from <= r.value < |t| && t[r.value] > 0
    ensures r.Some? ==> forall j :: from <= j < r.value ==> t[j] == 0
    ensures r.None? ==> forall j :: from <= j < |t| ==> t[j] == 0
  {
    if t[from] > 0 then Some(from)
    else if from == |t| - 1 then None
    else NextMatch(t, from + 1)
  }

  /** `s.replace(/pat/g, "")` from index `from` on: each match is deleted and
      the search resumes where it ended. */
  function RemoveMatchesFrom(t: seq<nat>, s: string, from: nat): (r: string)
    requires IsTable(t, s) && from <= |s|
    decreases |s| - from
    ensures |r| <= |s| - from
  {
    match NextMatch(t, from)
    case None => s[from..]
    case Some(i) => s[from..i] + RemoveMatchesFrom(t, s, i + t[i])
  }

  function RemoveMatches(pat: Pattern, s: string): (r: string)
    ensures |r| <= |s|
  {
    RemoveMatchesFrom(MatchTable(pat, s), s, 0)
  }

  /** Deleting matches never lengthens the text, and leaves its length
      unchanged exactly when the search finds nothing to delete. */
  lemma {:induction false} RemoveMatchesFromLength(t: seq<nat>, s: string, from: nat)
    requires IsTable(t, s) && from <= |s|
    ensures |RemoveMatchesFrom(t, s, from)| <= |s| - from
    ensures |RemoveMatchesFrom(t, s, from)| == |s| - from <==> NextMatch(t, from).None?
    decreases |s| - from
  {
    var r := RemoveMatchesFrom(t, s, from);
    match NextMatch(t, from)
    case None =>
      assert r == s[from..];
    case Some(i) =>
      var rest := RemoveMatchesFrom(t, s, i + t[i]);
      RemoveMatchesFromLength(t, s, i + t[i]);
      assert r == s[from..i] + rest;
  }

  /** The clean-up of a pattern changes the text if and only if the pattern
      matches somewhere in it. */
  lemma RemoveMatchesUnchangedIff(pat: Pattern, s: string)
    ensures RemoveMatches(pat, s) == s <==> forall j :: 0 <= j <= |s| ==> MatchLength(pat, s, j) == 0
  {
    var t := MatchTable(pat, s);
    RemoveMatchesFromLength(t, s, 0);
    match NextMatch(t, 0)
    case None =>
      assert RemoveMatches(pat, s) == s[0..] == s;
    case Some(i) =>
      assert MatchLength(pat, s, i) != 0;
  }

  /** A word that matches `lower` up to ASCII case still does once it is
      embedded in a longer text. */
  lemma FoldedInside(pre: string, w: string, post: string, lower: string)
    requires |w| == |lower| && FoldedAt(w, 0, lower)
    ensures FoldedAt(pre + w + post, |pre|, lower)
  {
    var s := pre + w + post;
    forall k | 0 <= k < |lower| ensures AsciiLower(s[|pre| + k]) == lower[k] {
      assert s[|pre| + k] == w[0 + k];
    }
  }

  /** A quote that is absent leaves in its place the first letter of the
      following word, or the space before `to`, neither of them a quote. */
  lemma NotAQuote(x: char, lower: char)
    requires AsciiLower(x) == lower && (lower == 'c' || lower == ' ')
    ensures x !in OpenQuotes && x !in CloseQuotes
  {
  }

  /** Where the phrase sits in a text, as indices: its three words, its two
      optional quotes and its optional period. */
  lemma InstructionAt(s: string, i: nat, q1: nat, q2: nat, dot: nat)
    requires i <= |s| && q1 <= 1 && q2 <= 1 && dot <= 1
    requires FoldedAt(s, i, "type ")
    requires FoldedAt(s, i + 5 + q1, "continue")
    requires FoldedAt(s, i + 13 + q1 + q2, " to receive the next part")
    requires q1 == 1 ==> s[i + 5] in OpenQuotes
    requires q2 == 1 ==> s[i + 13 + q1] in CloseQuotes
    requires dot == 1 ==> i + 38 + q1 + q2 < |s| && s[i + 38 + q1 + q2] == '.'
    requires dot == 0 ==> i + 38 + q1 + q2 == |s| || s[i + 38 + q1 + q2] != '.'
    ensures InstructionLength(s, i) == 38 + q1 + q2 + dot
  {
    if q1 == 0 {
      assert AsciiLower(s[i + 5 + 0]) == "continue"[0];
      NotAQuote(s[i + 5], 'c');
    }
    if q2 == 0 {
      assert AsciiLower(s[i + 13 + q1 + 0]) == " to receive the next part"[0];
      NotAQuote(s[i + 13 + q1], ' ');
    }
  }

  /** Conversely, a non-zero length means the whole phrase starts at `i`:
      the words in any ASCII case, each quote only where one of the listed
      quote characters stands, and the period taken exactly when one
      follows. */
  lemma InstructionMatched(s: string, i: nat) returns (q1: nat, q2: nat, dot: nat)
    requires i <= |s| && InstructionLength(s, i) > 0
    ensures q1 <= 1 && q2 <= 1 && dot <= 1
    ensures InstructionLength(s, i) == 38 + q1 + q2 + dot
    ensures FoldedAt(s, i, "type ")
    ensures q1 == 1 ==> s[i + 5] in OpenQuotes
    ensures FoldedAt(s, i + 5 + q1, "continue")
    ensures q2 == 1 ==> s[i + 13 + q1] in CloseQuotes
    ensures FoldedAt(s, i + 13 + q1 + q2, " to receive the next part")
    ensures dot == 1 ==> s[i + 38 + q1 + q2] == '.'
    ensures dot == 0 ==> i + 38 + q1 + q2 == |s| || s[i + 38 + q1 + q2] != '.'
  {
    q1 := if i + 5 < |s| && s[i + 5] in OpenQuotes then 1 else 0;
    q2 := if i + 13 + q1 < |s| && s[i + 13 + q1] in CloseQuotes then 1 else 0;
    dot := if i + 38 + q1 + q2 < |s| && s[i + 38 + q1 + q2] == '.' then 1 else 0;
  }

  /** The instruction phrase is deleted whole in every form the pattern
      admits: `Type`, `Continue` and the rest in any ASCII case, each quote
      present or absent and any of the listed quote characters, the period
      present or absent. */
  lemma InstructionRecognised(s: string, pre: string, t: string, q1: string, c: string,
                              q2: string, r: string, dot: string, post: string)
    requires s == pre + t + q1 + c + q2 + r + dot + post
    requires |t| == 5 && FoldedAt(t, 0, "type ")
    requires |c| == 8 && FoldedAt(c, 0, "continue")
    requires |r| == 25 && FoldedAt(r, 0, " to receive the next part")
    requires q1 == "" || (|q1| == 1 && q1[0] in OpenQuotes)
    requires q2 == "" || (|q2| == 1 && q2[0] in CloseQuotes)
    requires dot == "." || (dot == "" && (post == "" || post[0] != '.'))
    ensures InstructionLength(s, |pre|) == |t| + |q1| + |c| + |q2| + |r| + |dot|
  {
    PhraseWords(s, pre, t, q1, c, q2, r, dot, post);
    InstructionAt(s, |pre|, |q1|, |q2|, |dot|);
  }

  lemma PhraseWords(s: string, pre: string, t: string, q1: string, c: string,
                    q2: string, r: string, dot: string, post: string)
    requires s == pre + t + q1 + c + q2 + r + dot + post
    requires |t| == 5 && FoldedAt(t, 0, "type ")
    requires |c| == 8 && FoldedAt(c, 0, "continue")
    requires |r| == 25 && FoldedAt(r, 0, " to receive the next part")
    requires |q1| <= 1 && |q2| <= 1 && |dot| <= 1
    ensures FoldedAt(s, |pre|, "type ")
    ensures FoldedAt(s, |pre| + 5 + |q1|, "continue")
    ensures FoldedAt(s, |pre| + 13 + |q1| + |q2|, " to receive the next part")
    ensures |q1| == 1 ==> s[|pre| + 5] == q1[0]
    ensures |q2| == 1 ==> s[|pre| + 13 + |q1|] == q2[0]
    ensures |dot| == 1 ==> s[|pre| + 38 + |q1| + |q2|] == dot[0]
    ensures |pre| + 38 + |q1| + |q2| + |dot| <= |s|
    ensures post != "" ==> s[|pre| + 38 + |q1| + |q2| + |dot|] == post[0]
    ensures post == "" ==> |pre| + 38 + |q1| + |q2| + |dot| == |s|
  {
    var a := pre + t + q1;
    var b := a + c + q2;
    var e := b + r + dot;
    FoldedInside(pre, t, q1 + c + q2 + r + dot + post, "type ");
    assert s == pre + t + (q1 + c + q2 + r + dot + post);
    FoldedInside(a, c, q2 + r + dot + post, "continue");
    assert s == a + c + (q2 + r + dot + post);
    FoldedInside(b, r, dot + post, " to receive the next part");
    assert s == b + r + (dot + post);
    assert s == e + post;
  }

  /** Two halves of a placeholder around a whole one. */
  const JoinedHalves := "{LANG{LANGUAGE}UAGE}"

  lemma NoTagNear(j: nat)
    requires j < 5 || 15 <= j
    ensures !OccursAt(JoinedHalves, LanguageTag, j)
  {
    if j < 5 {
      assert JoinedHalves[j..j + 10][9] == JoinedHalves[j + 9] != '}';
    }
  }

  lemma JoinedHalvesTable()
    ensures var t := MatchTable(LanguagePlaceholder, JoinedHalves);
            t[5] == 10 && t[0] == t[1] == t[2] == t[3] == t[4] == 0 && t[15] == 0
  {
    assert JoinedHalves[5..15] == LanguageTag;
    NoTagNear(0);
    NoTagNear(1);
    NoTagNear(2);
    NoTagNear(3);
    NoTagNear(4);
    NoTagNear(15);
  }

  /** The first `{LANGUAGE}` of the joined halves is the inner one. */
  lemma JoinedHalvesFirstMatch()
    ensures NextMatch(MatchTable(LanguagePlaceholder, JoinedHalves), 0) == Some(5)
  {
    var t := MatchTable(LanguagePlaceholder, JoinedHalves);
    JoinedHalvesTable();
    assert NextMatch(t, 3) == NextMatch(t, 4) == NextMatch(t, 5) == Some(5);
    assert NextMatch(t, 0) == NextMatch(t, 1) == NextMatch(t, 2) == Some(5);
  }

  /** After the inner placeholder nothing more matches. */
  lemma JoinedHalvesRest()
    ensures var s := JoinedHalves;
            RemoveMatchesFrom(MatchTable(LanguagePlaceholder, s), s, 15) == s[15..]
  {
    var s := JoinedHalves;
    var t := MatchTable(LanguagePlaceholder, s);
    forall j | 15 <= j <= |s| ensures t[j] == 0 {
      NoTagNear(j);
    }
    assert NextMatch(t, 15).None?;
  }

  /** Deleting every `{LANGUAGE}` can join two halves into a new one: the
      global replacement does not rescan the text it has produced. */
  lemma LanguageRemovalCanLeaveOne()
    ensures RemoveMatches(LanguagePlaceholder, JoinedHalves) == LanguageTag
  {
    var s := JoinedHalves;
    var t := MatchTable(LanguagePlaceholder, s);
    JoinedHalvesTable();
    JoinedHalvesFirstMatch();
    JoinedHalvesRest();
    assert RemoveMatches(LanguagePlaceholder, s) == s[0..5] + s[15..];
    JoinedHalvesOuter();
  }

  /** The outer halves of the joined text make a whole placeholder. */
  lemma JoinedHalvesOuter()
    ensures JoinedHalves[0..5] + JoinedHalves[15..] == LanguageTag
  {
    var s := JoinedHalves;
    var h := s[0..5] + s[15..];
    assert |h| == 10 == |LanguageTag|;
    forall k | 0 <= k < 10 ensures h[k] == LanguageTag[k] {
      if k < 5 {
        assert h[k] == s[k];
      } else {
        assert h[k] == s[k + 10];
      }
    }
  }

  // ----- the whole clean-up -----

  /** The clean-up of main.js:146-153: blank the title lines, delete every
      `{LANGUAGE}`, delete every instruction phrase, then trim. */
  function CleanPart(text: string): (t: string)
    ensures t == "" || (!IsWhiteSpace(t[0]) && !IsWhiteSpace(t[|t| - 1]))
  {
    Trim(RemoveMatches(ContinueInstruction, RemoveMatches(LanguagePlaceholder, BlankTitleLines(text))))
  }

  // ----- narration text, main.js:183-185 -----

  /** `story.replace(/\*\/g, "")`. */
  function StripStars(s: string): (t: string)
    ensures '*' !in t
    ensures |t| <= |s|
  {
    if |s| == 0 then ""
    else (if s[0] == '*' then "" else [s[0]]) + StripStars(s[1..])
  }

  /** `s.replace(/[""]/g, "'")`: the class holds the plain double quote
      twice, so every `"` becomes an apostrophe. */
  function QuotesToApostrophes(s: string): (t: string)
    ensures |t| == |s| && '"' !in t
    ensures forall k :: 0 <= k < |s| && s[k] != '"' ==> t[k] == s[k]
  {
    seq(|s|, k requires 0 <= k < |s| => if s[k] == '"' then '\'' else s[k])
  }

  /** The text handed to the speech synthesiser. */
  function AudioText(story: string): (t: string)
    ensures '*' !in t && '"' !in t
  {
    QuotesToApostrophes(StripStars(story))
  }

  lemma {:induction false} StripStarsConcat(a: string, b: string)
    ensures StripStars(a + b) == StripStars(a) + StripStars(b)
  {
    if |a| == 0 {
      assert a + b == b;
    } else {
      var head := if a[0] == '*' then "" else [a[0]];
      assert (a + b)[0] == a[0];
      assert (a + b)[1..] == a[1..] + b;
      StripStarsConcat(a[1..], b);
      assert StripStars(a + b) == head + (StripStars(a[1..]) + StripStars(b));
      assert StripStars(a) == head + StripStars(a[1..]);
    }
  }

  /** The narration text of a concatenation is the concatenation of the
      narration texts, so the story's audio text is the audio text of its
      parts, one after another. */
  lemma AudioTextConcat(a: string, b: string)
    ensures AudioText(a + b) == AudioText(a) + AudioText(b)
  {
    StripStarsConcat(a, b);
  }

  /** The narration text of one character. */
  lemma AudioTextChar(c: char)
    ensures AudioText([c]) == if c == '*' then "" else if c == '"' then "'" else [c]
  {
    assert [c][1..] == "";
  }
}
