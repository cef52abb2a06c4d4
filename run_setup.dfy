/** What the handler derives before the first message goes out: the model
    name, the run folder (main.js:112, 118-123) and the first prompt
    (main.js:131-133). */
module RunSetup {
  import opened Wrappers
  import opened JsStrings
  import PartCleanup

  /** The model used when the request names none. */
  const DefaultModel := "gemini-2.0-flash"

  /** `modelName || "gemini-2.0-flash"`: an empty model name is falsy. */
  function SelectedModel(modelName: string): (m: string)
    ensures m != ""
    ensures modelName != "" ==> m == modelName
    ensures modelName == "" ==> m == DefaultModel
  {
    if modelName == "" then DefaultModel else modelName
  }

  // ----- the run folder -----

  /** `iso.replace(/[:.]/g, "-")`. */
  function DashSeparators(iso: string): (d: string)
    ensures |d| == |iso|
    ensures forall k :: 0 <= k < |iso| ==> d[k] == if iso[k] == ':' || iso[k] == '.' then '-' else iso[k]
  {
    seq(|iso|, k requires 0 <= k < |iso| => if iso[k] == ':' || iso[k] == '.' then '-' else iso[k])
  }

  /** `.slice(0, 19)` of the dashed ISO string. */
  function Timestamp(iso: string): (ts: string)
    ensures |ts| == if |iso| < 19 then |iso| else 19
    ensures ':' !in ts && '.' !in ts
  {
    var d := DashSeparators(iso);
    if |d| <= 19 then d else d[..19]
  }

  predicate IsDigit(c: char) {
    '0' <= c <= '9'
  }

  /** The shape `Date.prototype.toISOString` gives a date of the years 0 to
      9999: `YYYY-MM-DDTHH:mm:ss.sssZ`. */
  predicate IsIsoInstant(s: string) {
    && |s| == 24
    && s[4] == '-' && s[7] == '-' && s[10] == 'T' && s[13] == ':' && s[16] == ':'
    && s[19] == '.' && s[23] == 'Z'
    && forall k :: 0 <= k < 23 && k !in {4, 7, 10, 13, 16, 19} ==> IsDigit(s[k])
  }

  /** For an ISO instant the stamp is the date, a `T`, and the time of day
      to the second with dashes between hours, minutes and seconds. */
  lemma TimestampOfInstant(iso: string)
    requires IsIsoInstant(iso)
    ensures Timestamp(iso) == iso[..13] + "-" + iso[14..16] + "-" + iso[17..19]
  {
    var ts := Timestamp(iso);
    var expected := iso[..13] + "-" + iso[14..16] + "-" + iso[17..19];
    forall k | 0 <= k < 19 ensures ts[k] == expected[k] {
      if k != 13 && k != 16 {
        assert k < 13 ==> expected[k] == iso[k];
        assert 13 < k < 16 ==> expected[k] == iso[k];
        assert 16 < k ==> expected[k] == iso[k];
      }
    }
  }

  /** Two runs share a stamp exactly when they start within the same
      second: the stamp keeps everything of the instant up to the seconds. */
  lemma TimestampSameSecond(a: string, b: string)
    requires IsIsoInstant(a) && IsIsoInstant(b)
    ensures Timestamp(a) == Timestamp(b) <==> a[..19] == b[..19]
  {
    if Timestamp(a) == Timestamp(b) {
      forall k | 0 <= k < 19 ensures a[k] == b[k] {
        assert Timestamp(a)[k] == Timestamp(b)[k];
      }
    }
    if a[..19] == b[..19] {
      forall k | 0 <= k < 19 ensures Timestamp(a)[k] == Timestamp(b)[k] {
        assert a[k] == a[..19][k];
      }
    }
  }

  /** `${projectName}_${timestamp}`. */
  function FolderName(projectName: string, ts: string): (f: string)
    ensures |f| == |projectName| + 1 + |ts|
    ensures f[..|projectName|] == projectName && f[|projectName|] == '_' && f[|projectName| + 1..] == ts
  {
    projectName + "_" + ts
  }

  /** A folder name made from a 19-character stamp gives back both the
      project name and the stamp. */
  lemma FolderNameInjective(p1: string, t1: string, p2: string, t2: string)
    requires |t1| == 19 && |t2| == 19
    requires FolderName(p1, t1) == FolderName(p2, t2)
    ensures p1 == p2 && t1 == t2
  {
    var f := FolderName(p1, t1);
    assert |p1| == |p2|;
    assert p1 == f[..|p1|] == p2;
    assert t1 == f[|p1| + 1..] == t2;
  }

  /** `path.join(dir, name)` on Windows for a directory and a single path
      segment: one backslash separates them unless the directory already
      ends in a separator, and an empty directory contributes nothing. */
  function JoinPath(dir: string, name: string): (p: string)
    ensures |p| >= |name| && p[|p| - |name|..] == name
    ensures dir != "" ==> |dir| <= |p| <= |dir| + 1 + |name| && p[..|dir|] == dir
    ensures dir != "" && |p| == |dir| + 1 + |name| ==> p[|dir|] == '\\'
  {
    if dir == "" then name
    else if dir[|dir| - 1] == '\\' || dir[|dir| - 1] == '/' then dir + name
    else dir + "\\" + name
  }

  /** The folder the run writes into. */
  function RunFolder(outputFolder: string, projectName: string, iso: string): (p: string)
    ensures |p| >= |projectName| + 1 + |Timestamp(iso)|
    ensures outputFolder != "" ==> |p| <= |outputFolder| + 2 + |projectName| + |Timestamp(iso)|
  {
    JoinPath(outputFolder, FolderName(projectName, Timestamp(iso)))
  }

  /** The run folder ends with the project name, an underscore and a stamp
      free of colons and dots. */
  lemma RunFolderEnds(outputFolder: string, projectName: string, iso: string)
    requires |iso| >= 19
    ensures var p := RunFolder(outputFolder, projectName, iso);
            |p| >= |projectName| + 20
            && p[|p| - 20..] == "_" + Timestamp(iso)
            && p[|p| - 20 - |projectName|..|p| - 20] == projectName
  {
    var ts := Timestamp(iso);
    var name := FolderName(projectName, ts);
    var p := JoinPath(outputFolder, name);
    assert p == RunFolder(outputFolder, projectName, iso);
    assert |ts| == 19 && |name| == |projectName| + 20;
    var tail := p[|p| - |name|..];
    assert tail == name;
    assert p[|p| - 20..] == tail[|projectName|..] == "_" + ts;
    assert p[|p| - 20 - |projectName|..|p| - 20] == tail[..|projectName|] == projectName;
  }

  // ----- the first prompt -----

  const TitleTag := "{TITLE}"
  const LanguageTag := PartCleanup.LanguageTag

  /** `templateText.replace("{TITLE}", title).replace("{LANGUAGE}", language)`:
      the first `{TITLE}` of the template, then the first `{LANGUAGE}` of
      that result. */
  function FirstPrompt(template: string, title: string, language: string): (p: string)
    ensures !Includes(template, TitleTag) && !Includes(template, LanguageTag) ==> p == template
  {
    ReplaceFirst(ReplaceFirst(template, TitleTag, title), LanguageTag, language)
  }

  /** With the first `{TITLE}` at the end of `a` and the first `{LANGUAGE}`
      of the substituted text at the end of `a + title + b`, the prompt is
      the template with just those two placeholders filled in: every later
      placeholder, in `b` or `c`, survives. */
  lemma FirstPromptShape(a: string, b: string, c: string, title: string, language: string)
    requires IndexOf(a + TitleTag + b + LanguageTag + c, TitleTag) == Some(|a|)
    requires IndexOf(a + title + b + LanguageTag + c, LanguageTag) == Some(|a + title + b|)
    requires '$' !in title && '$' !in language
    ensures FirstPrompt(a + TitleTag + b + LanguageTag + c, title, language)
            == a + title + b + language + c
  {
    var tpl := a + TitleTag + b + LanguageTag + c;
    var rest := b + LanguageTag + c;
    assert tpl == a + TitleTag + rest;
    assert tpl[..|a|] == a;
    assert tpl[|a| + |TitleTag|..] == rest;
    var mid := a + title + b + LanguageTag + c;
    assert ReplaceFirst(tpl, TitleTag, title) == mid;
    var k := |a + title + b|;
    assert mid[..k] == a + title + b;
    assert mid[k + |LanguageTag|..] == c;
  }
}
