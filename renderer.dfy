/** The decisions the window's script makes around the handler
    (renderer.js): the required-field check and the request it sends, the
    severity of each log line, the template list built from the prompt file,
    and the history list with each folder path written into a JavaScript
    string literal. */
module Renderer {
  import opened Wrappers
  import opened JsStrings
  import opened StoryLoop
  import opened History
  import opened StoryPipeline

  // ----- the request -----

  /** A value of the prompt file, as far as main.js:132 cares: a string,
      `null`, or anything else (number, boolean, array, object). */
  datatype JsonValue = JsonString(s: string) | JsonNull | JsonOther

  /** The messages of the `TypeError` the JavaScript engine raises when the
      template is not a string and main.js:132 calls `replace` on it. */
  const UndefinedTemplateError := "Cannot read properties of undefined (reading 'replace')"
  const NullTemplateError := "Cannot read properties of null (reading 'replace')"
  const NotAStringTemplateError := "templateText.replace is not a function"

  /** What `promptsData[templateKey]` hands to the handler. */
  function TemplateOf(value: Option<JsonValue>): (t: Template)
    ensures t.TemplateText? <==> value.Some? && value.value.JsonString?
    ensures t.TemplateText? ==> t.text == value.value.s
    ensures value.None? ==> t == NotText(UndefinedTemplateError)
  {
    match value
    case None => NotText(UndefinedTemplateError)
    case Some(JsonString(s)) => TemplateText(s)
    case Some(JsonNull) => NotText(NullTemplateError)
    case Some(JsonOther) => NotText(NotAStringTemplateError)
  }

  /** The form fields `startProcess` reads besides the template choice. */
  datatype FormValues = FormValues(
    projectName: string,
    title: string,
    outputFolder: string,
    voice: string,
    language: string,
    modelName: string)

  /** renderer.js:190: every required field is non-empty. */
  predicate FieldsComplete(form: FormValues, templateKey: string) {
    form.projectName != "" && form.title != "" && templateKey != "" && form.outputFolder != ""
  }

  /** The request of renderer.js:205-213, or `None` when renderer.js:190
      stops the start. */
  function BuildRequest(form: FormValues, templateKey: string, prompts: map<string, JsonValue>)
    : (r: Option<ProcessRequest>)
    ensures r.None? <==> !FieldsComplete(form, templateKey)
    ensures r.Some? ==>
              && r.value.projectName == form.projectName && r.value.title == form.title
              && r.value.outputFolder == form.outputFolder && r.value.voice == form.voice
              && r.value.language == form.language && r.value.modelName == form.modelName
    ensures r.Some? ==>
              r.value.template == TemplateOf(if templateKey in prompts then Some(prompts[templateKey]) else None)
  {
    if !FieldsComplete(form, templateKey) then None
    else
      var template := TemplateOf(if templateKey in prompts then Some(prompts[templateKey]) else None);
      Some(ProcessRequest(form.projectName, template, form.title, form.voice, form.language,
                          form.outputFolder, form.modelName))
  }

  // ----- log severity, renderer.js:289-301 -----

  /** `toLowerCase` for the characters that matter here: ASCII capitals and
      the Cyrillic capitals of U+0400-U+042F and U+0490 (Ґ). Every other
      character is kept; none of them lowers to a letter of the four
      severity words. */
  function LowerChar(c: char): (l: char)
    ensures 'A' <= c <= 'Z' ==> l as int == c as int + 32
  {
    if 'A' <= c <= 'Z' then (c as int + 32) as char
    else if '\U{0410}' <= c <= '\U{042F}' then (c as int + 32) as char
    else if '\U{0400}' <= c <= '\U{040F}' then (c as int + 80) as char
    else if c == '\U{0490}' then '\U{0491}'
    else c
  }

  /** `s.toLowerCase()`. */
  function Lower(s: string): (l: string)
    ensures |l| == |s| && forall k :: 0 <= k < |s| ==> l[k] == LowerChar(s[k])
  {
    seq(|s|, k requires 0 <= k < |s| => LowerChar(s[k]))
  }

  /** How a log line is shown. */
  datatype Severity = ErrorLine | SuccessLine | InfoLine

  const ErrorWordUk := "помилка"
  const ErrorWordEn := "error"
  const DoneWord := "готово"
  const SuccessWord := "успіх"

  predicate MentionsError(msg: string) {
    Includes(Lower(msg), ErrorWordUk) || Includes(Lower(msg), ErrorWordEn)
  }

  predicate MentionsSuccess(msg: string) {
    Includes(Lower(msg), DoneWord) || Includes(Lower(msg), SuccessWord)
  }

  /** The icon and class a message gets: the error words win over the
      success words, and anything else stays informational. */
  function Classify(msg: string): (sev: Severity)
    ensures sev == ErrorLine <==> MentionsError(msg)
    ensures sev == SuccessLine <==> !MentionsError(msg) && MentionsSuccess(msg)
    ensures sev == InfoLine <==> !MentionsError(msg) && !MentionsSuccess(msg)
  {
    if MentionsError(msg) then ErrorLine
    else if MentionsSuccess(msg) then SuccessLine
    else InfoLine
  }

  lemma LowerCharIdempotent(c: char)
    ensures LowerChar(LowerChar(c)) == LowerChar(c)
  {
  }

  /** Lowering twice lowers nothing more. */
  lemma LowerIdempotent(s: string)
    ensures Lower(Lower(s)) == Lower(s)
  {
    forall k | 0 <= k < |s| ensures Lower(Lower(s))[k] == Lower(s)[k] {
      LowerCharIdempotent(s[k]);
    }
  }

  /** The classification ignores case: a message and its lowered form are
      shown alike. */
  lemma ClassifyIgnoresCase(msg: string)
    ensures Classify(Lower(msg)) == Classify(msg)
  {
    LowerIdempotent(msg);
  }

  lemma LowerConcat(a: string, b: string)
    ensures Lower(a + b) == Lower(a) + Lower(b)
  {
  }

  /** A word found in the lowered prefix is found in the lowered whole. */
  lemma IncludesInPrefix(a: string, b: string, w: string, i: nat)
    requires OccursAt(Lower(a), w, i)
    ensures Includes(Lower(a + b), w)
  {
    LowerConcat(a, b);
    var s := Lower(a + b);
    assert s[i..i + |w|] == Lower(a)[i..i + |w|];
    assert OccursAt(s, w, i);
    IncludesIffOccurs(s, w);
  }

  /** The handler's failure line is always shown as an error, whatever the
      error message says. */
  lemma FailureLineIsError(message: string)
    ensures Classify(LineText(Critical(message))) == ErrorLine
  {
    var prefix := "Критична помилка: ";
    assert LineText(Critical(message)) == prefix + message;
    assert Lower(prefix)[9..16] == ErrorWordUk;
    IncludesInPrefix(prefix, message, ErrorWordUk, 9);
  }

  /** Only a character and its capital lower to that character. */
  lemma LoweredAbsent(s: string, c: char, upper: char)
    requires c !in s && upper !in s
    requires forall x: char :: LowerChar(x) == c ==> x == c || x == upper
    ensures c !in Lower(s)
  {
  }

  lemma ReadyMentionsDone()
    ensures Includes(Lower(LineText(Ready)), DoneWord)
  {
    var done := "Готово";
    var rest := "! Відкриваю папку.";
    assert LineText(Ready) == done + rest;
    assert Lower(done) == DoneWord;
    IncludesInPrefix(done, rest, DoneWord, 0);
  }

  lemma ReadyLacksErrorLetters()
    ensures 'м' !in Lower(LineText(Ready)) && 'e' !in Lower(LineText(Ready))
  {
    LoweredAbsent(LineText(Ready), 'м', 'М');
    LoweredAbsent(LineText(Ready), 'e', 'E');
  }

  /** The closing line of a successful run gets the check icon. */
  lemma ReadyLineIsSuccess()
    ensures Classify(LineText(Ready)) == SuccessLine
  {
    ReadyMentionsDone();
    ReadyLacksErrorLetters();
    MissingCharExcludes(Lower(LineText(Ready)), ErrorWordUk, 'м');
    MissingCharExcludes(Lower(LineText(Ready)), ErrorWordEn, 'e');
  }

  /** Every progress line of the story loop is informational. */
  lemma PartLineIsInfo(part: nat)
    ensures Classify(LineText(PartStart(part))) == InfoLine
  {
    var text := LineText(PartStart(part));
    var l := Lower(text);
    var digits := NatToString(part);
    assert text == "Генерація частини " + digits + "...";
    forall k | 0 <= k < |l| ensures l[k] != 'п' && l[k] != 'e' && l[k] != 'в' && l[k] != 'у' {
      if 18 <= k < 18 + |digits| {
        assert text[k] == digits[k - 18];
      }
    }
    MissingCharExcludes(l, ErrorWordUk, 'п');
    MissingCharExcludes(l, ErrorWordEn, 'e');
    MissingCharExcludes(l, DoneWord, 'в');
    MissingCharExcludes(l, SuccessWord, 'у');
  }

  /** How the window shows one received log line: its severity and its
      text (the local time it is stamped with is left out). */
  datatype LogEntry = LogEntry(severity: Severity, text: string)

  /** The log area after the lines of a run arrive, in order. */
  function Shown(lines: seq<LogLine>): (view: seq<LogEntry>)
    ensures |view| == |lines|
    ensures forall k :: 0 <= k < |lines| ==>
              view[k] == LogEntry(Classify(LineText(lines[k])), LineText(lines[k]))
  {
    seq(|lines|, k requires 0 <= k < |lines| => LogEntry(Classify(LineText(lines[k])), LineText(lines[k])))
  }

  /** The prefix up to `i` is the prefix before it and then element `i`. */
  lemma PrefixStep<T>(s: seq<T>, i: nat)
    requires i < |s|
    ensures s[..i + 1] == s[..i] + [s[i]]
  {
  }

  /** Whatever the handler does, the last line the window shows for a run is
      an error line when the run failed and a success line when it
      succeeded. */
  lemma RunEndsWithVerdictLine(apiKey: Option<string>, edgeTtsPath: Option<string>, history: seq<HistoryEntry>,
                               req: ProcessRequest, env: Environment, clock: Clock, respond: Responder)
    ensures var run := Handle(apiKey, edgeTtsPath, history, req, env, clock, respond);
            var view := Shown(run.logs);
            && view != []
            && (run.result.Failed? ==> view[|view| - 1].severity == ErrorLine)
            && (run.result.Succeeded? ==> view[|view| - 1].severity == SuccessLine)
  {
    var run := Handle(apiKey, edgeTtsPath, history, req, env, clock, respond);
    if run.result.Failed? {
      FailureLineIsError(run.result.error);
    } else {
      SuccessfulRun(apiKey, edgeTtsPath, history, req, env, clock, respond);
      assert run.logs[|run.logs| - 1] == Ready;
      ReadyLineIsSuccess();
    }
  }

  // ----- the template list, renderer.js:150-173 -----

  /** An entry of the template drop-down: the disabled placeholder (value
      "") or a key of the prompt file. */
  datatype PromptOption = Placeholder | TemplateOption(key: string)

  /** A prompt file that parsed to an object: its keys in the order
      `Object.keys` lists them, and its values. */
  datatype JsonDoc = JsonDoc(keys: seq<string>, values: map<string, JsonValue>)

  /** `Object.keys` lists each own key of the object once, and only those. */
  predicate WellFormed(doc: JsonDoc) {
    && (forall i, j :: 0 <= i < j < |doc.keys| ==> doc.keys[i] != doc.keys[j])
    && (forall i :: 0 <= i < |doc.keys| ==> doc.keys[i] in doc.values)
    && (forall key :: key in doc.values ==> key in doc.keys)
  }

  /** The drop-down after a file is loaded: the placeholder, then one option
      per key in order. */
  function OptionList(keys: seq<string>): (options: seq<PromptOption>)
    ensures |options| == |keys| + 1 && options[0] == Placeholder
    ensures forall k :: 0 <= k < |keys| ==> options[k + 1] == TemplateOption(keys[k])
  {
    [Placeholder] + seq(|keys|, k requires 0 <= k < |keys| => TemplateOption(keys[k]))
  }

  /** The option selected after loading: the first template when there is
      one, the placeholder otherwise. */
  function InitialIndex(keys: seq<string>): nat {
    if |keys| > 0 then 1 else 0
  }

  /** The value of the selected option, as `select.value` reads it. */
  function SelectedKeyOf(options: seq<PromptOption>, index: nat): string {
    if index < |options| then
      match options[index]
      case Placeholder => ""
      case TemplateOption(key) => key
    else ""
  }

  /** Loading a prompt file selects its first template; a file without
      templates leaves the placeholder selected, and then the form can not
      be sent. */
  lemma AutoSelectsFirstTemplate(keys: seq<string>, form: FormValues, prompts: map<string, JsonValue>)
    ensures keys != [] ==> SelectedKeyOf(OptionList(keys), InitialIndex(keys)) == keys[0]
    ensures keys == [] ==> SelectedKeyOf(OptionList(keys), InitialIndex(keys)) == ""
    ensures keys == [] ==> BuildRequest(form, SelectedKeyOf(OptionList(keys), InitialIndex(keys)), prompts).None?
  {
  }

  // ----- the history list, renderer.js:308-344 -----

  /** One element of the history list: the notice for an empty history, or
      a run with its position, its texts, and the text the markup writes for
      its path into the button's `onclick` attribute, between the quotes of
      the string literal handed to `open-folder`. */
  datatype HistoryNode =
    | EmptyNotice
    | Item(index: nat, title: string, projectName: string, timestamp: string, pathText: string)

  const LF := '\n'
  const CR := '\r'

  /** `path.replace(/\\/g, "\\\\")`: every backslash doubled, nothing else
      touched. */
  function EscapeBackslashes(path: string): (e: string)
    ensures |e| >= |path|
  {
    if path == [] then []
    else (if path[0] == '\\' then "\\\\" else [path[0]]) + EscapeBackslashes(path[1..])
  }

  /** The doubling works character by character: a backslash becomes two,
      and every other character, quotes and line breaks included, is kept. */
  lemma EscapeBackslashesChar(c: char)
    ensures EscapeBackslashes([c]) == if c == '\\' then "\\\\" else [c]
  {
    assert [c][1..] == [];
  }

  /** The escaping of a concatenation is the concatenation of the
      escapings. */
  lemma {:induction false} EscapeBackslashesConcat(a: string, b: string)
    ensures EscapeBackslashes(a + b) == EscapeBackslashes(a) + EscapeBackslashes(b)
    decreases |a|
  {
    if a == [] {
      assert a + b == b;
    } else {
      var head := if a[0] == '\\' then "\\\\" else [a[0]];
      assert (a + b)[0] == a[0] && (a + b)[1..] == a[1..] + b;
      assert EscapeBackslashes(a + b) == head + EscapeBackslashes(a[1..] + b);
      EscapeBackslashesConcat(a[1..], b);
      assert EscapeBackslashes(a) == head + EscapeBackslashes(a[1..]);
    }
  }

  /** The escape sequence the literal needs for one character. */
  function EscapeChar(c: char): string {
    if c == '\\' then "\\\\"
    else if c == '\'' then "\\'"
    else if c == LF then "\\n"
    else if c == CR then "\\r"
    else [c]
  }

  /** The escaping the button needs: backslash, quote and the two line
      terminators become escape sequences. */
  function EscapeForLiteral(path: string): (e: string)
    ensures |e| >= |path|
  {
    if path == [] then [] else EscapeChar(path[0]) + EscapeForLiteral(path[1..])
  }

  /** The character an escape sequence `\c` stands for, for the escapes
      either escaping writes. */
  function Unescape(c: char): Option<char> {
    if c == '\\' then Some('\\')
    else if c == '\'' then Some('\'')
    else if c == 'n' then Some(LF)
    else if c == 'r' then Some(CR)
    else None
  }

  /** How JavaScript reads the body of a single-quoted string literal: the
      value up to the closing quote and the source text after it, or `None`
      when the literal does not end (or uses an escape not modelled here). */
  function ReadQuoted(s: string): Option<(string, string)>
    decreases |s|
  {
    if s == [] then None
    else if s[0] == '\'' then Some(("", s[1..]))
    else if s[0] == LF || s[0] == CR then None
    else if s[0] == '\\' then
      if |s| < 2 then None
      else match Unescape(s[1])
        case None => None
        case Some(d) =>
          match ReadQuoted(s[2..])
          case None => None
          case Some(vr) => Some(([d] + vr.0, vr.1))
    else
      match ReadQuoted(s[1..])
      case None => None
      case Some(vr) => Some(([s[0]] + vr.0, vr.1))
  }

  /** A literal that ends gives a value shorter than the source text it was
      read from, and leaves a strict suffix of that text unread. */
  lemma {:induction false} ReadQuotedLeavesSuffix(s: string)
    decreases |s|
    ensures var r := ReadQuoted(s);
            r.Some? ==> |r.value.0| < |s| && |r.value.1| < |s| && r.value.1 == s[|s| - |r.value.1|..]
  {
    if s != [] && s[0] != '\'' && s[0] != LF && s[0] != CR {
      if s[0] == '\\' {
        if |s| >= 2 {
          ReadQuotedLeavesSuffix(s[2..]);
        }
      } else {
        ReadQuotedLeavesSuffix(s[1..]);
      }
    }
  }

  /** Whatever the path, its escaped form followed by the closing quote reads
      back as the path, and the text after the quote is left as it was. */
  lemma {:induction false} EscapeForLiteralRoundTrip(path: string, after: string)
    ensures ReadQuoted(EscapeForLiteral(path) + "'" + after) == Some((path, after))
    decreases |path|
  {
    if path == [] {
      assert EscapeForLiteral(path) + "'" + after == "'" + after;
    } else {
      var c := path[0];
      var tail := EscapeForLiteral(path[1..]) + "'" + after;
      EscapeForLiteralRoundTrip(path[1..], after);
      assert EscapeForLiteral(path) + "'" + after == EscapeChar(c) + tail;
      if c == '\\' || c == '\'' || c == LF || c == CR {
        assert (EscapeChar(c) + tail)[2..] == tail;
      } else {
        assert (EscapeChar(c) + tail)[1..] == tail;
      }
      assert [c] + path[1..] == path;
    }
  }

  /** A path without quotes and line breaks is escaped alike both ways. */
  lemma {:induction false} EscapeAgreesWithoutQuotes(path: string)
    requires '\'' !in path && LF !in path && CR !in path
    ensures EscapeBackslashes(path) == EscapeForLiteral(path)
    decreases |path|
  {
    if path != [] {
      EscapeAgreesWithoutQuotes(path[1..]);
    }
  }

  /** For such a path the button's literal, as written, does read back as
      the folder. */
  lemma EscapeBackslashesRoundTrip(path: string)
    requires '\'' !in path && LF !in path && CR !in path
    ensures ReadQuoted(EscapeBackslashes(path) + "')") == Some((path, ")"))
  {
    EscapeAgreesWithoutQuotes(path);
    EscapeForLiteralRoundTrip(path, ")");
    assert EscapeForLiteral(path) + "'" + ")" == EscapeBackslashes(path) + "')";
  }

  /** As written, the literal ends at the first apostrophe of the path; the
      rest of the path follows it as source text where the call expects `)`,
      so the handler does not compile (or, when that text happens to be
      valid source, runs it). */
  lemma ApostropheEndsLiteral(a: string, b: string)
    requires '\'' !in a && LF !in a && CR !in a
    ensures ReadQuoted(EscapeBackslashes(a + "'" + b) + "')") == Some((a, EscapeBackslashes(b) + "')"))
  {
    EscapeBackslashesConcat(a + "'", b);
    EscapeBackslashesConcat(a, "'");
    EscapeBackslashesChar('\'');
    EscapeAgreesWithoutQuotes(a);
    EscapeForLiteralRoundTrip(a, EscapeBackslashes(b) + "')");
    assert EscapeBackslashes(a + "'" + b) + "')" == EscapeForLiteral(a) + "'" + (EscapeBackslashes(b) + "')");
  }

  /** A folder named with an apostrophe (the project name "a'b" gives one)
      ends the literal early: it reads "a", and `b')` is left as stray
      source text that breaks the handler. */
  lemma QuoteInPathBreaksLiteral()
    ensures ReadQuoted(EscapeBackslashes("a'b") + "')") == Some(("a", "b')"))
  {
    assert EscapeBackslashes("b") == "b";
    assert EscapeBackslashes("'b") == "'b";
    assert EscapeBackslashes("a'b") == "a'b";
    var s := "a'b')";
    assert s == EscapeBackslashes("a'b") + "')";
    assert s[1..] == "'b')" && s[1..][1..] == "b')";
    assert ReadQuoted(s[1..]) == Some(("", "b')"));
    assert s[0] == 'a' && [s[0]] + "" == "a";
  }

  // The handler is the value of a double-quoted `onclick` attribute set
  // through `innerHTML`: the HTML parser ends the value at the first double
  // quote and decodes its character references before JavaScript reads it.

  /** The attribute value from the path's text on: the text up to the first
      double quote. */
  function UpToQuote(s: string): (v: string)
    ensures |v| <= |s| && v == s[..|v|]
    ensures '"' !in v
    ensures |v| < |s| ==> s[|v|] == '"'
  {
    if s == [] || s[0] == '"' then [] else [s[0]] + UpToQuote(s[1..])
  }

  /** A text without double quotes, followed by the closing quote, is the
      whole value. */
  lemma AttributeEndsAtQuote(a: string)
    requires '"' !in a
    ensures UpToQuote(a + "\"") == a
  {
    var s := a + "\"";
    var v := UpToQuote(s);
    assert s[|a|] == '"' && s[..|a| + 1] == s;
    assert v == s[..|a|] == a;
  }

  /** `s` begins with `p`. */
  predicate Begins(s: string, p: string) {
    |p| <= |s| && s[..|p|] == p
  }

  function Prepend(c: char, r: Option<string>): Option<string> {
    match r
    case None => None
    case Some(t) => Some([c] + t)
  }

  /** The attribute value with its character references decoded, for the
      references `&amp;`, `&quot;` and `&#39;`; `None` for any other `&`,
      which this model does not decode. */
  function DecodeReferences(v: string): Option<string>
    decreases |v|
  {
    if v == [] then Some([])
    else if v[0] != '&' then Prepend(v[0], DecodeReferences(v[1..]))
      else match ReferenceAt(v)
        case None => None
        case Some((c, n)) => Prepend(c, DecodeReferences(v[n..]))
  }

  /** The character a reference at the start of `v` stands for, and the
      length of the reference. */
  function ReferenceAt(v: string): (r: Option<(char, nat)>)
    ensures r.Some? ==> 0 < r.value.1 <= |v|
  {
    if Begins(v, "&amp;") then Some(('&', 5))
    else if Begins(v, "&quot;") then Some(('"', 6))
    else if Begins(v, "&#39;") then Some(('\'', 5))
    else None
  }

  /** Decoding, one character or reference at a time. */
  lemma DecodeChar(c: char, rest: string)
    requires c != '&'
    ensures DecodeReferences([c] + rest) == Prepend(c, DecodeReferences(rest))
  {
    assert ([c] + rest)[1..] == rest;
  }

  lemma DecodeAmp(rest: string)
    ensures DecodeReferences("&amp;" + rest) == Prepend('&', DecodeReferences(rest))
  {
    var v := "&amp;" + rest;
    assert v[..5] == "&amp;" && v[5..] == rest;
    assert ReferenceAt(v) == Some(('&', 5));
  }

  lemma DecodeQuot(rest: string)
    ensures DecodeReferences("&quot;" + rest) == Prepend('"', DecodeReferences(rest))
  {
    var v := "&quot;" + rest;
    assert v[..6] == "&quot;" && v[6..] == rest && v[1] == 'q';
    assert ReferenceAt(v) == Some(('"', 6));
  }

  lemma DecodeApos(rest: string)
    ensures DecodeReferences("&#39;" + rest) == Prepend('\'', DecodeReferences(rest))
  {
    var v := "&#39;" + rest;
    assert v[..5] == "&#39;" && v[5..] == rest && v[1] == '#';
    assert ReferenceAt(v) == Some(('\'', 5));
  }

  /** The text an attribute value needs for one character: `&` and `"`
      become references. */
  function AttributeChar(c: char): string {
    if c == '&' then "&amp;" else if c == '"' then "&quot;" else [c]
  }

  /** The encoding an attribute value needs. */
  function EscapeForAttribute(s: string): (e: string)
    ensures |e| >= |s|
  {
    if s == [] then [] else AttributeChar(s[0]) + EscapeForAttribute(s[1..])
  }

  /** The encoded value holds no double quote, so it cannot end the
      attribute early. */
  lemma {:induction false} EscapeForAttributeNoQuote(s: string)
    ensures '"' !in EscapeForAttribute(s)
    decreases |s|
  {
    if s != [] {
      EscapeForAttributeNoQuote(s[1..]);
    }
  }

  /** Decoding gives back each encoded character. */
  lemma DecodeAttributeChar(c: char, rest: string)
    ensures DecodeReferences(AttributeChar(c) + rest) == Prepend(c, DecodeReferences(rest))
  {
    if c == '&' {
      DecodeAmp(rest);
    } else if c == '"' {
      DecodeQuot(rest);
    } else {
      DecodeChar(c, rest);
    }
  }

  /** Decoding undoes the attribute encoding, whatever follows it. */
  lemma {:induction false} DecodeEscapedAttribute(t: string, u: string, x: string)
    requires DecodeReferences(u) == Some(x)
    ensures DecodeReferences(EscapeForAttribute(t) + u) == Some(t + x)
    decreases |t|
  {
    if t == [] {
      assert EscapeForAttribute(t) + u == u;
      assert t + x == x;
    } else {
      var rest := EscapeForAttribute(t[1..]) + u;
      DecodeEscapedAttribute(t[1..], u, x);
      EscapeForAttributeStep(t, u);
      DecodeAttributeChar(t[0], rest);
      HeadConcat(t, x);
    }
  }

  /** The encoding of a non-empty text, followed by more text. */
  lemma EscapeForAttributeStep(t: string, u: string)
    requires t != []
    ensures EscapeForAttribute(t) + u == AttributeChar(t[0]) + (EscapeForAttribute(t[1..]) + u)
  {
  }

  lemma HeadConcat<T>(t: seq<T>, x: seq<T>)
    requires t != []
    ensures [t[0]] + (t[1..] + x) == t + x
  {
  }

  /** What JavaScript reads from a button after `'open-folder', '`: the
      attribute value up to the double quote that closes it (the markup
      writes `')"` after the path's text), its references decoded, and the
      string literal read from that; `None` when the value holds a reference
      not modelled here or the literal does not end. */
  function ButtonReads(pathText: string): Option<(string, string)> {
    match DecodeReferences(UpToQuote(pathText + "')\""))
    case None => None
    case Some(src) => ReadQuoted(src)
  }

  /** A path text without `&` and `"` reaches JavaScript unchanged. */
  lemma PlainAttribute(e: string)
    requires '&' !in e && '"' !in e
    ensures ButtonReads(e) == ReadQuoted(e + "')")
  {
    AttributeEndsAtQuote(e + "')");
    assert e + "')" + "\"" == e + "')\"";
    DecodePlain(e + "')");
  }

  /** Doubling backslashes adds no character other than a backslash. */
  lemma {:induction false} EscapeBackslashesKeepsAbsent(path: string, c: char)
    requires c != '\\' && c !in path
    ensures c !in EscapeBackslashes(path)
    decreases |path|
  {
    if path != [] {
      assert c !in path[1..];
      EscapeBackslashesKeepsAbsent(path[1..], c);
    }
  }

  /** No character that either escaping or the attribute treats
      specially. */
  predicate PlainText(s: string) {
    '\\' !in s && '\'' !in s && LF !in s && CR !in s && '&' !in s && '"' !in s
  }

  /** Without backslashes, doubling them changes nothing. */
  lemma {:induction false} EscapeBackslashesWithout(p: string)
    requires '\\' !in p
    ensures EscapeBackslashes(p) == p
    decreases |p|
  {
    if p != [] {
      assert '\\' !in p[1..];
      EscapeBackslashesWithout(p[1..]);
      assert [p[0]] + p[1..] == p;
    }
  }

  /** A prefix without `&` is decoded as itself. */
  lemma {:induction false} DecodePlainPrefix(a: string, w: string, x: string)
    requires '&' !in a && DecodeReferences(w) == Some(x)
    ensures DecodeReferences(a + w) == Some(a + x)
    decreases |a|
  {
    if a == [] {
      assert a + w == w && a + x == x;
    } else {
      assert '&' !in a[1..];
      DecodePlainPrefix(a[1..], w, x);
      assert a + w == [a[0]] + (a[1..] + w);
      DecodeChar(a[0], a[1..] + w);
      assert [a[0]] + (a[1..] + x) == a + x;
    }
  }

  /** A text without `&` is its own decoding. */
  lemma DecodePlain(v: string)
    requires '&' !in v
    ensures DecodeReferences(v) == Some(v)
  {
    assert DecodeReferences([]) == Some([]);
    DecodePlainPrefix(v, [], []);
    assert v + [] == v;
  }

  /** A folder whose name spells `&#39;` (the project "x&#39;y" gives one)
      reaches JavaScript with an apostrophe there, so its literal ends before
      it and the rest breaks the handler. */
  lemma ReferenceInPathEndsLiteral(a: string, b: string)
    requires PlainText(a) && PlainText(b)
    ensures ButtonReads(EscapeBackslashes(a + "&#39;" + b)) == Some((a, b + "')"))
  {
    SpelledReference(a, "&#39;", b);
    ApostropheReferenceDecoded(a, b);
    PlainLiteralEnds(a, b + "')");
  }

  lemma ApostropheReferenceDecoded(a: string, b: string)
    requires PlainText(a) && PlainText(b)
    ensures DecodeReferences(a + "&#39;" + b + "')") == Some(a + "'" + (b + "')"))
  {
    var bq := b + "')";
    assert a + "&#39;" + b + "')" == a + ("&#39;" + bq);
    DecodePlain(bq);
    DecodeApos(bq);
    DecodePlainPrefix(a, "&#39;" + bq, "'" + bq);
    assert a + ("'" + bq) == a + "'" + bq;
  }

  /** A literal body without anything to escape ends at the apostrophe
      after it. */
  lemma PlainLiteralEnds(a: string, rest: string)
    requires '\\' !in a && '\'' !in a && LF !in a && CR !in a
    ensures ReadQuoted(a + "'" + rest) == Some((a, rest))
  {
    EscapeAgreesWithoutQuotes(a);
    EscapeBackslashesWithout(a);
    EscapeForLiteralRoundTrip(a, rest);
  }

  /** A folder whose name spells `&amp;` (the project "R&amp;D" gives one)
      reaches JavaScript with a bare `&` there: the button asks for a folder
      that is not the run's. */
  lemma AmpersandReferenceRenamesFolder(a: string, b: string)
    requires PlainText(a) && PlainText(b)
    ensures ButtonReads(EscapeBackslashes(a + "&amp;" + b)) == Some((a + "&" + b, ")"))
  {
    SpelledReference(a, "&amp;", b);
    AmpersandReferenceDecoded(a, b);
    var q := a + "&" + b;
    assert '\\' !in q && '\'' !in q && LF !in q && CR !in q;
    PlainLiteralEnds(q, ")");
    assert q + "'" + ")" == q + "')";
  }

  lemma AmpersandReferenceDecoded(a: string, b: string)
    requires PlainText(a) && PlainText(b)
    ensures DecodeReferences(a + "&amp;" + b + "')") == Some(a + "&" + b + "')")
  {
    var bq := b + "')";
    assert a + "&amp;" + b + "')" == a + ("&amp;" + bq);
    DecodePlain(bq);
    DecodeAmp(bq);
    DecodePlainPrefix(a, "&amp;" + bq, "&" + bq);
    assert a + ("&" + bq) == a + "&" + b + "')";
  }

  /** A path that spells a reference between two plain texts is written
      unchanged and is the whole attribute value up to its closing quote. */
  lemma SpelledReference(a: string, r: string, b: string)
    requires PlainText(a) && PlainText(b)
    requires r == "&#39;" || r == "&amp;"
    ensures EscapeBackslashes(a + r + b) == a + r + b
    ensures UpToQuote(a + r + b + "')\"") == a + r + b + "')"
  {
    var p := a + r + b;
    assert '\\' !in r && '"' !in r;
    assert '\\' !in p;
    EscapeBackslashesWithout(p);
    assert '"' !in p + "')";
    AttributeEndsAtQuote(p + "')");
    assert p + "')" + "\"" == p + "')\"";
  }

  /** The escaping a history list writes into its buttons: the backslash
      doubling of renderer.js:335-337, or the corrected escaping, which
      escapes the literal and then encodes the attribute. */
  datatype Escaping = AsWritten | Corrected

  function Escape(esc: Escaping, path: string): string {
    match esc
    case AsWritten => EscapeBackslashes(path)
    case Corrected => EscapeForAttribute(EscapeForLiteral(path))
  }

  /** The node of one run. */
  function ItemOf(esc: Escaping, index: nat, entry: HistoryEntry): HistoryNode {
    Item(index, entry.title, entry.projectName, entry.timestamp, Escape(esc, entry.path))
  }

  /** A history list: the notice when there is no run, one item per run
      otherwise, newest first as stored. */
  function HistoryViewWith(esc: Escaping, history: seq<HistoryEntry>): (view: seq<HistoryNode>)
    ensures history == [] ==> view == [EmptyNotice]
    ensures history != [] ==>
              |view| == |history| && forall k :: 0 <= k < |history| ==> view[k] == ItemOf(esc, k, history[k])
  {
    if history == [] then [EmptyNotice]
    else seq(|history|, k requires 0 <= k < |history| => ItemOf(esc, k, history[k]))
  }

  /** The history list renderer.js:309-344 builds. */
  function HistoryView(history: seq<HistoryEntry>): (view: seq<HistoryNode>)
    ensures history == [] ==> view == [EmptyNotice]
    ensures history != [] ==>
              |view| == |history| && forall k :: 0 <= k < |history| ==> view[k] == ItemOf(AsWritten, k, history[k])
  {
    HistoryViewWith(AsWritten, history)
  }

  /** The same list with the corrected escaping. */
  function CorrectedHistoryView(history: seq<HistoryEntry>): (view: seq<HistoryNode>)
    ensures history == [] ==> view == [EmptyNotice]
    ensures history != [] ==>
              |view| == |history| && forall k :: 0 <= k < |history| ==> view[k] == ItemOf(Corrected, k, history[k])
  {
    HistoryViewWith(Corrected, history)
  }

  /** A button of the list as written opens the folder of its own run when
      that folder's path holds no apostrophe, no line break, no `&` and no
      `"`. */
  lemma HistoryButtonsOpenTheirFolder(history: seq<HistoryEntry>, k: nat)
    requires k < |history|
    requires '\'' !in history[k].path && LF !in history[k].path && CR !in history[k].path
    requires '&' !in history[k].path && '"' !in history[k].path
    ensures HistoryView(history)[k].Item?
    ensures ButtonReads(HistoryView(history)[k].pathText) == Some((history[k].path, ")"))
  {
    var path := history[k].path;
    EscapeBackslashesKeepsAbsent(path, '&');
    EscapeBackslashesKeepsAbsent(path, '"');
    PlainAttribute(EscapeBackslashes(path));
    EscapeBackslashesRoundTrip(path);
  }

  /** In the list as written, the literal of a run whose folder holds an
      apostrophe ends there: the rest of the path is left as source text,
      which breaks the handler. */
  lemma HistoryButtonStopsAtApostrophe(history: seq<HistoryEntry>, k: nat, a: string, b: string)
    requires k < |history| && history[k].path == a + "'" + b
    requires '\'' !in a && LF !in a && CR !in a
    requires '&' !in history[k].path && '"' !in history[k].path
    ensures HistoryView(history)[k].Item?
    ensures ButtonReads(HistoryView(history)[k].pathText) == Some((a, EscapeBackslashes(b) + "')"))
  {
    var path := history[k].path;
    EscapeBackslashesKeepsAbsent(path, '&');
    EscapeBackslashesKeepsAbsent(path, '"');
    PlainAttribute(EscapeBackslashes(path));
    ApostropheEndsLiteral(a, b);
  }

  /** With the corrected escaping, every button opens the folder of its own
      run, whatever the path. */
  lemma CorrectedButtonsOpenTheirFolder(history: seq<HistoryEntry>, k: nat)
    requires k < |history|
    ensures CorrectedHistoryView(history)[k].Item?
    ensures ButtonReads(CorrectedHistoryView(history)[k].pathText) == Some((history[k].path, ")"))
  {
    var path := history[k].path;
    var e := EscapeForLiteral(path);
    var h := EscapeForAttribute(e);
    assert CorrectedHistoryView(history)[k].pathText == h;
    EscapeForAttributeNoQuote(e);
    AttributeEndsAtQuote(h + "')");
    assert h + "')" + "\"" == h + "')\"";
    DecodePlain("')");
    DecodeEscapedAttribute(e, "')", "')");
    EscapeForLiteralRoundTrip(path, ")");
    assert e + "')" == e + "'" + ")";
  }

  // ----- the window -----

  const JsonReadError := "Помилка читання JSON файлу"
  const IncompleteFormAlert := "Будь ласка, заповніть всі поля та оберіть шаблон!"
  const FailureAlertPrefix := "Помилка: "
  const SuccessToast := "Генерацію завершено успішно!"

  /** The state the window's script keeps in its page: the loaded prompt
      file, the drop-down, the alerts and toasts shown so far, the log area
      and the history list. */
  class Window {
    var promptsData: map<string, JsonValue>
    var promptFileDisplay: string
    var options: seq<PromptOption>
    var selectedIndex: nat
    var alerts: seq<string>
    var toasts: seq<string>
    var logArea: seq<LogEntry>
    var historyList: seq<HistoryNode>

    constructor ()
      ensures promptsData == map[] && promptFileDisplay == "" && options == [Placeholder] && selectedIndex == 0
      ensures alerts == [] && toasts == [] && logArea == [] && historyList == []
    {
      promptsData := map[];
      promptFileDisplay := "";
      options := [Placeholder];
      selectedIndex := 0;
      alerts := [];
      toasts := [];
      logArea := [];
      historyList := [];
    }

    /** The value the form sends as `templateKey`. */
    function SelectedKey(): string
      reads this
    {
      SelectedKeyOf(options, selectedIndex)
    }

    /** Every template the drop-down offers is a key of the loaded data, so
        the handler gets the template that key names. */
    predicate OptionsInData()
      reads this
    {
      forall k :: 0 <= k < |options| && options[k].TemplateOption? ==> options[k].key in promptsData
    }

    /** renderer.js:150-173: a prompt file that reads as a document replaces
        the data and the drop-down and selects its first template; one that
        does not only raises the toast. */
    method LoadPromptsFromFile(path: string, json: Option<JsonDoc>)
      requires json.Some? ==> WellFormed(json.value)
      modifies this`promptsData, this`promptFileDisplay, this`options, this`selectedIndex, this`toasts
      ensures json.None? ==>
                && toasts == old(toasts) + [JsonReadError]
                && promptsData == old(promptsData) && promptFileDisplay == old(promptFileDisplay)
                && options == old(options) && selectedIndex == old(selectedIndex)
      ensures json.Some? ==>
                && promptFileDisplay == path && promptsData == json.value.values
                && options == OptionList(json.value.keys) && selectedIndex == InitialIndex(json.value.keys)
                && toasts == old(toasts)
      ensures json.Some? ==> OptionsInData()
    {
      if json.None? {
        toasts := toasts + [JsonReadError];
        return;
      }
      var doc := json.value;
      promptFileDisplay := path;
      promptsData := doc.values;
      var list := [Placeholder];
      var i := 0;
      while i < |doc.keys|
        invariant 0 <= i <= |doc.keys|
        invariant list == OptionList(doc.keys[..i])
      {
        assert doc.keys[..i + 1] == doc.keys[..i] + [doc.keys[i]];
        list := list + [TemplateOption(doc.keys[i])];
        i := i + 1;
      }
      assert doc.keys[..i] == doc.keys;
      options := list;
      selectedIndex := if |doc.keys| > 0 then 1 else 0;
    }

    /** The user picks a template; the disabled placeholder can not be
        picked. */
    method ChooseTemplate(index: nat)
      requires index < |options| && options[index].TemplateOption?
      modifies this`selectedIndex
      ensures selectedIndex == index && SelectedKey() == options[index].key
    {
      selectedIndex := index;
    }

    /** ipcRenderer.on("log-update"), renderer.js:276-305: the line is
        appended with the severity its words give it. */
    method OnLogUpdate(msg: string)
      modifies this`logArea
      ensures logArea == old(logArea) + [LogEntry(Classify(msg), msg)]
    {
      logArea := logArea + [LogEntry(Classify(msg), msg)];
    }

    /** The log lines of a run arriving one after another. */
    method ReceiveLogs(lines: seq<LogLine>)
      modifies this`logArea
      ensures logArea == old(logArea) + Shown(lines)
    {
      var view := Shown(lines);
      var i := 0;
      while i < |lines|
        invariant 0 <= i <= |lines|
        invariant logArea == old(logArea) + view[..i]
      {
        PrefixStep(view, i);
        OnLogUpdate(LineText(lines[i]));
        i := i + 1;
      }
      assert view[..i] == view;
    }

    /** renderer.js:183-225: check the required fields, clear the log,
        send the request and report the answer. `invoke` stands for the main
        process: what it answers and the log lines it sends while it works,
        which arrive before the answer. */
    method StartProcess(form: FormValues, invoke: ProcessRequest -> Run)
      modifies this`alerts, this`toasts, this`logArea
      ensures var req := BuildRequest(form, SelectedKey(), promptsData);
              && (req.None? ==>
                    alerts == old(alerts) + [IncompleteFormAlert] && toasts == old(toasts) && logArea == old(logArea))
              && (req.Some? ==> logArea == Shown(invoke(req.value).logs))
              && (req.Some? && invoke(req.value).result.Failed? ==>
                    alerts == old(alerts) + [FailureAlertPrefix + invoke(req.value).result.error] && toasts == old(toasts))
              && (req.Some? && invoke(req.value).result.Succeeded? ==>
                    toasts == old(toasts) + [SuccessToast] && alerts == old(alerts))
    {
      var templateKey := SelectedKey();
      if form.projectName == "" || form.title == "" || templateKey == "" || form.outputFolder == "" {
        alerts := alerts + [IncompleteFormAlert];
        return;
      }
      logArea := [];
      var template := TemplateOf(if templateKey in promptsData then Some(promptsData[templateKey]) else None);
      var data := ProcessRequest(form.projectName, template, form.title, form.voice, form.language,
                                 form.outputFolder, form.modelName);
      assert BuildRequest(form, templateKey, promptsData) == Some(data);
      var run := invoke(data);
      ReceiveLogs(run.logs);
      if run.result.Failed? {
        alerts := alerts + [FailureAlertPrefix + run.result.error];
      } else {
        toasts := toasts + [SuccessToast];
      }
    }

    /** renderer.js:308-344: the list is rebuilt from the stored history,
        with the notice when it is empty. */
    method LoadHistory(history: seq<HistoryEntry>)
      modifies this`historyList
      ensures historyList == HistoryView(history)
    {
      if |history| == 0 {
        historyList := [EmptyNotice];
        return;
      }
      var list: seq<HistoryNode> := [];
      var i := 0;
      while i < |history|
        invariant 0 <= i <= |history|
        invariant |list| == i && forall k :: 0 <= k < i ==> list[k] == ItemOf(AsWritten, k, history[k])
      {
        list := list + [ItemOf(AsWritten, i, history[i])];
        i := i + 1;
      }
      historyList := list;
    }
  }
}
