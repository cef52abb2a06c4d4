/** The multi-turn generation loop of main.js:134-161: the first message is
    the prompt, every later one is `Continue`, each reply is cleaned and
    appended, and the loop stops after the first reply that holds `END` or
    after the thirtieth part. */
module StoryLoop {
  import opened Wrappers
  import opened JsStrings
  import opened PartCleanup

  /** What `chat.sendMessage` yields: the reply text, or the message of the
      error the provider raised. */
  datatype Reply = Text(text: string) | ProviderError(message: string)

  /** The provider, as its answer to the conversation so far (every message
      sent in the chat, the newest last). */
  type Responder = seq<string> -> Reply

  /** A chat session opened with an empty history (main.js:128). */
  class Chat {
    const respond: Responder
    var sent: seq<string>

    constructor (respond: Responder)
      ensures this.respond == respond && sent == []
    {
      this.respond := respond;
      sent := [];
    }

    /** Sends one message; the reply answers the whole conversation. */
    method SendMessage(msg: string) returns (reply: Reply)
      modifies this`sent
      ensures sent == old(sent) + [msg]
      ensures reply == respond(sent)
    {
      sent := sent + [msg];
      reply := respond(sent);
    }
  }

  /** The loop stops once `part >= 30`. */
  const MaxParts := 30

  /** Every message after the first. */
  const ContinueMessage := "Continue"

  /** What follows each non-empty part in the story. */
  const PartSeparator := "\n\n"

  /** The messages of the first `n` turns: the prompt, then `Continue`. */
  function Messages(prompt: string, n: nat): (ms: seq<string>)
    ensures |ms| == n
    ensures n > 0 ==> ms[0] == prompt
    ensures forall k :: 1 <= k < n ==> ms[k] == ContinueMessage
  {
    if n == 0 then []
    else if n == 1 then [prompt]
    else Messages(prompt, n - 1) + [ContinueMessage]
  }

  /** The reply to part `k` (counted from 1). */
  function ReplyTo(respond: Responder, prompt: string, k: nat): Reply {
    respond(Messages(prompt, k))
  }

  /** The reply holds the sentinel. */
  predicate HoldsEnd(text: string) {
    Includes(text, EndMarker)
  }

  /** Part `k` neither fails nor ends the story. */
  predicate Continues(respond: Responder, prompt: string, k: nat) {
    ReplyTo(respond, prompt, k).Text? && !HoldsEnd(ReplyTo(respond, prompt, k).text)
  }

  /** The text a reply contributes: the first `END` deleted, then cleaned. */
  function PartText(reply: string): (p: string)
    ensures p == "" || (!IsWhiteSpace(p[0]) && !IsWhiteSpace(p[|p| - 1]))
  {
    CleanPart(RemoveEndMarker(reply))
  }

  /** `if (text) fullStory += text + "\n\n"`. */
  function Accumulate(story: string, part: string): (s: string)
    ensures part == "" ==> s == story
    ensures part != "" ==> |s| == |story| + |part| + 2 && s[..|story|] == story
                           && s[|story|..|story| + |part|] == part && s[|s| - 2..] == PartSeparator
  {
    if part == "" then story else story + part + PartSeparator
  }

  /** The story after parts 1 to `n` have all answered with text. */
  function Story(respond: Responder, prompt: string, n: nat): (s: string)
    ensures s == "" || (|s| >= 2 && s[|s| - 2..] == PartSeparator)
  {
    if n == 0 then ""
    else
      var r := ReplyTo(respond, prompt, n);
      Accumulate(Story(respond, prompt, n - 1), PartText(if r.Text? then r.text else ""))
  }

  /** A text reply to part `n` carries the story of the parts before it to
      the story of the parts up to it. */
  lemma StoryExtends(respond: Responder, prompt: string, n: nat, story: string, t: string)
    requires n >= 1 && ReplyTo(respond, prompt, n) == Text(t)
    ensures story == Story(respond, prompt, n - 1) ==> Accumulate(story, PartText(t)) == Story(respond, prompt, n)
  {
  }

  /** How the loop ends: with the story and the number of parts, or with
      the provider's error and the part that raised it. */
  datatype LoopOutcome = Finished(story: string, parts: nat) | Aborted(error: string, parts: nat)

  /** The loop from part `part` on, with `story` gathered so far. */
  function StoryFrom(respond: Responder, prompt: string, part: nat, story: string): (r: LoopOutcome)
    requires 1 <= part <= MaxParts
    decreases MaxParts - part
    ensures part <= r.parts <= MaxParts
    ensures forall k :: part <= k < r.parts ==> Continues(respond, prompt, k)
    ensures r.Aborted? ==> ReplyTo(respond, prompt, r.parts) == ProviderError(r.error)
    ensures r.Finished? ==> ReplyTo(respond, prompt, r.parts).Text?
    ensures r.Finished? ==> HoldsEnd(ReplyTo(respond, prompt, r.parts).text) || r.parts == MaxParts
    ensures r.Finished? && story == Story(respond, prompt, part - 1) ==>
              r.story == Story(respond, prompt, r.parts)
  {
    match ReplyTo(respond, prompt, part)
    case ProviderError(e) => Aborted(e, part)
    case Text(t) =>
      var story' := Accumulate(story, PartText(t));
      StoryExtends(respond, prompt, part, story, t);
      if HoldsEnd(t) || part >= MaxParts then Finished(story', part)
      else
        assert Continues(respond, prompt, part);
        StoryFrom(respond, prompt, part + 1, story')
  }

  /** The loop of a run. */
  function RunLoop(respond: Responder, prompt: string): (r: LoopOutcome)
    ensures 1 <= r.parts <= MaxParts
    ensures forall k :: 1 <= k < r.parts ==> Continues(respond, prompt, k)
    ensures r.Aborted? ==> ReplyTo(respond, prompt, r.parts) == ProviderError(r.error)
    ensures r.Finished? ==> r.story == Story(respond, prompt, r.parts)
  {
    StoryFrom(respond, prompt, 1, "")
  }

  /** The loop stops at the first part that does not continue. */
  lemma {:induction false} LoopStopsAtFirstStop(respond: Responder, prompt: string, n: nat)
    requires 1 <= n <= MaxParts
    requires forall k :: 1 <= k < n ==> Continues(respond, prompt, k)
    requires !Continues(respond, prompt, n) || n == MaxParts
    ensures RunLoop(respond, prompt).parts == n
  {
    var r := RunLoop(respond, prompt);
    assert r.parts < n ==> Continues(respond, prompt, r.parts);
    assert r.parts > n ==> Continues(respond, prompt, n);
  }

  /** The first reply holding `END` finishes the story right there, with
      every part up to and including it. */
  lemma StopsAfterFirstEnd(respond: Responder, prompt: string, n: nat)
    requires 1 <= n <= MaxParts
    requires forall k :: 1 <= k < n ==> Continues(respond, prompt, k)
    requires ReplyTo(respond, prompt, n).Text? && HoldsEnd(ReplyTo(respond, prompt, n).text)
    ensures RunLoop(respond, prompt) == Finished(Story(respond, prompt, n), n)
  {
    LoopStopsAtFirstStop(respond, prompt, n);
  }

  /** Without an `END` in the first twenty-nine replies and without any
      error, the story has exactly thirty parts. */
  lemma ThirtyPartsWithoutEnd(respond: Responder, prompt: string)
    requires forall k :: 1 <= k < MaxParts ==> Continues(respond, prompt, k)
    requires ReplyTo(respond, prompt, MaxParts).Text?
    ensures RunLoop(respond, prompt) == Finished(Story(respond, prompt, MaxParts), MaxParts)
  {
    LoopStopsAtFirstStop(respond, prompt, MaxParts);
  }

  /** A provider error at the first part that does not continue aborts the
      loop with that error. */
  lemma AbortsAtFirstError(respond: Responder, prompt: string, n: nat, e: string)
    requires 1 <= n <= MaxParts
    requires forall k :: 1 <= k < n ==> Continues(respond, prompt, k)
    requires ReplyTo(respond, prompt, n) == ProviderError(e)
    ensures RunLoop(respond, prompt) == Aborted(e, n)
  {
    LoopStopsAtFirstStop(respond, prompt, n);
  }

  /** The loop sends between one and thirty messages: the prompt, then at
      most twenty-nine `Continue`s. */
  lemma MessagesSent(respond: Responder, prompt: string)
    ensures var ms := Messages(prompt, RunLoop(respond, prompt).parts);
            1 <= |ms| <= MaxParts && ms[0] == prompt
            && forall k :: 1 <= k < |ms| ==> ms[k] == ContinueMessage
  {
  }

  /** An empty cleaned part leaves the story as it was; a non-empty one is
      appended with a blank line after it. */
  lemma StoryStep(respond: Responder, prompt: string, n: nat)
    requires n >= 1 && ReplyTo(respond, prompt, n).Text?
    ensures var p := PartText(ReplyTo(respond, prompt, n).text);
            Story(respond, prompt, n)
              == if p == "" then Story(respond, prompt, n - 1)
                 else Story(respond, prompt, n - 1) + p + PartSeparator
  {
  }

  // ----- progress messages -----

  /** A line the handler sends to the window's log. */
  datatype LogLine =
    | ProjectStart(projectName: string)
    | ModelChosen(model: string)
    | StoryStart
    | PartStart(part: nat)
    | StorySaved
    | DescriptionStart
    | DescriptionSaved
    | AudioStart(voice: string)
    | Ready
    | Critical(message: string)

  function DigitChar(d: nat): (c: char)
    requires d < 10
    ensures '0' <= c <= '9' && c as int - '0' as int == d
  {
    ('0' as int + d) as char
  }

  /** The number a text of decimal digits denotes. */
  function DigitsValue(s: string): int {
    if s == [] then 0 else DigitsValue(s[..|s| - 1]) * 10 + (s[|s| - 1] as int - '0' as int)
  }

  /** The decimal text of a number, as a template literal prints it: digits
      without a leading zero, denoting the number. */
  function NatToString(n: nat): (s: string)
    ensures |s| >= 1 && (n >= 10 ==> s[0] != '0')
    ensures forall k :: 0 <= k < |s| ==> '0' <= s[k] <= '9'
    ensures DigitsValue(s) == n
  {
    if n < 10 then [DigitChar(n)]
    else
      var s := NatToString(n / 10) + [DigitChar(n % 10)];
      assert s[..|s| - 1] == NatToString(n / 10);
      s
  }

  /** The text of each log line (main.js:106-209). */
  function LineText(line: LogLine): string {
    match line
    case ProjectStart(name) => "Початок проекту: " + name
    case ModelChosen(model) => "Модель: " + model
    case StoryStart => "Генерація історії..."
    case PartStart(part) => "Генерація частини " + NatToString(part) + "..."
    case StorySaved => "Історію збережено."
    case DescriptionStart => "Генерація опису (YouTube SEO)..."
    case DescriptionSaved => "Опис збережено."
    case AudioStart(voice) => "Створення аудіо (" + voice + ")..."
    case Ready => "Готово! Відкриваю папку."
    case Critical(message) => "Критична помилка: " + message
  }

  /** The lines that carry a value (the project name, the model and the
      error message) end with that value, verbatim. */
  lemma LineTextEndsWithValue(line: LogLine)
    ensures var t := LineText(line);
            && (line.ProjectStart? ==> |t| >= |line.projectName| && t[|t| - |line.projectName|..] == line.projectName)
            && (line.ModelChosen? ==> |t| >= |line.model| && t[|t| - |line.model|..] == line.model)
            && (line.Critical? ==> |t| >= |line.message| && t[|t| - |line.message|..] == line.message)
  {
  }

  /** The progress lines of the first `n` parts. */
  function PartLogs(n: nat): (ls: seq<LogLine>)
    ensures |ls| == n
    ensures forall k :: 0 <= k < n ==> ls[k] == PartStart(k + 1)
  {
    if n == 0 then [] else PartLogs(n - 1) + [PartStart(n)]
  }

  /** One turn of the loop, unfolded: a text reply is gathered and either
      ends the loop or hands over to the next part. */
  lemma StoryFromText(respond: Responder, prompt: string, part: nat, story: string, t: string)
    requires 1 <= part <= MaxParts
    requires ReplyTo(respond, prompt, part) == Text(t)
    ensures HoldsEnd(t) || part >= MaxParts ==>
              StoryFrom(respond, prompt, part, story) == Finished(Accumulate(story, PartText(t)), part)
    ensures !HoldsEnd(t) && part < MaxParts ==>
              StoryFrom(respond, prompt, part, story)
              == StoryFrom(respond, prompt, part + 1, Accumulate(story, PartText(t)))
  {
  }

  /** main.js:141-153 for one reply: whether it holds `END`, and the text
      it contributes. */
  method CleanReply(reply: string) returns (isEnd: bool, text: string)
    ensures isEnd == HoldsEnd(reply) && text == PartText(reply)
  {
    text := reply;
    isEnd := Includes(text, EndMarker);
    if isEnd {
      text := ReplaceFirst(text, EndMarker, "");
    }
    text := CleanPart(text);
  }

  /** One pass through the body of the loop of main.js:134-161: send the
      message, then stop on an error, on `END` or at the last part, or carry
      the gathered story over to the next part. */
  method Turn(chat: Chat, prompt: string, part: nat, story: string, msg: string)
    returns (stop: bool, outcome: LoopOutcome, story': string)
    requires 1 <= part <= MaxParts
    requires chat.sent == Messages(prompt, part - 1)
    requires msg == if part == 1 then prompt else ContinueMessage
    modifies chat`sent
    ensures chat.sent == Messages(prompt, part)
    ensures stop ==> outcome.parts == part && outcome == StoryFrom(chat.respond, prompt, part, story)
    ensures !stop ==> part < MaxParts
                      && StoryFrom(chat.respond, prompt, part, story)
                         == StoryFrom(chat.respond, prompt, part + 1, story')
  {
    var reply := chat.SendMessage(msg);
    assert chat.sent == Messages(prompt, part);
    story' := story;
    match reply {
      case ProviderError(e) =>
        stop, outcome := true, Aborted(e, part);
      case Text(t) =>
        StoryFromText(chat.respond, prompt, part, story, t);
        var isEnd, text := CleanReply(t);
        if text != "" {
          story' := story + text + PartSeparator;
        }
        stop := isEnd || part >= MaxParts;
        outcome := Finished(story', part);
    }
  }

  /** The loop of main.js:134-161 on a fresh chat: returns how it ended and
      the progress lines it sent. */
  method GenerateStory(chat: Chat, prompt: string) returns (outcome: LoopOutcome, logs: seq<LogLine>)
    requires chat.sent == []
    modifies chat`sent
    ensures outcome == RunLoop(chat.respond, prompt)
    ensures chat.sent == Messages(prompt, outcome.parts)
    ensures logs == PartLogs(outcome.parts)
  {
    var fullStory := "";
    var currentMsg := prompt;
    var part := 1;
    logs := [];
    while true
      invariant 1 <= part <= MaxParts
      invariant chat.sent == Messages(prompt, part - 1)
      invariant currentMsg == if part == 1 then prompt else ContinueMessage
      invariant logs == PartLogs(part - 1)
      invariant RunLoop(chat.respond, prompt) == StoryFrom(chat.respond, prompt, part, fullStory)
      decreases MaxParts - part
    {
      logs := logs + [PartStart(part)];
      assert logs == PartLogs(part);
      var stop;
      stop, outcome, fullStory := Turn(chat, prompt, part, fullStory, currentMsg);
      if stop {
        assert outcome.parts == part;
        return;
      }
      currentMsg := ContinueMessage;
      part := part + 1;
    }
  }
}
