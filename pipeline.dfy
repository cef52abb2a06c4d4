/** The `start-process` handler of main.js:92-212 from start to finish: the
    settings checks, the run folder, the story loop, the description, the
    narration, the history entry, and the mapping of every failure to
    `{ success: false, error }`. */
module StoryPipeline {
  import opened Wrappers
  import opened JsStrings
  import opened PartCleanup
  import opened RunSetup
  import opened StoryLoop
  import opened History

  /** The `templateText` the request carries: a string, or a value without
      a `replace` method, together with the message of the `TypeError` the
      JavaScript engine raises when main.js:132 calls it. */
  datatype Template = TemplateText(text: string) | NotText(typeError: string)

  /** The request the renderer sends (renderer.js:205-213). */
  datatype ProcessRequest = ProcessRequest(
    projectName: string,
    template: Template,
    title: string,
    voice: string,
    language: string,
    outputFolder: string,
    modelName: string)

  /** The outcome of one file-system or subprocess call: done, or the
      message of the error it raised. */
  datatype IoResult = Done | IoError(message: string)

  /** How the outside world answers the handler's calls, in the order they
      are made: creating the folder, writing the story, the description and
      the narration text, and running edge-tts. Deleting the temporary file
      is left out: main.js:190 swallows its failure. */
  datatype Environment = Environment(
    ensureDir: IoResult,
    writeStory: IoResult,
    writeDescription: IoResult,
    writeAudioText: IoResult,
    tts: IoResult)

  /** The two readings of the clock: when the folder is named and when the
      history entry is made, both as `toISOString` gives them. */
  datatype Clock = Clock(startIso: string, finishIso: string)

  /** A call the handler makes on the world, in the order it makes them. */
  datatype Effect =
    | EnsureDir(path: string)
    | WriteFile(path: string, content: string)
    | Exec(command: string)
    | Unlink(path: string)
    | OpenPath(path: string)

  /** What the handler returns to the renderer. */
  datatype ProcessResult = Succeeded | Failed(error: string)

  /** Everything a run produces: its result, the calls it made, the log
      lines it sent to the window, the messages it sent to the provider and
      the stored history afterwards. */
  datatype Run = Run(
    result: ProcessResult,
    effects: seq<Effect>,
    logs: seq<LogLine>,
    sent: seq<string>,
    history: seq<HistoryEntry>)

  // ----- texts -----

  const MissingKeyError := "API ключ відсутній в налаштуваннях."
  const MissingTtsError := "Шлях до Edge TTS відсутній."

  /** The description request. */
  function DescriptionPrompt(title: string): (d: string)
    ensures |d| == 34 + |title| + 20 && d[34..34 + |title|] == title
  {
    "Create a YouTube description for: " + title + ". Language: English."
  }

  /** The edge-tts command line of main.js:188. */
  function TtsCommand(exe: string, textPath: string, audioPath: string, voice: string): (c: string)
    ensures |c| > |exe| + 2 && c[..|exe| + 2] == "\"" + exe + "\""
    ensures |c| >= |voice| && c[|c| - |voice|..] == voice
  {
    "\"" + exe + "\" --file \"" + textPath + "\" --write-media \"" + audioPath + "\" --voice " + voice
  }

  /** A stored setting is truthy: present and not the empty string. */
  predicate Truthy(setting: Option<string>) {
    setting.Some? && setting.value != ""
  }

  /** The `catch` block: the failure log line goes out and the error becomes
      the result; history is untouched. */
  function Abort(error: string, effects: seq<Effect>, logs: seq<LogLine>, sent: seq<string>,
                 history: seq<HistoryEntry>): (run: Run)
    ensures run.result == Failed(error) && run.history == history
    ensures run.logs == logs + [Critical(error)]
  {
    Run(Failed(error), effects, logs + [Critical(error)], sent, history)
  }

  // ----- the handler as a function of its inputs -----

  /** The run ended with the failure line of its own error. */
  predicate EndsWithFailureLine(run: Run) {
    run.result.Failed? && run.logs != [] && run.logs[|run.logs| - 1] == Critical(run.result.error)
  }

  /** `longer` starts with `prefix`. */
  predicate Extends<T(==)>(longer: seq<T>, prefix: seq<T>) {
    |prefix| <= |longer| && forall k :: 0 <= k < |prefix| ==> longer[k] == prefix[k]
  }

  predicate NoUnlink(effects: seq<Effect>) {
    forall k :: 0 <= k < |effects| ==> !effects[k].Unlink?
  }

  /** The entry a successful run records. */
  function EntryOf(req: ProcessRequest, clock: Clock): HistoryEntry {
    HistoryEntry(req.title, req.projectName, RunFolder(req.outputFolder, req.projectName, clock.startIso),
                 clock.finishIso)
  }

  /** The whole handler. History changes only on success, and then by the
      run's entry put first and the cut to twenty; every failure ends with
      the failure line and leaves the history as it was. */
  function Handle(apiKey: Option<string>, edgeTtsPath: Option<string>, history: seq<HistoryEntry>,
                  req: ProcessRequest, env: Environment, clock: Clock, respond: Responder): (run: Run)
    ensures run.result.Failed? ==> run.history == history && EndsWithFailureLine(run)
    ensures run.result.Succeeded? ==> run.history == PushCapped(history, EntryOf(req, clock))
  {
    if !Truthy(apiKey) then Abort(MissingKeyError, [], [], [], history)
    else if !Truthy(edgeTtsPath) then Abort(MissingTtsError, [], [], [], history)
    else
      var logs := [ProjectStart(req.projectName)] + [ModelChosen(SelectedModel(req.modelName))];
      var folder := RunFolder(req.outputFolder, req.projectName, clock.startIso);
      var effects := [EnsureDir(folder)];
      if env.ensureDir.IoError? then Abort(env.ensureDir.message, effects, logs, [], history)
      else
        var logs := logs + [StoryStart];
        match req.template
        case NotText(e) => Abort(e, effects, logs, [], history)
        case TemplateText(tpl) =>
          Generate(edgeTtsPath.value, history, req, env, clock, respond, folder, effects, logs,
                   FirstPrompt(tpl, req.title, req.language))
  }

  /** The story loop on the substituted prompt (main.js:134-161) and what
      follows it. */
  function Generate(exe: string, history: seq<HistoryEntry>, req: ProcessRequest, env: Environment,
                    clock: Clock, respond: Responder, folder: string, effects: seq<Effect>,
                    logs: seq<LogLine>, prompt: string): (run: Run)
    ensures run.result.Failed? ==> run.history == history && EndsWithFailureLine(run)
    ensures run.result.Succeeded? ==>
              run.history == PushCapped(history, HistoryEntry(req.title, req.projectName, folder, clock.finishIso))
    ensures Extends(run.effects, effects)
    ensures 1 <= |run.sent| <= MaxParts + 1 && run.sent[0] == prompt
    ensures NoUnlink(effects) && run.result.Failed? ==> NoUnlink(run.effects)
    ensures env.tts.IoError? ==> run.result.Failed?
  {
    var loop := RunLoop(respond, prompt);
    var logs := logs + PartLogs(loop.parts);
    var sent := Messages(prompt, loop.parts);
    match loop
    case Aborted(e, _) => Abort(e, effects, logs, sent, history)
    case Finished(story, _) => AfterStory(exe, history, req, env, clock, respond, folder, story, effects, logs, sent)
  }

  /** Saving the story and asking for the description (main.js:163-177). */
  function AfterStory(exe: string, history: seq<HistoryEntry>, req: ProcessRequest, env: Environment,
                      clock: Clock, respond: Responder, folder: string, story: string,
                      effects: seq<Effect>, logs: seq<LogLine>, sent: seq<string>): (run: Run)
    ensures run.result.Failed? ==> run.history == history && EndsWithFailureLine(run)
    ensures run.result.Succeeded? ==>
              run.history == PushCapped(history, HistoryEntry(req.title, req.projectName, folder, clock.finishIso))
    ensures Extends(run.effects, effects)
    ensures |run.sent| <= |sent| + 1 && Extends(run.sent, sent)
    ensures NoUnlink(effects) && run.result.Failed? ==> NoUnlink(run.effects)
    ensures env.tts.IoError? ==> run.result.Failed?
  {
    var effects := effects + [WriteFile(JoinPath(folder, "story.txt"), story)];
    if env.writeStory.IoError? then Abort(env.writeStory.message, effects, logs, sent, history)
    else
      var logs := logs + [StorySaved] + [DescriptionStart];
      var sent := sent + [DescriptionPrompt(req.title)];
      match respond(sent)
      case ProviderError(e) => Abort(e, effects, logs, sent, history)
      case Text(description) =>
        var effects := effects + [WriteFile(JoinPath(folder, "description.txt"), description)];
        if env.writeDescription.IoError? then Abort(env.writeDescription.message, effects, logs, sent, history)
        else Narrate(exe, history, req, env, clock, folder, story, effects, logs + [DescriptionSaved], sent)
  }

  /** The narration text (main.js:180-187). */
  function Narrate(exe: string, history: seq<HistoryEntry>, req: ProcessRequest, env: Environment,
                   clock: Clock, folder: string, story: string, effects: seq<Effect>,
                   logs: seq<LogLine>, sent: seq<string>): (run: Run)
    ensures run.result.Failed? ==> run.history == history && EndsWithFailureLine(run)
    ensures run.result.Succeeded? ==>
              run.history == PushCapped(history, HistoryEntry(req.title, req.projectName, folder, clock.finishIso))
    ensures Extends(run.effects, effects)
    ensures run.sent == sent
    ensures NoUnlink(effects) && run.result.Failed? ==> NoUnlink(run.effects)
    ensures env.tts.IoError? ==> run.result.Failed?
  {
    var logs := logs + [AudioStart(req.voice)];
    var textPath := JoinPath(folder, "temp_tts.txt");
    var effects := effects + [WriteFile(textPath, AudioText(story))];
    if env.writeAudioText.IoError? then Abort(env.writeAudioText.message, effects, logs, sent, history)
    else Speak(exe, history, req, env, clock, folder, textPath, effects, logs, sent)
  }

  /** Running edge-tts, the end of the run and the history entry
      (main.js:188-206). */
  function Speak(exe: string, history: seq<HistoryEntry>, req: ProcessRequest, env: Environment,
                 clock: Clock, folder: string, textPath: string, effects: seq<Effect>,
                 logs: seq<LogLine>, sent: seq<string>): (run: Run)
    ensures run.result.Failed? ==> run.history == history && EndsWithFailureLine(run)
    ensures run.result.Succeeded? ==>
              run.history == PushCapped(history, HistoryEntry(req.title, req.projectName, folder, clock.finishIso))
    ensures Extends(run.effects, effects)
    ensures run.sent == sent
    ensures NoUnlink(effects) && run.result.Failed? ==> NoUnlink(run.effects)
    ensures env.tts.IoError? ==> run.result.Failed?
  {
    var audioPath := JoinPath(folder, "audio.mp3");
    var effects := effects + [Exec(TtsCommand(exe, textPath, audioPath, req.voice))];
    if env.tts.IoError? then Abort(env.tts.message, effects, logs, sent, history)
    else
      var entry := HistoryEntry(req.title, req.projectName, folder, clock.finishIso);
      Run(Succeeded, effects + [Unlink(textPath)] + [OpenPath(folder)], logs + [Ready], sent,
          PushCapped(history, entry))
  }

  // ----- what a run promises -----

  /** A missing API key fails first, whatever the TTS path: no call on the
      world, no message to the provider, only the failure line. */
  lemma MissingKeyFailsFirst(apiKey: Option<string>, edgeTtsPath: Option<string>, history: seq<HistoryEntry>,
                             req: ProcessRequest, env: Environment, clock: Clock, respond: Responder)
    requires !Truthy(apiKey)
    ensures Handle(apiKey, edgeTtsPath, history, req, env, clock, respond)
            == Run(Failed(MissingKeyError), [], [Critical(MissingKeyError)], [], history)
  {
  }

  /** With a key but no TTS path the run fails the same way, before the
      folder or the provider is touched. */
  lemma MissingTtsPathFails(apiKey: Option<string>, edgeTtsPath: Option<string>, history: seq<HistoryEntry>,
                            req: ProcessRequest, env: Environment, clock: Clock, respond: Responder)
    requires Truthy(apiKey) && !Truthy(edgeTtsPath)
    ensures Handle(apiKey, edgeTtsPath, history, req, env, clock, respond)
            == Run(Failed(MissingTtsError), [], [Critical(MissingTtsError)], [], history)
  {
  }

  /** Nothing reaches the provider before the folder exists: a run that
      sent any message had both settings, created the run folder as its
      first call on the world, and sent the substituted prompt first. */
  lemma FolderBeforeMessages(apiKey: Option<string>, edgeTtsPath: Option<string>, history: seq<HistoryEntry>,
                             req: ProcessRequest, env: Environment, clock: Clock, respond: Responder)
    requires Handle(apiKey, edgeTtsPath, history, req, env, clock, respond).sent != []
    ensures Truthy(apiKey) && Truthy(edgeTtsPath) && env.ensureDir.Done? && req.template.TemplateText?
    ensures var run := Handle(apiKey, edgeTtsPath, history, req, env, clock, respond);
            && run.effects != []
            && run.effects[0] == EnsureDir(RunFolder(req.outputFolder, req.projectName, clock.startIso))
            && run.sent[0] == FirstPrompt(req.template.text, req.title, req.language)
            && |run.sent| <= MaxParts + 1
  {
  }

  lemma HandleSucceeded(apiKey: Option<string>, edgeTtsPath: Option<string>, history: seq<HistoryEntry>,
                        req: ProcessRequest, env: Environment, clock: Clock, respond: Responder)
    requires Handle(apiKey, edgeTtsPath, history, req, env, clock, respond).result.Succeeded?
    ensures Truthy(apiKey) && Truthy(edgeTtsPath) && env.ensureDir.Done? && req.template.TemplateText?
    ensures var folder := RunFolder(req.outputFolder, req.projectName, clock.startIso);
            Handle(apiKey, edgeTtsPath, history, req, env, clock, respond)
            == Generate(edgeTtsPath.value, history, req, env, clock, respond, folder, [EnsureDir(folder)],
                        [ProjectStart(req.projectName)] + [ModelChosen(SelectedModel(req.modelName))] + [StoryStart],
                        FirstPrompt(req.template.text, req.title, req.language))
  {
  }

  lemma GenerateSucceeded(exe: string, history: seq<HistoryEntry>, req: ProcessRequest, env: Environment,
                          clock: Clock, respond: Responder, folder: string, effects: seq<Effect>,
                          logs: seq<LogLine>, prompt: string)
    requires Generate(exe, history, req, env, clock, respond, folder, effects, logs, prompt).result.Succeeded?
    ensures RunLoop(respond, prompt).Finished?
    ensures var loop := RunLoop(respond, prompt);
            Generate(exe, history, req, env, clock, respond, folder, effects, logs, prompt)
            == AfterStory(exe, history, req, env, clock, respond, folder, loop.story, effects,
                          logs + PartLogs(loop.parts), Messages(prompt, loop.parts))
  {
  }

  lemma AfterStorySucceeded(exe: string, history: seq<HistoryEntry>, req: ProcessRequest, env: Environment,
                            clock: Clock, respond: Responder, folder: string, story: string,
                            effects: seq<Effect>, logs: seq<LogLine>, sent: seq<string>)
    requires AfterStory(exe, history, req, env, clock, respond, folder, story, effects, logs, sent).result.Succeeded?
    ensures env.writeStory.Done? && env.writeDescription.Done?
    ensures respond(sent + [DescriptionPrompt(req.title)]).Text?
    ensures var description := respond(sent + [DescriptionPrompt(req.title)]).text;
            AfterStory(exe, history, req, env, clock, respond, folder, story, effects, logs, sent)
            == Narrate(exe, history, req, env, clock, folder, story,
                       effects + [WriteFile(JoinPath(folder, "story.txt"), story)]
                               + [WriteFile(JoinPath(folder, "description.txt"), description)],
                       logs + [StorySaved] + [DescriptionStart] + [DescriptionSaved],
                       sent + [DescriptionPrompt(req.title)])
  {
  }

  lemma NarrateSucceeded(exe: string, history: seq<HistoryEntry>, req: ProcessRequest, env: Environment,
                         clock: Clock, folder: string, story: string, effects: seq<Effect>,
                         logs: seq<LogLine>, sent: seq<string>)
    requires Narrate(exe, history, req, env, clock, folder, story, effects, logs, sent).result.Succeeded?
    ensures env.writeAudioText.Done? && env.tts.Done?
    ensures var textPath := JoinPath(folder, "temp_tts.txt");
            Narrate(exe, history, req, env, clock, folder, story, effects, logs, sent)
            == Run(Succeeded,
                   effects + [WriteFile(textPath, AudioText(story))]
                           + [Exec(TtsCommand(exe, textPath, JoinPath(folder, "audio.mp3"), req.voice))]
                           + [Unlink(textPath)] + [OpenPath(folder)],
                   logs + [AudioStart(req.voice)] + [Ready],
                   sent,
                   PushCapped(history, HistoryEntry(req.title, req.projectName, folder, clock.finishIso)))
  {
  }

  /** A successful run: the messages it sent, its log lines and its calls on
      the world, in order. The story file holds the loop's story, the
      description file the provider's reply exactly as it came, and the
      narration text the story without `*` and with `"` turned into `'`. */
  lemma SuccessfulRun(apiKey: Option<string>, edgeTtsPath: Option<string>, history: seq<HistoryEntry>,
                      req: ProcessRequest, env: Environment, clock: Clock, respond: Responder)
    requires Handle(apiKey, edgeTtsPath, history, req, env, clock, respond).result.Succeeded?
    ensures Truthy(edgeTtsPath) && req.template.TemplateText?
    ensures && env.ensureDir.Done? && env.writeStory.Done? && env.writeDescription.Done?
            && env.writeAudioText.Done? && env.tts.Done?
    ensures var run := Handle(apiKey, edgeTtsPath, history, req, env, clock, respond);
            var prompt := FirstPrompt(req.template.text, req.title, req.language);
            var loop := RunLoop(respond, prompt);
            var folder := RunFolder(req.outputFolder, req.projectName, clock.startIso);
            var textPath := JoinPath(folder, "temp_tts.txt");
            && loop.Finished?
            && run.sent == Messages(prompt, loop.parts) + [DescriptionPrompt(req.title)]
            && respond(run.sent).Text?
            && run.logs == [ProjectStart(req.projectName)] + [ModelChosen(SelectedModel(req.modelName))]
                           + [StoryStart] + PartLogs(loop.parts)
                           + [StorySaved] + [DescriptionStart] + [DescriptionSaved]
                           + [AudioStart(req.voice)] + [Ready]
            && run.effects == [EnsureDir(folder)]
                              + [WriteFile(JoinPath(folder, "story.txt"), loop.story)]
                              + [WriteFile(JoinPath(folder, "description.txt"), respond(run.sent).text)]
                              + [WriteFile(textPath, AudioText(loop.story))]
                              + [Exec(TtsCommand(edgeTtsPath.value, textPath, JoinPath(folder, "audio.mp3"), req.voice))]
                              + [Unlink(textPath)] + [OpenPath(folder)]
  {
    HandleSucceeded(apiKey, edgeTtsPath, history, req, env, clock, respond);
    var prompt := FirstPrompt(req.template.text, req.title, req.language);
    var loop := RunLoop(respond, prompt);
    var folder := RunFolder(req.outputFolder, req.projectName, clock.startIso);
    var logs := [ProjectStart(req.projectName)] + [ModelChosen(SelectedModel(req.modelName))] + [StoryStart];
    GenerateSucceeded(edgeTtsPath.value, history, req, env, clock, respond, folder, [EnsureDir(folder)], logs, prompt);
    var sent := Messages(prompt, loop.parts);
    AfterStorySucceeded(edgeTtsPath.value, history, req, env, clock, respond, folder, loop.story,
                        [EnsureDir(folder)], logs + PartLogs(loop.parts), sent);
    var description := respond(sent + [DescriptionPrompt(req.title)]).text;
    NarrateSucceeded(edgeTtsPath.value, history, req, env, clock, folder, loop.story,
                     [EnsureDir(folder)] + [WriteFile(JoinPath(folder, "story.txt"), loop.story)]
                                         + [WriteFile(JoinPath(folder, "description.txt"), description)],
                     logs + PartLogs(loop.parts) + [StorySaved] + [DescriptionStart] + [DescriptionSaved],
                     sent + [DescriptionPrompt(req.title)]);
  }

  /** When edge-tts fails the run fails, and the narration text file it may
      have written is never deleted: the run stops before main.js:190. */
  lemma TtsFailureLeavesTextFile(apiKey: Option<string>, edgeTtsPath: Option<string>, history: seq<HistoryEntry>,
                                 req: ProcessRequest, env: Environment, clock: Clock, respond: Responder)
    requires env.tts.IoError?
    ensures var run := Handle(apiKey, edgeTtsPath, history, req, env, clock, respond);
            run.result.Failed? && NoUnlink(run.effects)
  {
    if Truthy(apiKey) && Truthy(edgeTtsPath) && env.ensureDir.Done? && req.template.TemplateText? {
      var folder := RunFolder(req.outputFolder, req.projectName, clock.startIso);
      var logs := [ProjectStart(req.projectName)] + [ModelChosen(SelectedModel(req.modelName))] + [StoryStart];
      var prompt := FirstPrompt(req.template.text, req.title, req.language);
      assert NoUnlink([EnsureDir(folder)]);
      assert Handle(apiKey, edgeTtsPath, history, req, env, clock, respond)
             == Generate(edgeTtsPath.value, history, req, env, clock, respond, folder, [EnsureDir(folder)], logs, prompt);
    }
  }

  // ----- how each step fails -----

  /** The settings are there, the folder was created and the template is a
      string: the run reaches the story loop. */
  predicate ReachesStory(apiKey: Option<string>, edgeTtsPath: Option<string>, req: ProcessRequest,
                         env: Environment) {
    Truthy(apiKey) && Truthy(edgeTtsPath) && env.ensureDir.Done? && req.template.TemplateText?
  }

  /** The lines a run has logged when its story loop starts. */
  function OpeningLogs(req: ProcessRequest): seq<LogLine> {
    [ProjectStart(req.projectName)] + [ModelChosen(SelectedModel(req.modelName))] + [StoryStart]
  }

  /** The prompt the story loop starts from. */
  function StoryPrompt(req: ProcessRequest): string
    requires req.template.TemplateText?
  {
    FirstPrompt(req.template.text, req.title, req.language)
  }

  /** The run folder cannot be created: the run fails with that error after
      the first two lines, and nothing else is called or sent. */
  lemma FolderFailureFails(apiKey: Option<string>, edgeTtsPath: Option<string>, history: seq<HistoryEntry>,
                           req: ProcessRequest, env: Environment, clock: Clock, respond: Responder)
    requires Truthy(apiKey) && Truthy(edgeTtsPath) && env.ensureDir.IoError?
    ensures var m := env.ensureDir.message;
            Handle(apiKey, edgeTtsPath, history, req, env, clock, respond)
            == Run(Failed(m), [EnsureDir(RunFolder(req.outputFolder, req.projectName, clock.startIso))],
                   [ProjectStart(req.projectName)] + [ModelChosen(SelectedModel(req.modelName))] + [Critical(m)],
                   [], history)
  {
  }

  /** The template is not a string: `replace` throws before any message is
      sent, and its `TypeError` is the run's error. */
  lemma TemplateFailureFails(apiKey: Option<string>, edgeTtsPath: Option<string>, history: seq<HistoryEntry>,
                             req: ProcessRequest, env: Environment, clock: Clock, respond: Responder)
    requires Truthy(apiKey) && Truthy(edgeTtsPath) && env.ensureDir.Done? && req.template.NotText?
    ensures var m := req.template.typeError;
            Handle(apiKey, edgeTtsPath, history, req, env, clock, respond)
            == Run(Failed(m), [EnsureDir(RunFolder(req.outputFolder, req.projectName, clock.startIso))],
                   OpeningLogs(req) + [Critical(m)], [], history)
  {
  }

  /** The provider fails during the story: the run fails with its message
      right after the parts logged so far, and no file is written. */
  lemma LoopFailureFails(apiKey: Option<string>, edgeTtsPath: Option<string>, history: seq<HistoryEntry>,
                         req: ProcessRequest, env: Environment, clock: Clock, respond: Responder)
    requires ReachesStory(apiKey, edgeTtsPath, req, env)
    requires RunLoop(respond, StoryPrompt(req)).Aborted?
    ensures var loop := RunLoop(respond, StoryPrompt(req));
            Handle(apiKey, edgeTtsPath, history, req, env, clock, respond)
            == Run(Failed(loop.error), [EnsureDir(RunFolder(req.outputFolder, req.projectName, clock.startIso))],
                   OpeningLogs(req) + PartLogs(loop.parts) + [Critical(loop.error)],
                   Messages(StoryPrompt(req), loop.parts), history)
  {
    var folder := RunFolder(req.outputFolder, req.projectName, clock.startIso);
    assert Handle(apiKey, edgeTtsPath, history, req, env, clock, respond)
           == Generate(edgeTtsPath.value, history, req, env, clock, respond, folder, [EnsureDir(folder)],
                       OpeningLogs(req), StoryPrompt(req));
  }

  /** story.txt cannot be written: the run fails with that error, and the
      description is never asked for. */
  lemma StoryWriteFailureFails(apiKey: Option<string>, edgeTtsPath: Option<string>, history: seq<HistoryEntry>,
                               req: ProcessRequest, env: Environment, clock: Clock, respond: Responder)
    requires ReachesStory(apiKey, edgeTtsPath, req, env)
    requires RunLoop(respond, StoryPrompt(req)).Finished? && env.writeStory.IoError?
    ensures var loop := RunLoop(respond, StoryPrompt(req));
            var folder := RunFolder(req.outputFolder, req.projectName, clock.startIso);
            var m := env.writeStory.message;
            Handle(apiKey, edgeTtsPath, history, req, env, clock, respond)
            == Run(Failed(m), [EnsureDir(folder)] + [WriteFile(JoinPath(folder, "story.txt"), loop.story)],
                   OpeningLogs(req) + PartLogs(loop.parts) + [Critical(m)],
                   Messages(StoryPrompt(req), loop.parts), history)
  {
    var folder := RunFolder(req.outputFolder, req.projectName, clock.startIso);
    var loop := RunLoop(respond, StoryPrompt(req));
    assert Handle(apiKey, edgeTtsPath, history, req, env, clock, respond)
           == AfterStory(edgeTtsPath.value, history, req, env, clock, respond, folder, loop.story,
                         [EnsureDir(folder)], OpeningLogs(req) + PartLogs(loop.parts),
                         Messages(StoryPrompt(req), loop.parts));
  }

  /** The provider fails on the description request: the run fails with its
      message, and only story.txt has been written. */
  lemma DescriptionFailureFails(apiKey: Option<string>, edgeTtsPath: Option<string>, history: seq<HistoryEntry>,
                                req: ProcessRequest, env: Environment, clock: Clock, respond: Responder)
    requires ReachesStory(apiKey, edgeTtsPath, req, env)
    requires RunLoop(respond, StoryPrompt(req)).Finished? && env.writeStory.Done?
    requires var loop := RunLoop(respond, StoryPrompt(req));
             respond(Messages(StoryPrompt(req), loop.parts) + [DescriptionPrompt(req.title)]).ProviderError?
    ensures var loop := RunLoop(respond, StoryPrompt(req));
            var folder := RunFolder(req.outputFolder, req.projectName, clock.startIso);
            var sent := Messages(StoryPrompt(req), loop.parts) + [DescriptionPrompt(req.title)];
            var m := respond(sent).message;
            Handle(apiKey, edgeTtsPath, history, req, env, clock, respond)
            == Run(Failed(m), [EnsureDir(folder)] + [WriteFile(JoinPath(folder, "story.txt"), loop.story)],
                   OpeningLogs(req) + PartLogs(loop.parts) + [StorySaved] + [DescriptionStart] + [Critical(m)],
                   sent, history)
  {
    var folder := RunFolder(req.outputFolder, req.projectName, clock.startIso);
    var loop := RunLoop(respond, StoryPrompt(req));
    assert Handle(apiKey, edgeTtsPath, history, req, env, clock, respond)
           == AfterStory(edgeTtsPath.value, history, req, env, clock, respond, folder, loop.story,
                         [EnsureDir(folder)], OpeningLogs(req) + PartLogs(loop.parts),
                         Messages(StoryPrompt(req), loop.parts));
  }

  /** The state of a run whose description has come back: the story was
      saved, the description asked for and its reply is text. */
  predicate DescribedRun(apiKey: Option<string>, edgeTtsPath: Option<string>, req: ProcessRequest,
                         env: Environment, respond: Responder) {
    && ReachesStory(apiKey, edgeTtsPath, req, env)
    && RunLoop(respond, StoryPrompt(req)).Finished? && env.writeStory.Done?
    && respond(Messages(StoryPrompt(req), RunLoop(respond, StoryPrompt(req)).parts)
               + [DescriptionPrompt(req.title)]).Text?
  }

  /** Such a run goes on with the description written. */
  lemma DescribedRunGoesOn(apiKey: Option<string>, edgeTtsPath: Option<string>, history: seq<HistoryEntry>,
                           req: ProcessRequest, env: Environment, clock: Clock, respond: Responder)
    requires DescribedRun(apiKey, edgeTtsPath, req, env, respond)
    ensures var loop := RunLoop(respond, StoryPrompt(req));
            var folder := RunFolder(req.outputFolder, req.projectName, clock.startIso);
            var sent := Messages(StoryPrompt(req), loop.parts) + [DescriptionPrompt(req.title)];
            var effects := [EnsureDir(folder)] + [WriteFile(JoinPath(folder, "story.txt"), loop.story)]
                           + [WriteFile(JoinPath(folder, "description.txt"), respond(sent).text)];
            var logs := OpeningLogs(req) + PartLogs(loop.parts) + [StorySaved] + [DescriptionStart];
            Handle(apiKey, edgeTtsPath, history, req, env, clock, respond)
            == if env.writeDescription.IoError? then Abort(env.writeDescription.message, effects, logs, sent, history)
               else Narrate(edgeTtsPath.value, history, req, env, clock, folder, loop.story, effects,
                            logs + [DescriptionSaved], sent)
  {
    var folder := RunFolder(req.outputFolder, req.projectName, clock.startIso);
    var loop := RunLoop(respond, StoryPrompt(req));
    assert Handle(apiKey, edgeTtsPath, history, req, env, clock, respond)
           == AfterStory(edgeTtsPath.value, history, req, env, clock, respond, folder, loop.story,
                         [EnsureDir(folder)], OpeningLogs(req) + PartLogs(loop.parts),
                         Messages(StoryPrompt(req), loop.parts));
  }

  /** description.txt cannot be written: the run fails with that error, and
      the narration is never started. */
  lemma DescriptionWriteFailureFails(apiKey: Option<string>, edgeTtsPath: Option<string>,
                                     history: seq<HistoryEntry>, req: ProcessRequest, env: Environment,
                                     clock: Clock, respond: Responder)
    requires DescribedRun(apiKey, edgeTtsPath, req, env, respond) && env.writeDescription.IoError?
    ensures var loop := RunLoop(respond, StoryPrompt(req));
            var folder := RunFolder(req.outputFolder, req.projectName, clock.startIso);
            var sent := Messages(StoryPrompt(req), loop.parts) + [DescriptionPrompt(req.title)];
            var m := env.writeDescription.message;
            Handle(apiKey, edgeTtsPath, history, req, env, clock, respond)
            == Run(Failed(m),
                   [EnsureDir(folder)] + [WriteFile(JoinPath(folder, "story.txt"), loop.story)]
                   + [WriteFile(JoinPath(folder, "description.txt"), respond(sent).text)],
                   OpeningLogs(req) + PartLogs(loop.parts) + [StorySaved] + [DescriptionStart] + [Critical(m)],
                   sent, history)
  {
    DescribedRunGoesOn(apiKey, edgeTtsPath, history, req, env, clock, respond);
  }

  /** The narration text cannot be written: the run fails with that error,
      and edge-tts is never run. */
  lemma AudioTextWriteFailureFails(apiKey: Option<string>, edgeTtsPath: Option<string>,
                                   history: seq<HistoryEntry>, req: ProcessRequest, env: Environment,
                                   clock: Clock, respond: Responder)
    requires DescribedRun(apiKey, edgeTtsPath, req, env, respond)
    requires env.writeDescription.Done? && env.writeAudioText.IoError?
    ensures var loop := RunLoop(respond, StoryPrompt(req));
            var folder := RunFolder(req.outputFolder, req.projectName, clock.startIso);
            var sent := Messages(StoryPrompt(req), loop.parts) + [DescriptionPrompt(req.title)];
            var m := env.writeAudioText.message;
            Handle(apiKey, edgeTtsPath, history, req, env, clock, respond)
            == Run(Failed(m),
                   [EnsureDir(folder)] + [WriteFile(JoinPath(folder, "story.txt"), loop.story)]
                   + [WriteFile(JoinPath(folder, "description.txt"), respond(sent).text)]
                   + [WriteFile(JoinPath(folder, "temp_tts.txt"), AudioText(loop.story))],
                   OpeningLogs(req) + PartLogs(loop.parts) + [StorySaved] + [DescriptionStart]
                   + [DescriptionSaved] + [AudioStart(req.voice)] + [Critical(m)],
                   sent, history)
  {
    DescribedRunGoesOn(apiKey, edgeTtsPath, history, req, env, clock, respond);
  }

  /** edge-tts fails: the run fails with its error, and the narration text
      is neither deleted nor opened. */
  lemma TtsFailureFails(apiKey: Option<string>, edgeTtsPath: Option<string>, history: seq<HistoryEntry>,
                        req: ProcessRequest, env: Environment, clock: Clock, respond: Responder)
    requires DescribedRun(apiKey, edgeTtsPath, req, env, respond)
    requires env.writeDescription.Done? && env.writeAudioText.Done? && env.tts.IoError?
    ensures var loop := RunLoop(respond, StoryPrompt(req));
            var folder := RunFolder(req.outputFolder, req.projectName, clock.startIso);
            var sent := Messages(StoryPrompt(req), loop.parts) + [DescriptionPrompt(req.title)];
            var textPath := JoinPath(folder, "temp_tts.txt");
            var m := env.tts.message;
            Handle(apiKey, edgeTtsPath, history, req, env, clock, respond)
            == Run(Failed(m),
                   [EnsureDir(folder)] + [WriteFile(JoinPath(folder, "story.txt"), loop.story)]
                   + [WriteFile(JoinPath(folder, "description.txt"), respond(sent).text)]
                   + [WriteFile(textPath, AudioText(loop.story))]
                   + [Exec(TtsCommand(edgeTtsPath.value, textPath, JoinPath(folder, "audio.mp3"), req.voice))],
                   OpeningLogs(req) + PartLogs(loop.parts) + [StorySaved] + [DescriptionStart]
                   + [DescriptionSaved] + [AudioStart(req.voice)] + [Critical(m)],
                   sent, history)
  {
    DescribedRunGoesOn(apiKey, edgeTtsPath, history, req, env, clock, respond);
  }

  // ----- the handler as the program runs it -----

  /** main.js:92-212 step by step: the settings come from the store, the
      chat is opened fresh, log lines and calls on the world are collected
      in the order they happen, and the store's history is updated in place
      on success. */
  method StartProcess(store: Store, req: ProcessRequest, env: Environment, clock: Clock, respond: Responder)
    returns (result: ProcessResult, effects: seq<Effect>, logs: seq<LogLine>, sent: seq<string>)
    modifies store`history
    ensures Run(result, effects, logs, sent, store.history)
            == Handle(store.apiKey, store.edgeTtsPath, old(store.history), req, env, clock, respond)
  {
    effects, logs, sent := [], [], [];
    if !Truthy(store.apiKey) {
      result := Failed(MissingKeyError);
      logs := logs + [Critical(MissingKeyError)];
      return;
    }
    if !Truthy(store.edgeTtsPath) {
      result := Failed(MissingTtsError);
      logs := logs + [Critical(MissingTtsError)];
      return;
    }
    var exe := store.edgeTtsPath.value;
    var selectedModel := SelectedModel(req.modelName);
    logs := [ProjectStart(req.projectName)];
    logs := logs + [ModelChosen(selectedModel)];

    var timestamp := Timestamp(clock.startIso);
    var folder := JoinPath(req.outputFolder, FolderName(req.projectName, timestamp));
    effects := [EnsureDir(folder)];
    if env.ensureDir.IoError? {
      result := Failed(env.ensureDir.message);
      logs := logs + [Critical(env.ensureDir.message)];
      return;
    }

    var chat := new Chat(respond);
    logs := logs + [StoryStart];
    if req.template.NotText? {
      result := Failed(req.template.typeError);
      logs := logs + [Critical(req.template.typeError)];
      return;
    }
    var prompt := FirstPrompt(req.template.text, req.title, req.language);
    var loop, partLogs := GenerateStory(chat, prompt);
    logs := logs + partLogs;
    sent := chat.sent;
    if loop.Aborted? {
      result := Failed(loop.error);
      logs := logs + [Critical(loop.error)];
      return;
    }
    var story := loop.story;

    effects := effects + [WriteFile(JoinPath(folder, "story.txt"), story)];
    if env.writeStory.IoError? {
      result := Failed(env.writeStory.message);
      logs := logs + [Critical(env.writeStory.message)];
      return;
    }
    logs := logs + [StorySaved];

    logs := logs + [DescriptionStart];
    var reply := chat.SendMessage(DescriptionPrompt(req.title));
    sent := chat.sent;
    if reply.ProviderError? {
      result := Failed(reply.message);
      logs := logs + [Critical(reply.message)];
      return;
    }
    effects := effects + [WriteFile(JoinPath(folder, "description.txt"), reply.text)];
    if env.writeDescription.IoError? {
      result := Failed(env.writeDescription.message);
      logs := logs + [Critical(env.writeDescription.message)];
      return;
    }
    logs := logs + [DescriptionSaved];

    logs := logs + [AudioStart(req.voice)];
    var audioPath := JoinPath(folder, "audio.mp3");
    var textPath := JoinPath(folder, "temp_tts.txt");
    effects := effects + [WriteFile(textPath, AudioText(story))];
    if env.writeAudioText.IoError? {
      result := Failed(env.writeAudioText.message);
      logs := logs + [Critical(env.writeAudioText.message)];
      return;
    }
    effects := effects + [Exec(TtsCommand(exe, textPath, audioPath, req.voice))];
    if env.tts.IoError? {
      result := Failed(env.tts.message);
      logs := logs + [Critical(env.tts.message)];
      return;
    }
    effects := effects + [Unlink(textPath)];

    logs := logs + [Ready];
    effects := effects + [OpenPath(folder)];

    store.RecordRun(HistoryEntry(req.title, req.projectName, folder, clock.finishIso));
    result := Succeeded;
  }
}
