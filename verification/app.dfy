/** The voice app (`VibeVoiceApp` in app/app.py): its configuration with a
    fallback to built-in defaults, the lazy model loader, the speech request
    path with its gatekeeping, the status line, the usage guidelines text
    and the command-line overrides. The model hub, the tokenizer and the
    audio renderer are oracles passed in as parameters. */
module VoiceApp {
  import opened Options
  import opened Text
  import opened JsonValue

  // ---------------------------------------------------------------------
  // Configuration

  /** How opening and parsing the configuration file ended. */
  datatype ConfigRead =
    | FileMissing               // `FileNotFoundError`
    | ReadError(message: string) // any other error while reading or parsing
    | Loaded(doc: Json)

  const DefaultModelPath: string := "microsoft/VibeVoice-1.5B"
  const DefaultSteps: int := 10

  const Disclaimer: string :=
    "This tool enables AI-generated podcast creation using cloned voices. Users must comply with all applicable laws and ethical guidelines."

  const DefaultGuidelines: seq<string> := [
    "Do not use cloned voices to impersonate real people",
    "Clearly disclose when content is AI-generated",
    "Do not produce harmful or misleading content",
    "Respect copyright and data protection laws",
    "Obtain explicit permission before using anyone's voice"
  ]

  function JStrings(items: seq<string>): (r: seq<Json>)
    ensures |r| == |items| && forall i :: 0 <= i < |items| ==> r[i] == JStr(items[i])
  {
    seq(|items|, i requires 0 <= i < |items| => JStr(items[i]))
  }

  /** `get_default_config()`. */
  function DefaultAppConfig(): (c: Json)
    ensures c.JObj? && Property(c, "model_path") == Some(JStr(DefaultModelPath))
    ensures Property(c, "inference_steps") == Some(JNum(DefaultSteps as real))
  {
    JObj(map[
      "model_path" := JStr("microsoft/VibeVoice-1.5B"),
      "inference_steps" := JNum(10.0),
      "server_config" := JObj(map[
        "host" := JStr("0.0.0.0"),
        "port" := JNum(7860.0),
        "debug" := JBool(true),
        "share" := JBool(true)]),
      "usage_guidelines" := JObj(map[
        "disclaimer" := JStr(Disclaimer),
        "guidelines" := JArr(JStrings(DefaultGuidelines))])])
  }

  /** The usage texts the setup script writes, transcribed separately from
      the app's own defaults. */
  const SetupDisclaimer: string :=
    "This tool enables AI-generated podcast creation using cloned voices. Users must comply with all applicable laws and ethical guidelines."

  const SetupGuidelines: seq<string> := [
    "Do not use cloned voices to impersonate real people",
    "Clearly disclose when content is AI-generated",
    "Do not produce harmful or misleading content",
    "Respect copyright and data protection laws",
    "Obtain explicit permission before using anyone's voice"
  ]

  /** The document `create_config_file(model_path, inference_steps)` of the
      setup script writes. */
  function SetupConfig(modelPath: string, steps: int): (c: Json)
    ensures c.JObj? && Property(c, "model_path") == Some(JStr(modelPath))
    ensures Property(c, "inference_steps") == Some(JNum(steps as real))
  {
    JObj(map[
      "model_path" := JStr(modelPath),
      "inference_steps" := JNum(steps as real),
      "server_config" := JObj(map[
        "host" := JStr("0.0.0.0"),
        "port" := JNum(7860.0),
        "debug" := JBool(true),
        "share" := JBool(true)]),
      "usage_guidelines" := JObj(map[
        "disclaimer" := JStr(SetupDisclaimer),
        "guidelines" := JArr(JStrings(SetupGuidelines))])])
  }

  /** `load_config(config_path)`: the parsed document, whatever its shape;
      the defaults only when the file does not exist; any other error
      escapes. */
  function LoadConfig(read: ConfigRead): (r: Result<Json>)
    ensures r.Failure? <==> read.ReadError?
    ensures read.FileMissing? ==> r == Success(DefaultAppConfig())
    ensures read.Loaded? ==> r == Success(read.doc)
  {
    match read
    case FileMissing => Success(DefaultAppConfig())
    case ReadError(message) => Failure(message)
    case Loaded(doc) => Success(doc)
  }

  /** The defaults are what the setup script writes when run with its
      default arguments, so a fresh install behaves as a missing file. */
  lemma DefaultsMatchSetup()
    ensures LoadConfig(FileMissing) == LoadConfig(Loaded(SetupConfig("microsoft/VibeVoice-1.5B", 10)))
  {
    assert DefaultGuidelines == SetupGuidelines && Disclaimer == SetupDisclaimer;
  }

  /** `config['model_path']`: a `KeyError` or `TypeError` when the document
      is not an object holding that key. */
  function ModelPath(config: Json): (r: Option<Json>)
    ensures r.Some? <==> config.JObj? && "model_path" in config.fields
  {
    Property(config, "model_path")
  }

  // ---------------------------------------------------------------------
  // The environment

  /** Whether the VibeVoice package imported (`from_pretrained` of its own
      classes) or the app falls back to the model hub's auto classes. */
  datatype Provider = LocalPackage | ModelHub

  datatype Component = Weights | Tokenizer

  /** A loaded model or tokenizer. */
  datatype Handle = Handle(id: nat)

  newtype Byte = x: int | 0 <= x < 256

  /** The encoded audio of a synthesis. */
  datatype Audio = Audio(bytes: seq<Byte>)

  /** `from_pretrained(path)` of one component: `None` when it raises. */
  type Fetch = (Provider, Component, Json) -> Option<Handle>

  /** A call that either returns or raises with a message. */
  datatype Attempt = Succeeded | Raised(message: string)

  /** Rendering the demo audio: the buffer, or the message it raised with. */
  datatype Rendering = Rendered(audio: Audio) | RenderFailed(message: string)

  // ---------------------------------------------------------------------
  // Loading

  /** The backend part of the app's state. */
  datatype Backend = Backend(model: Option<Handle>, tokenizer: Option<Handle>, isLoaded: bool)

  predicate BackendValid(b: Backend) {
    b.isLoaded ==> b.model.Some? && b.tokenizer.Some?
  }

  /** `load_model()`: the new backend state and the value returned. The
      weights are assigned as soon as they load, so a tokenizer failure
      leaves them in place; `is_loaded` is set only after both loaded. */
  function Load(b: Backend, provider: Provider, config: Json, fetch: Fetch): (r: (Backend, bool))
    ensures b.isLoaded ==> r == (b, true)
    ensures r.1 == r.0.isLoaded
    ensures !b.isLoaded ==>
      (r.1 <==> ModelPath(config).Some?
                && fetch(provider, Weights, ModelPath(config).value).Some?
                && fetch(provider, Tokenizer, ModelPath(config).value).Some?)
    ensures !b.isLoaded && r.1 ==>
      r.0 == Backend(fetch(provider, Weights, ModelPath(config).value),
                     fetch(provider, Tokenizer, ModelPath(config).value), true)
    ensures !r.1 ==> r.0.tokenizer == b.tokenizer
    ensures !b.isLoaded && (ModelPath(config).None? || fetch(provider, Weights, ModelPath(config).value).None?) ==>
      r.0 == b
    ensures !b.isLoaded && ModelPath(config).Some?
            && fetch(provider, Weights, ModelPath(config).value).Some?
            && fetch(provider, Tokenizer, ModelPath(config).value).None? ==>
      r.0 == b.(model := fetch(provider, Weights, ModelPath(config).value))
    ensures BackendValid(b) ==> BackendValid(r.0)
  {
    if b.isLoaded then (b, true)
    else
      match ModelPath(config)
      case None => (b, false)
      case Some(path) =>
        match fetch(provider, Weights, path)
        case None => (b, false)
        case Some(model) =>
          match fetch(provider, Tokenizer, path)
          case None => (b.(model := Some(model)), false)
          case Some(tokenizer) => (Backend(Some(model), Some(tokenizer), true), true)
  }

  /** Once loaded, the app stays loaded and never fetches again; a failed
      load can be retried, and succeeds as soon as both fetches do. */
  lemma LoadMonotone(b: Backend, provider: Provider, config: Json, fetch: Fetch, fetch': Fetch)
    ensures var (b1, _) := Load(b, provider, config, fetch);
      var (b2, ok2) := Load(b1, provider, config, fetch');
      && (b1.isLoaded ==> b2 == b1 && ok2)
      && ((!b1.isLoaded && ModelPath(config).Some?
             && fetch'(provider, Weights, ModelPath(config).value).Some?
             && fetch'(provider, Tokenizer, ModelPath(config).value).Some?) ==> ok2 && b2.isLoaded)
  {
  }

  // ---------------------------------------------------------------------
  // Generation

  const NotLoadedMessage: string := "\U{274C} Model not loaded. Please try again."
  const BlankMessage: string := "\U{26A0}\U{FE0F} Please enter some text to generate speech"
  const NoVoiceMessage: string := "\U{2139}\U{FE0F} No reference voice provided - using default voice"

  /** The part of `generate_speech` after the model is loaded: tokenize,
      render, and report; an exception in either step becomes the error
      message. */
  function Synthesize(text: string, tokenized: Attempt, rendering: Rendering): (r: (Option<Audio>, string))
    ensures r.0.Some? <==> tokenized.Succeeded? && rendering.Rendered?
    ensures r.0.Some? ==> r == (Some(rendering.audio), "\U{1F3B5} Generated speech for: " + text)
    ensures tokenized.Raised? ==> r == (None, "\U{274C} Generation error: " + tokenized.message)
    ensures tokenized.Succeeded? && rendering.RenderFailed? ==> r == (None, "\U{274C} Generation error: " + rendering.message)
  {
    match tokenized
    case Raised(m) => (None, "\U{274C} Generation error: " + m)
    case Succeeded =>
      match rendering
      case Rendered(audio) => (Some(audio), "\U{1F3B5} Generated speech for: " + text)
      case RenderFailed(m) => (None, "\U{274C} Generation error: " + m)
  }

  /** `generate_speech(text, voice_file, inference_steps)`: loads on demand,
      answers the fixed message when that fails, synthesizes otherwise. The
      voice file and the step count are not used, as in the source. */
  function Generate(b: Backend, provider: Provider, config: Json, text: string, fetch: Fetch,
                    tokenize: (Handle, string) -> Attempt, rendering: Rendering): (r: (Backend, Option<Audio>, string))
    requires BackendValid(b)
    ensures BackendValid(r.0)
    ensures b.isLoaded ==> r.0 == b
    ensures !b.isLoaded ==> r.0 == Load(b, provider, config, fetch).0
    ensures !r.0.isLoaded ==> r.1.None? && r.2 == NotLoadedMessage
    ensures r.0.isLoaded ==> (r.1, r.2) == Synthesize(text, tokenize(r.0.tokenizer.value, text), rendering)
  {
    var (b1, ok) := if b.isLoaded then (b, true) else Load(b, provider, config, fetch);
    if !ok then (b1, None, NotLoadedMessage)
    else
      var (audio, message) := Synthesize(text, tokenize(b1.tokenizer.value, text), rendering);
      (b1, audio, message)
  }

  /** `on_generate(text, voice_file, steps)`: blank text is answered at
      once, before any load; otherwise the speech is generated and, when
      there is audio, saved under a name made from the current time. */
  function Respond(b: Backend, provider: Provider, config: Json, text: string, stamp: string, fetch: Fetch,
                   tokenize: (Handle, string) -> Attempt, rendering: Rendering): (r: (Backend, Option<string>, string))
    requires BackendValid(b)
    ensures PyBlank(text) ==> r == (b, None, BlankMessage)
    ensures !PyBlank(text) ==>
      var g := Generate(b, provider, config, text, fetch, tokenize, rendering);
      && r.0 == g.0 && r.2 == g.2
      && (r.1.Some? <==> g.1.Some?)
      && (r.1.Some? ==> r.1.value == "temp_output_" + stamp + ".wav")
  {
    if PyBlank(text) then (b, None, BlankMessage)
    else
      var (b1, audio, message) := Generate(b, provider, config, text, fetch, tokenize, rendering);
      if audio.Some? then (b1, Some("temp_output_" + stamp + ".wav"), message) else (b1, None, message)
  }

  /** The inner `update_status(text, voice_file, steps)`. */
  function UpdateStatus(text: string, voiceFile: Option<string>, steps: int): (status: string)
    ensures PyBlank(text) ==> status == BlankMessage
    ensures !PyBlank(text) && voiceFile.None? ==> status == NoVoiceMessage
    ensures !PyBlank(text) && voiceFile.Some? ==> status == ReadyMessage(steps)
  {
    if PyBlank(text) then BlankMessage
    else if voiceFile.None? then NoVoiceMessage
    else ReadyMessage(steps)
  }

  function ReadyMessage(steps: int): string {
    "\U{2705} Ready to generate speech with " + IntText(steps) + " inference steps"
  }

  /** The status line and the reply to a request agree on blank text, and
      the ready message names the step count, which can be read back. */
  lemma StatusAgreesWithResponse(b: Backend, provider: Provider, config: Json, text: string, stamp: string, fetch: Fetch,
                                 tokenize: (Handle, string) -> Attempt, rendering: Rendering,
                                 voiceFile: Option<string>, steps: int, steps': int)
    requires BackendValid(b)
    ensures PyBlank(text) ==> UpdateStatus(text, voiceFile, steps) == Respond(b, provider, config, text, stamp, fetch, tokenize, rendering).2
    ensures !PyBlank(text) && voiceFile.Some? && steps != steps' ==>
      UpdateStatus(text, voiceFile, steps) != UpdateStatus(text, voiceFile, steps')
  {
    if steps != steps' {
      ReadyMessagesDiffer(steps, steps');
    }
  }

  /** Ready messages for different step counts differ. */
  lemma ReadyMessagesDiffer(steps: int, steps': int)
    requires steps != steps'
    ensures ReadyMessage(steps) != ReadyMessage(steps')
  {
    var prefix := "\U{2705} Ready to generate speech with ";
    var suffix := " inference steps";
    var a := ReadyMessage(steps);
    var c := ReadyMessage(steps');
    if a == c {
      assert a == prefix + (IntText(steps) + suffix);
      assert c == prefix + (IntText(steps') + suffix);
      assert a[|prefix|..] == IntText(steps) + suffix;
      assert c[|prefix|..] == IntText(steps') + suffix;
      assert |IntText(steps)| == |IntText(steps')|;
      assert (IntText(steps) + suffix)[..|IntText(steps)|] == IntText(steps);
      assert (IntText(steps') + suffix)[..|IntText(steps')|] == IntText(steps');
      IntTextInjective(steps, steps');
    }
  }

  // ---------------------------------------------------------------------
  // Usage guidelines

  datatype Policy = Policy(disclaimer: string, guidelines: seq<string>)

  /** The guidelines as `enumerate` walks them: the items of a list of
      strings, or the characters of a string. */
  function Enumerated(v: Json): (r: Option<seq<string>>)
    ensures v.JArr? ==> (r.Some? <==> forall i :: 0 <= i < |v.items| ==> v.items[i].JStr?)
    ensures v.JArr? && r.Some? ==> JStrings(r.value) == v.items
    ensures v.JStr? ==> r.Some? && |r.value| == |v.s| && forall i :: 0 <= i < |v.s| ==> r.value[i] == [v.s[i]]
    ensures !v.JArr? && !v.JStr? ==> r.None?
  {
    match v
    case JArr(items) =>
      if forall i :: 0 <= i < |items| ==> items[i].JStr? then
        var gs := seq(|items|, i requires 0 <= i < |items| => items[i].s);
        assert JStrings(gs) == items;
        Some(gs)
      else None
    case JStr(s) => Some(seq(|s|, i requires 0 <= i < |s| => [s[i]]))
    case _ => None
  }

  /** `config['usage_guidelines']['disclaimer']` and `[...]['guidelines']`:
      a missing key or a non-object raises, and so does a guidelines value
      that cannot be enumerated. */
  function UsagePolicy(config: Json): (r: Result<Policy>)
    ensures Property(config, "usage_guidelines").None? ==> r.Failure?
    ensures r.Success? ==>
      var section := Property(config, "usage_guidelines").value;
      && Property(section, "disclaimer") == Some(JStr(r.value.disclaimer))
      && Property(section, "guidelines").Some?
      && (Property(section, "guidelines").value.JArr? ==>
            JStrings(r.value.guidelines) == Property(section, "guidelines").value.items)
      && (Property(section, "guidelines").value.JStr? ==>
            var text := Property(section, "guidelines").value.s;
            |r.value.guidelines| == |text| && forall i :: 0 <= i < |text| ==> r.value.guidelines[i] == [text[i]])
    ensures Property(config, "usage_guidelines").Some? ==>
      var section := Property(config, "usage_guidelines").value;
      (Property(section, "disclaimer").Some? && Property(section, "disclaimer").value.JStr?
       && Property(section, "guidelines").Some?
       && Enumerated(Property(section, "guidelines").value).Some?) ==> r.Success?
  {
    match Property(config, "usage_guidelines")
    case None => Failure("KeyError: 'usage_guidelines'")
    case Some(section) =>
      match (Property(section, "disclaimer"), Property(section, "guidelines"))
      case (None, _) => Failure("KeyError: 'disclaimer'")
      case (_, None) => Failure("KeyError: 'guidelines'")
      case (Some(JStr(d)), Some(g)) =>
        (match Enumerated(g)
         case Some(gs) => Success(Policy(d, gs))
         case None => Failure("guidelines that are not a list of strings or a string"))
      case _ => Failure("a disclaimer that is not a string")
  }

  function GuidelinesHeader(disclaimer: string): string {
    "\n        ## \U{26A0}\U{FE0F} Important Usage Guidelines\n        \n        " + disclaimer
      + "\n        \n        ### \U{1F4CB} Guidelines:\n        "
  }

  const GuidelinesFooter: string :=
    "\n        \n        ### \U{1F6A8} Legal Notice:\n"
    + "        - Users are responsible for all content generated\n"
    + "        - Misuse of this tool may result in legal consequences\n"
    + "        - Always obtain proper permissions and licenses\n"
    + "        - Follow platform terms of service and community guidelines\n"
    + "        \n"
    + "        By using this tool, you agree to comply with all applicable laws and ethical standards.\n"
    + "        "

  /** One numbered line of the list, `f"\n{i}. {guideline}"`. */
  function NumberedLine(i: nat, guideline: string): string {
    "\n" + Decimal(i) + ". " + guideline
  }

  /** The guidelines, numbered from 1 in list order. */
  function NumberedList(guidelines: seq<string>): string {
    if guidelines == [] then ""
    else NumberedList(guidelines[..|guidelines| - 1]) + NumberedLine(|guidelines|, guidelines[|guidelines| - 1])
  }

  /** `create_usage_guidelines()` as a value. */
  function GuidelinesText(policy: Policy): (text: string)
    ensures |GuidelinesHeader(policy.disclaimer)| + |GuidelinesFooter| <= |text|
    ensures text[..|GuidelinesHeader(policy.disclaimer)|] == GuidelinesHeader(policy.disclaimer)
    ensures text[|text| - |GuidelinesFooter|..] == GuidelinesFooter
  {
    GuidelinesHeader(policy.disclaimer) + NumberedList(policy.guidelines) + GuidelinesFooter
  }

  /** The numbered list reads back line by line: after the leading
      newline, line `i` is the number `i + 1`, a dot, a space and
      guideline `i`, in list order. */
  lemma {:induction false} NumberedListLines(guidelines: seq<string>)
    requires forall k :: 0 <= k < |guidelines| ==> '\n' !in guidelines[k]
    ensures var parts := Split(NumberedList(guidelines), '\n');
      && |parts| == |guidelines| + 1
      && parts[0] == ""
      && forall i :: 0 <= i < |guidelines| ==> parts[i + 1] == Decimal(i + 1) + ". " + guidelines[i]
  {
    var n := |guidelines|;
    if n > 0 {
      var init := guidelines[..n - 1];
      NumberedListLines(init);
      var line := Decimal(n) + ". " + guidelines[n - 1];
      LineWithoutNewline(n, guidelines[n - 1]);
      assert NumberedList(guidelines) == NumberedList(init) + "\n" + line;
      SplitAppendPiece(NumberedList(init), '\n', line);
      var prev := Split(NumberedList(init), '\n');
      var parts := Split(NumberedList(guidelines), '\n');
      assert parts == prev + [line];
      forall i | 0 <= i < n ensures parts[i + 1] == Decimal(i + 1) + ". " + guidelines[i] {
        if i < n - 1 {
          assert parts[i + 1] == prev[i + 1];
          assert init[i] == guidelines[i];
        }
      }
    } else {
      assert Split("", '\n') == [""];
    }
  }

  lemma LineWithoutNewline(n: nat, guideline: string)
    requires '\n' !in guideline
    ensures forall i :: 0 <= i < |Decimal(n) + ". " + guideline| ==> (Decimal(n) + ". " + guideline)[i] != '\n'
  {
    var line := Decimal(n) + ". " + guideline;
    forall i | 0 <= i < |line| ensures line[i] != '\n' {
      if i >= |Decimal(n)| + 2 {
        assert line[i] == guideline[i - |Decimal(n)| - 2];
      }
    }
  }

  // ---------------------------------------------------------------------
  // Command-line overrides

  /** The override block of `main`: `--model-path` and `--inference-steps`
      replace the configured values only when given and truthy, so an
      empty path or a step count of 0 is ignored; assigning into a document
      that is not an object raises. */
  function ApplyOverrides(config: Json, modelPath: Option<string>, steps: Option<int>): (r: Result<Json>)
    ensures r.Success? ==> r.value.JObj? || r.value == config
    ensures (modelPath.None? || modelPath == Some("")) && (steps.None? || steps == Some(0)) ==> r == Success(config)
    ensures config.JObj? ==> r.Success?
    ensures config.JObj? ==>
      && r.value.fields.Keys == config.fields.Keys
           + (if modelPath.Some? && modelPath.value != "" then {"model_path"} else {})
           + (if steps.Some? && steps.value != 0 then {"inference_steps"} else {})
      && (modelPath.Some? && modelPath.value != "" ==> r.value.fields["model_path"] == JStr(modelPath.value))
      && (steps.Some? && steps.value != 0 ==> r.value.fields["inference_steps"] == JNum(steps.value as real))
      && (forall k :: k in config.fields && k != "model_path" && k != "inference_steps" ==>
            r.value.fields[k] == config.fields[k])
    ensures !config.JObj? && ((modelPath.Some? && modelPath.value != "") || (steps.Some? && steps.value != 0)) ==>
      r.Failure?
  {
    var withPath :=
      if modelPath.Some? && modelPath.value != "" then
        (if config.JObj? then Success(JObj(config.fields["model_path" := JStr(modelPath.value)]))
         else Failure("TypeError: object does not support item assignment"))
      else Success(config);
    match withPath
    case Failure(e) => Failure(e)
    case Success(c) =>
      if steps.Some? && steps.value != 0 then
        (if c.JObj? then Success(JObj(c.fields["inference_steps" := JNum(steps.value as real)]))
         else Failure("TypeError: object does not support item assignment"))
      else Success(c)
  }

  /** Overriding the defaults yields the setup script's document for the
      given path and step count. */
  lemma OverridesMatchSetup(path: string, steps: int)
    requires path != "" && steps != 0
    ensures ApplyOverrides(DefaultAppConfig(), Some(path), Some(steps)) == Success(SetupConfig(path, steps))
  {
    DefaultsMatchSetup();
    var d := DefaultAppConfig().fields;
    var e := SetupConfig(path, steps).fields;
    assert d["usage_guidelines"] == e["usage_guidelines"] && d["server_config"] == e["server_config"];
    assert d["model_path" := JStr(path)]["inference_steps" := JNum(steps as real)] == e;
  }

  /** The body of `create_usage_guidelines()` once the policy is read:
      the header, one numbered line appended per guideline, the footer. */
  method WriteGuidelines(policy: Policy) returns (text: string)
    ensures text == GuidelinesText(policy)
  {
    var guidelines := policy.guidelines;
    text := GuidelinesHeader(policy.disclaimer);
    for i := 0 to |guidelines|
      invariant text == GuidelinesHeader(policy.disclaimer) + NumberedList(guidelines[..i])
    {
      assert guidelines[..i + 1][..i] == guidelines[..i];
      text := text + NumberedLine(i + 1, guidelines[i]);
    }
    assert guidelines[..|guidelines|] == guidelines;
    text := text + GuidelinesFooter;
  }

  // ---------------------------------------------------------------------
  // The component

  class VibeVoiceApp {
    const provider: Provider
    var config: Json
    var model: Option<Handle>
    var tokenizer: Option<Handle>
    var isLoaded: bool

    ghost predicate Valid()
      reads this
    {
      BackendValid(Backend(model, tokenizer, isLoaded))
    }

    function State(): Backend
      reads this
    {
      Backend(model, tokenizer, isLoaded)
    }

    /** `__init__` after `load_config` returned `config`. */
    constructor (config: Json, provider: Provider)
      ensures Valid()
      ensures this.config == config && this.provider == provider
      ensures model.None? && tokenizer.None? && !isLoaded
    {
      this.config := config;
      this.provider := provider;
      model := None;
      tokenizer := None;
      isLoaded := false;
    }

    /** `load_model()`. */
    method LoadModel(fetch: Fetch) returns (ok: bool)
      requires Valid()
      modifies this
      ensures Valid() && config == old(config)
      ensures (State(), ok) == Load(old(State()), provider, config, fetch)
      ensures old(isLoaded) ==> isLoaded && model == old(model) && tokenizer == old(tokenizer)
    {
      if isLoaded {
        return true;
      }
      var path := ModelPath(config);
      if path.None? {
        return false;
      }
      var m := fetch(provider, Weights, path.value);
      if m.None? {
        return false;
      }
      model := m;
      var t := fetch(provider, Tokenizer, path.value);
      if t.None? {
        return false;
      }
      tokenizer := t;
      isLoaded := true;
      return true;
    }

    /** `generate_speech(text, voice_file, inference_steps)`. */
    method GenerateSpeech(text: string, voiceFile: Option<string>, steps: Option<int>, fetch: Fetch,
                          tokenize: (Handle, string) -> Attempt, rendering: Rendering)
      returns (audio: Option<Audio>, message: string)
      requires Valid()
      modifies this
      ensures Valid() && config == old(config)
      ensures (State(), audio, message) == Generate(old(State()), provider, config, text, fetch, tokenize, rendering)
      ensures old(isLoaded) ==> isLoaded && model == old(model) && tokenizer == old(tokenizer)
    {
      if !isLoaded {
        var ok := LoadModel(fetch);
        if !ok {
          return None, NotLoadedMessage;
        }
      }
      match tokenize(tokenizer.value, text) {
        case Raised(m) =>
          return None, "\U{274C} Generation error: " + m;
        case Succeeded =>
      }
      match rendering {
        case Rendered(a) =>
          return Some(a), "\U{1F3B5} Generated speech for: " + text;
        case RenderFailed(m) =>
          return None, "\U{274C} Generation error: " + m;
      }
    }

    /** `on_generate(text, voice_file, steps)`, with the current time as
        `stamp`; the audio file write is not modelled. */
    method OnGenerate(text: string, voiceFile: Option<string>, steps: Option<int>, stamp: string, fetch: Fetch,
                      tokenize: (Handle, string) -> Attempt, rendering: Rendering)
      returns (path: Option<string>, message: string)
      requires Valid()
      modifies this
      ensures Valid() && config == old(config)
      ensures PyBlank(text) ==> unchanged(this)
      ensures (State(), path, message) == Respond(old(State()), provider, config, text, stamp, fetch, tokenize, rendering)
      ensures old(isLoaded) ==> isLoaded && model == old(model) && tokenizer == old(tokenizer)
    {
      if PyBlank(text) {
        return None, BlankMessage;
      }
      var audio;
      audio, message := GenerateSpeech(text, voiceFile, steps, fetch, tokenize, rendering);
      if audio.Some? {
        path := Some("temp_output_" + stamp + ".wav");
      } else {
        path := None;
      }
    }

    /** `create_usage_guidelines()`: the text built line by line, or the
        error reading the policy raises. */
    method CreateUsageGuidelines() returns (text: Result<string>)
      ensures UsagePolicy(config).Failure? ==> text == Failure(UsagePolicy(config).error)
      ensures UsagePolicy(config).Success? ==> text == Success(GuidelinesText(UsagePolicy(config).value))
    {
      var policy := UsagePolicy(config);
      if policy.Failure? {
        return Failure(policy.error);
      }
      var s := WriteGuidelines(policy.value);
      return Success(s);
    }

    /** The override block of `main`, applied to the app's configuration;
        `false` when it raises, leaving the configuration as it was. */
    method OverrideConfig(modelPath: Option<string>, steps: Option<int>) returns (ok: bool)
      requires Valid()
      modifies this`config
      ensures Valid()
      ensures ok <==> ApplyOverrides(old(config), modelPath, steps).Success?
      ensures config == if ok then ApplyOverrides(old(config), modelPath, steps).value else old(config)
    {
      var r := ApplyOverrides(config, modelPath, steps);
      ok := r.Success?;
      if ok {
        config := r.value;
      }
    }
  }

  /** `VibeVoiceApp(config_path)`: the app, or the error that escapes
      `load_config`. */
  method NewApp(read: ConfigRead, provider: Provider) returns (app: Result<VibeVoiceApp>)
    ensures app.Failure? <==> read.ReadError?
    ensures app.Success? ==>
      && fresh(app.value) && app.value.Valid()
      && app.value.config == LoadConfig(read).value && !app.value.isLoaded
      && app.value.provider == provider
  {
    var config := LoadConfig(read);
    if config.Failure? {
      return Failure(config.error);
    }
    var a := new VibeVoiceApp(config.value, provider);
    return Success(a);
  }
}
