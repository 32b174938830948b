/**
 * The OpenAI adapter: one client object that transcribes audio, translates
 * text and synthesizes speech. The cloud calls are answers handed in as
 * parameters; what the adapter itself decides (the key check, the request it
 * builds, how it shapes the answer and how it reports failures) is modelled.
 */
module OpenAi {
  import opened Shared
  import opened Strings
  import opened FileSystem
  import opened AiServices

  /** The settings the SDK client is built with. */
  datatype ClientConfig = ClientConfig(apiKey: string, timeoutMs: nat, maxRetries: nat)

  const RequestTimeoutMs: nat := 60000
  const RequestRetries: nat := 2
  const InitialChatModel := "gpt-4o-mini"

  /** `new OpenAI({ apiKey, timeout: 60000, maxRetries: 2 })`. */
  function ConfigFor(apiKey: string): (c: ClientConfig)
    ensures c.apiKey == apiKey && c.timeoutMs == 60000 && c.maxRetries == 2
  {
    ClientConfig(apiKey, RequestTimeoutMs, RequestRetries)
  }

  /** `OpenAIApiError`: every failure of the three services is reported as one of these. */
  datatype ApiError = OpenAIApiError(message: string)

  const TranscribeFailure := "Failed to transcribe audio: "
  const TranslateFailure := "Failed to translate text: "
  const SynthesizeFailure := "Failed to synthesize speech: "

  /** The error a failure with message `cause` becomes, under one of the three prefixes. */
  function Wrap(prefix: string, cause: string): (e: ApiError)
    ensures StartsWith(e.message, prefix) && EndsWith(e.message, cause)
    ensures |e.message| == |prefix| + |cause|
  {
    OpenAIApiError(prefix + cause)
  }

  // ---------------------------------------------------------------------------
  // Transcription
  // ---------------------------------------------------------------------------

  /** A segment as the transcription endpoint returns it, with fields the adapter drops. */
  datatype RawSegment = RawSegment(id: int, seek: int, start: real, end: real, text: string, noSpeechProb: real)

  /** The transcription endpoint's answer: bare text, or the verbose JSON object. */
  datatype TranscriptionResponse =
    | PlainText(text: string)
    | Verbose(text: string, segments: Option<seq<RawSegment>>, language: Option<string>)

  /** The request `transcribe` sends. */
  datatype TranscriptionRequest =
    TranscriptionRequest(config: ClientConfig, file: string, model: string, language: Option<string>, responseFormat: string)

  function SegmentOf(s: RawSegment): Segment
  {
    Segment(s.id, s.start, s.end, s.text)
  }

  /**
   * The result `transcribe` builds from the endpoint's answer: bare text
   * gives the text alone; the verbose object keeps its text and language and
   * its segments, one for one and in order, reduced to id, start, end, text.
   */
  function TranscriptionOf(response: TranscriptionResponse): (t: TranscriptionResult)
    ensures t.text == response.text
    ensures response.PlainText? ==> t.segments.None? && t.language.None?
    ensures response.Verbose? ==> t.language == response.language
    ensures response.Verbose? ==> (t.segments.Some? <==> response.segments.Some?)
    ensures response.Verbose? && response.segments.Some? ==>
      var raw := response.segments.value;
      |t.segments.value| == |raw|
      && forall i :: 0 <= i < |raw| ==>
           && t.segments.value[i].id == raw[i].id
           && t.segments.value[i].start == raw[i].start
           && t.segments.value[i].end == raw[i].end
           && t.segments.value[i].text == raw[i].text
  {
    match response
    case PlainText(text) => TranscriptionResult(text, None, None)
    case Verbose(text, segments, language) =>
      var kept := match segments
        case None => None
        case Some(raw) => Some(seq(|raw|, i requires 0 <= i < |raw| => SegmentOf(raw[i])));
      TranscriptionResult(text, kept, language)
  }

  // ---------------------------------------------------------------------------
  // Translation
  // ---------------------------------------------------------------------------

  const PromptHead := "Translate the following text to "
  const PromptTail := ". Return only the translated text:\n\n"

  /** The source-language clause of the prompt: present only for a non-empty source language. */
  function SourceClause(sourceLang: Option<string>): (c: string)
    ensures Truthy(sourceLang) ==> c == " from " + sourceLang.value
    ensures !Truthy(sourceLang) ==> c == ""
  {
    if Truthy(sourceLang) then " from " + sourceLang.value else ""
  }

  /** The user message `translate` sends. */
  function TranslatePrompt(text: string, targetLang: string, sourceLang: Option<string>): string
  {
    PromptHead + targetLang + SourceClause(sourceLang) + PromptTail + text
  }

  /**
   * The prompt names the target language first, names the source language
   * only when one is given, and ends with the instruction and the text
   * itself, unchanged; so the text can be read back off its end.
   */
  lemma TranslatePromptLayout(text: string, targetLang: string, sourceLang: Option<string>)
    ensures var p := TranslatePrompt(text, targetLang, sourceLang);
      && StartsWith(p, PromptHead + targetLang)
      && EndsWith(p, PromptTail + text)
      && p[|p| - |text|..] == text
      && (Truthy(sourceLang) ==> Contains(p, " from " + sourceLang.value))
      && (!Truthy(sourceLang) ==> p == PromptHead + targetLang + PromptTail + text)
  {
    var p := TranslatePrompt(text, targetLang, sourceLang);
    var head := PromptHead + targetLang;
    var clause := SourceClause(sourceLang);
    assert p == head + (clause + PromptTail + text);
    assert p[..|head|] == head;
    assert p == (head + clause) + (PromptTail + text);
    assert p[|p| - |PromptTail + text|..] == PromptTail + text;
    if Truthy(sourceLang) {
      var q := p[|head|..];
      assert q == clause + PromptTail + text;
      assert q[..|clause|] == clause;
      ContainsPrefix(q, clause);
      ContainsAfter(head, q, clause);
      assert head + q == p;
    } else {
      assert clause == "";
    }
  }

  /**
   * `Math.min(4096, text.length * 2)`: the response budget never exceeds the
   * API's cap nor twice the text's length, and is one of the two.
   */
  function MaxTokens(text: string): (n: nat)
    ensures n <= 4096 && n <= 2 * |text|
    ensures n == 4096 || n == 2 * |text|
  {
    if 4096 < 2 * |text| then 4096 else 2 * |text|
  }

  /**
   * `response.choices[0]?.message.content?.trim() || ''`: no content gives
   * the empty text; otherwise the content with the whitespace at both ends
   * cut off, and nothing else of it removed.
   */
  function TranslatedText(content: Option<string>): (r: string)
    ensures content.None? ==> r == ""
    ensures content.Some? ==> exists a :: IsTrimmedSlice(content.value, r, a)
    ensures r == [] || (!IsWhitespace(r[0]) && !IsWhitespace(r[|r| - 1]))
  {
    match content
    case None => ""
    case Some(c) => Trim(c)
  }

  /** Shaping an already shaped translation changes nothing. */
  lemma TranslatedTextStable(content: Option<string>)
    ensures TranslatedText(Some(TranslatedText(content))) == TranslatedText(content)
  {
    if content.Some? {
      TrimIdempotent(content.value);
    }
  }

  datatype ChatMessage = ChatMessage(role: string, content: string)

  /** The chat completion request `translate` sends. */
  datatype ChatRequest = ChatRequest(config: ClientConfig, model: string, messages: seq<ChatMessage>,
                                     temperature: real, maxTokens: nat)

  const TranslatorRole := "You are a professional translator."

  // ---------------------------------------------------------------------------
  // Speech synthesis
  // ---------------------------------------------------------------------------

  /** The speech request `synthesize` sends. */
  datatype SpeechRequest = SpeechRequest(config: ClientConfig, model: string, voice: string, input: string,
                                         speed: real, responseFormat: string)

  /** JavaScript truthiness of an optional number: present and not zero. */
  predicate TruthySpeed(speed: Option<real>)
  {
    speed.Some? && speed.value != 0.0
  }

  /**
   * The speech request for a text: the model defaults to `tts-1` and the
   * speed to 1.0 when the options leave them unset or falsy, so neither is
   * ever empty or zero; the voice and text are passed as they are, and the
   * audio is always asked for as mp3.
   */
  function SpeechRequestFor(config: ClientConfig, text: string, options: SynthesisOptions): (q: SpeechRequest)
    ensures q.config == config && q.voice == options.voice && q.input == text && q.responseFormat == "mp3"
    ensures q.model != "" && q.speed != 0.0
    ensures q.model == (if Truthy(options.model) then options.model.value else "tts-1")
    ensures q.speed == (if TruthySpeed(options.speed) then options.speed.value else 1.0)
  {
    SpeechRequest(config, StringOr(options.model, "tts-1"), options.voice, text,
                  if TruthySpeed(options.speed) then options.speed.value else 1.0, "mp3")
  }

  /** The options only fill in what is missing: given options that are set, the request uses them. */
  lemma SpeechRequestKeepsOptions(config: ClientConfig, text: string, voice: string, model: string, speed: real)
    requires model != "" && speed != 0.0
    ensures var q := SpeechRequestFor(config, text, SynthesisOptions(voice, Some(model), Some(speed)));
      q.model == model && q.speed == speed
  {
  }

  // ---------------------------------------------------------------------------
  // The client
  // ---------------------------------------------------------------------------

  class OpenAIClient {
    /** The SDK client's settings. */
    var client: ClientConfig
    /** The chat model translations use. */
    var defaultModel: string

    constructor (config: ClientConfig)
      ensures client == config && defaultModel == InitialChatModel
    {
      client := config;
      defaultModel := InitialChatModel;
    }

    /**
     * `new OpenAIClient(apiKey)`: a missing or empty key is refused; any
     * other key gives a client with a 60-second timeout, two retries and
     * `gpt-4o-mini` for translations.
     */
    static method Create(apiKey: Option<string>) returns (r: Result<OpenAIClient, string>)
      ensures r.Success? <==> Truthy(apiKey)
      ensures r.Failure? ==> r.error == "OpenAI API key is required"
      ensures r.Success? ==>
        fresh(r.value) && r.value.client == ConfigFor(apiKey.value) && r.value.defaultModel == "gpt-4o-mini"
    {
      if !Truthy(apiKey) {
        return Failure("OpenAI API key is required");
      }
      var c := new OpenAIClient(ConfigFor(apiKey.value));
      return Success(c);
    }

    /**
     * `transcribe`: a missing audio file fails before anything is sent;
     * otherwise `whisper-1` is asked for verbose JSON in the given language,
     * and its answer is shaped by `TranscriptionOf`. Every failure is wrapped.
     */
    method Transcribe(disk: Disk, audioPath: string, language: Option<string>,
                      response: Result<TranscriptionResponse, string>)
      returns (request: Option<TranscriptionRequest>, r: Result<TranscriptionResult, ApiError>)
      ensures audioPath !in disk.paths ==>
        request.None? && r == Failure(Wrap(TranscribeFailure, "Audio file not found: " + audioPath))
      ensures audioPath in disk.paths ==>
        request == Some(TranscriptionRequest(client, audioPath, "whisper-1", language, "verbose_json"))
      ensures audioPath in disk.paths && response.Success? ==> r == Success(TranscriptionOf(response.value))
      ensures audioPath in disk.paths && response.Failure? ==> r == Failure(Wrap(TranscribeFailure, response.error))
      ensures r.Failure? ==> StartsWith(r.error.message, TranscribeFailure)
    {
      if !disk.Exists(audioPath) {
        return None, Failure(Wrap(TranscribeFailure, "Audio file not found: " + audioPath));
      }
      request := Some(TranscriptionRequest(client, audioPath, "whisper-1", language, "verbose_json"));
      match response {
        case Success(answer) => r := Success(TranscriptionOf(answer));
        case Failure(cause) => r := Failure(Wrap(TranscribeFailure, cause));
      }
    }

    /**
     * `translate`: one chat request with the translator role, the prompt,
     * temperature 0.3 and the token budget, to the current default model;
     * the first choice's content (none when the answer has no choice or no
     * content) is shaped by `TranslatedText`, and the languages asked for
     * are echoed.
     */
    method Translate(text: string, targetLang: string, sourceLang: Option<string>,
                     reply: Result<Option<string>, string>)
      returns (request: ChatRequest, r: Result<TranslationResult, ApiError>)
      ensures request.config == client && request.model == defaultModel
      ensures request.messages == [ChatMessage("system", TranslatorRole),
                                   ChatMessage("user", TranslatePrompt(text, targetLang, sourceLang))]
      ensures request.temperature == 0.3 && request.maxTokens == MaxTokens(text)
      ensures r.Success? <==> reply.Success?
      ensures r.Success? ==>
        r.value == TranslationResult(TranslatedText(reply.value), sourceLang, targetLang)
      ensures r.Failure? ==> r.error == Wrap(TranslateFailure, reply.error)
    {
      var prompt := TranslatePrompt(text, targetLang, sourceLang);
      request := ChatRequest(client, defaultModel,
                             [ChatMessage("system", TranslatorRole), ChatMessage("user", prompt)],
                             0.3, MaxTokens(text));
      match reply {
        case Success(content) =>
          r := Success(TranslationResult(TranslatedText(content), sourceLang, targetLang));
        case Failure(cause) =>
          r := Failure(Wrap(TranslateFailure, cause));
      }
    }

    /**
     * `synthesize`: the output directory is created when absent, the speech
     * request goes out, and the audio is written to `outputPath`, which is
     * the result. A refused directory or a failed request is wrapped.
     */
    method Synthesize(disk: Disk, text: string, options: SynthesisOptions, outputPath: string,
                      speech: Result<(), string>)
      returns (request: Option<SpeechRequest>, r: Result<string, ApiError>)
      modifies disk
      ensures disk.unwritable == old(disk.unwritable)
      ensures var dir := Dirname(outputPath);
        dir !in old(disk.paths) && dir in disk.unwritable ==>
          request.None? && r == Failure(Wrap(SynthesizeFailure, MkdirErrorMessage(dir)))
          && disk.paths == old(disk.paths)
      ensures request.Some? ==> request.value == SpeechRequestFor(client, text, options)
      ensures var dir := Dirname(outputPath);
        (dir in old(disk.paths) || dir !in disk.unwritable) ==>
          request.Some?
          && (speech.Success? ==> r == Success(outputPath)
                                  && disk.paths == WithParent(old(disk.paths), outputPath) + {outputPath})
          && (speech.Failure? ==> r == Failure(Wrap(SynthesizeFailure, speech.error))
                                  && disk.paths == WithParent(old(disk.paths), outputPath))
      ensures r.Success? ==> outputPath in disk.paths
    {
      var mkdirError := EnsureParent(disk, outputPath);
      if mkdirError.Some? {
        return None, Failure(Wrap(SynthesizeFailure, mkdirError.value));
      }
      request := Some(SpeechRequestFor(client, text, options));
      match speech {
        case Success(_) =>
          disk.AddFiles({outputPath});
          r := Success(outputPath);
        case Failure(cause) =>
          r := Failure(Wrap(SynthesizeFailure, cause));
      }
    }

    /** `setApiKey`: a new SDK client with the key; the default model stays. */
    method SetApiKey(apiKey: string)
      modifies this
      ensures client == ConfigFor(apiKey) && defaultModel == old(defaultModel)
    {
      client := ConfigFor(apiKey);
    }

    /** `setDefaultModel`: only the model later translations use changes. */
    method SetDefaultModel(model: string)
      modifies this
      ensures defaultModel == model && client == old(client)
    {
      defaultModel := model;
    }
  }
}
