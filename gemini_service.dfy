/** The text service: the retry loop around the model call, the prompt it
    sends, the media step after formatting, and the service object whose
    model may or may not have been created. The model's answers are given
    as a sequence of outcomes, one per call. */
module GeminiService {
  import opened Wrappers
  import opened Strings
  import opened StoryForm
  import opened GeminiText

  /** What one `model.generateContent(prompt)` call does: it answers with
      a response whose text is `text`, or it throws an error whose message
      is `message` (an error without a message has the empty one). */
  datatype Outcome = Response(text: string) | Error(message: string)

  /** The default of `maxRetries`. */
  const DefaultMaxRetries: nat := 3

  const ModelName: string := "gemini-1.5-flash"

  /** Thrown by `generateStory` when there is no model. */
  const ConfigurationError: string := "Gemini API is not properly configured. Please check your API key."

  /** Thrown by `generateStory` for every failure once the model exists. */
  const GenerationError: string := "Failed to generate story. Please try again."

  /** The two errors `generateStory` throws. */
  datatype StoryError = NotConfigured | GenerationFailed

  /** The message each error is thrown with. */
  function Message(e: StoryError): string {
    match e
    case NotConfigured => ConfigurationError
    case GenerationFailed => GenerationError
  }

  /** The errors worth another attempt: a message mentioning both `503`
      and `overloaded`. */
  predicate IsOverloaded(o: Outcome) {
    o.Error? && Contains(o.message, "503") && Contains(o.message, "overloaded")
  }

  function Pow2(n: nat): (r: nat)
    ensures r >= 1
  {
    if n == 0 then 1 else 2 * Pow2(n - 1)
  }

  /** The waits, in milliseconds, before attempts `1 .. n`: one second
      doubled each time. */
  function Backoff(n: nat): (r: seq<nat>)
    ensures |r| == n
    ensures n > 0 ==> r[0] == 1000
    ensures forall i :: 0 < i < n ==> r[i] == 2 * r[i - 1]
  {
    seq(n, i requires 0 <= i < n => Pow2(i) * 1000)
  }

  /** `n` calls out of at most `maxRetries` are what a retry loop could
      make: every call but the last threw an overload error, and the last
      one is either an attempt that did not, or the final attempt. */
  predicate StopsAfter(outcomes: seq<Outcome>, maxRetries: nat, n: nat)
    requires maxRetries <= |outcomes|
  {
    && n <= maxRetries
    && (maxRetries > 0 ==> n >= 1)
    && (forall i :: 0 <= i < n - 1 ==> IsOverloaded(outcomes[i]))
    && (0 < n < maxRetries ==> !IsOverloaded(outcomes[n - 1]))
  }

  /** The number of calls the retry loop makes from attempt `attempt` on. */
  function CallsFrom(outcomes: seq<Outcome>, maxRetries: nat, attempt: nat): (n: nat)
    requires attempt < maxRetries <= |outcomes|
    ensures attempt < n <= maxRetries
    ensures forall i :: attempt <= i < n - 1 ==> IsOverloaded(outcomes[i])
    ensures n < maxRetries ==> !IsOverloaded(outcomes[n - 1])
    decreases maxRetries - attempt
  {
    if IsOverloaded(outcomes[attempt]) && attempt < maxRetries - 1 then
      CallsFrom(outcomes, maxRetries, attempt + 1)
    else
      attempt + 1
  }

  /** The number of calls `generateContentWithRetry` makes. */
  function RetryCalls(outcomes: seq<Outcome>, maxRetries: nat): (n: nat)
    requires maxRetries <= |outcomes|
    ensures StopsAfter(outcomes, maxRetries, n)
  {
    if maxRetries == 0 then 0 else CallsFrom(outcomes, maxRetries, 0)
  }

  /** The retry loop's stopping rule admits one number of calls only. */
  lemma StopsAfterUnique(outcomes: seq<Outcome>, maxRetries: nat, n: nat)
    requires maxRetries <= |outcomes| && StopsAfter(outcomes, maxRetries, n)
    ensures n == RetryCalls(outcomes, maxRetries)
  {
  }

  /** `generateContentWithRetry(prompt, maxRetries)`: `calls` calls are
      made, `result` is what the last one gave (`None` when the loop never
      runs and `undefined` is thrown), and `waits` are the delays awaited
      between them. */
  method GenerateContentWithRetry(outcomes: seq<Outcome>, maxRetries: nat)
    returns (result: Option<Outcome>, calls: nat, waits: seq<nat>)
    requires maxRetries <= |outcomes|
    ensures calls == RetryCalls(outcomes, maxRetries)
    ensures calls == 0 <==> result.None?
    ensures calls > 0 ==> result == Some(outcomes[calls - 1])
    ensures waits == Backoff(if calls == 0 then 0 else calls - 1)
  {
    var attempt: nat := 0;
    waits := [];
    while attempt < maxRetries
      invariant attempt <= maxRetries
      invariant attempt == 0 || attempt < maxRetries
      invariant attempt < maxRetries ==> RetryCalls(outcomes, maxRetries) == CallsFrom(outcomes, maxRetries, attempt)
      invariant waits == Backoff(attempt)
    {
      var outcome := outcomes[attempt];
      if outcome.Response? {
        return Some(outcome), attempt + 1, waits;
      }
      if IsOverloaded(outcome) {
        var delay := Pow2(attempt) * 1000;
        if attempt < maxRetries - 1 {
          waits := waits + [delay];
          attempt := attempt + 1;
          continue;
        }
      }
      return Some(outcome), attempt + 1, waits;
    }
    result, calls := None, 0;
  }

  /** A response after `k` overload errors ends the loop after `k + 1`
      calls. */
  lemma SuccessAfterOverloads(outcomes: seq<Outcome>, maxRetries: nat, k: nat)
    requires maxRetries <= |outcomes| && k < maxRetries && outcomes[k].Response?
    requires forall i :: 0 <= i < k ==> IsOverloaded(outcomes[i])
    ensures RetryCalls(outcomes, maxRetries) == k + 1
  {
    assert StopsAfter(outcomes, maxRetries, k + 1);
    StopsAfterUnique(outcomes, maxRetries, k + 1);
  }

  /** An error that is not an overload error ends the loop at once. */
  lemma FirstErrorNotRetried(outcomes: seq<Outcome>, maxRetries: nat)
    requires maxRetries <= |outcomes| && maxRetries >= 1 && !IsOverloaded(outcomes[0])
    ensures RetryCalls(outcomes, maxRetries) == 1
  {
    assert StopsAfter(outcomes, maxRetries, 1);
    StopsAfterUnique(outcomes, maxRetries, 1);
  }

  /** When every attempt is overloaded all `maxRetries` calls are made. */
  lemma AllOverloaded(outcomes: seq<Outcome>, maxRetries: nat)
    requires maxRetries <= |outcomes|
    requires forall i :: 0 <= i < maxRetries ==> IsOverloaded(outcomes[i])
    ensures RetryCalls(outcomes, maxRetries) == maxRetries
  {
    assert StopsAfter(outcomes, maxRetries, maxRetries);
    StopsAfterUnique(outcomes, maxRetries, maxRetries);
  }

  /** The loop ends with a response exactly when some attempt within the
      limit answers after nothing but overload errors. */
  lemma RetrySucceedsIff(outcomes: seq<Outcome>, maxRetries: nat)
    requires maxRetries <= |outcomes| && maxRetries >= 1
    ensures var n := RetryCalls(outcomes, maxRetries);
      outcomes[n - 1].Response? <==>
      exists k :: 0 <= k < maxRetries && outcomes[k].Response? && forall i :: 0 <= i < k ==> IsOverloaded(outcomes[i])
  {
    if k :| 0 <= k < maxRetries && outcomes[k].Response? && forall i :: 0 <= i < k ==> IsOverloaded(outcomes[i]) {
      SuccessAfterOverloads(outcomes, maxRetries, k);
    }
  }

  /** With the default limit the waits are one and two seconds. */
  lemma DefaultWaits()
    ensures Backoff(DefaultMaxRetries - 1) == [1000, 2000]
  {
    assert Pow2(1) == 2;
  }

  /** `charactersText`. */
  function CharactersText(characters: seq<string>): string {
    if |characters| > 0 then "featuring " + Join(characters, ", ") + " as main characters"
    else "with friendly animal characters"
  }

  /** The fixed text of the prompt: text `i` comes after the `i`-th
      substitution (text 0 opens the prompt, text 8 closes it). */
  function PromptText(i: nat): string {
    if i == 0 then "Create a gentle, age-appropriate bedtime story for a baby named "
    else if i == 1 then " (age: "
    else if i == 2 then "). \n\nStory requirements:\n- Theme: "
    else if i == 3 then "\n- Setting: "
    else if i == 4 then "\n- Main characters: "
    else if i == 5 then "\n- Emotional tone: "
    else if i == 6 then "\n- Life lesson: "
    else if i == 7 then "\n- Length: 6-8 short paragraphs suitable for babies/toddlers\n- Language: Simple, soothing, and repetitive words\n- Style: Warm, comforting, and magical\n\nThe story should:\n1. Be calming and perfect for bedtime\n2. Use simple vocabulary appropriate for the baby's age\n3. Include the baby's name throughout the story\n4. Have a positive, uplifting message about "
    else "\n5. Create a sense of wonder and safety\n6. End with a peaceful, sleepy conclusion\n\nIMPORTANT: Write the story as flowing paragraphs of text only. Do NOT include any image placeholders, image descriptions, or visual references. Focus purely on the narrative text that will be read aloud.\n"
  }

  /** What the prompt substitutes, in order; the lesson is substituted
      twice. */
  function PromptFields(params: StoryParams): (r: seq<string>)
    ensures |r| == 8
  {
    [params.babyName, params.babyAge, params.theme, params.setting,
     CharactersText(params.characters), params.feeling, params.lesson, params.lesson]
  }

  /** `createStoryPrompt(params)`. */
  function CreateStoryPrompt(params: StoryParams): string {
    Interleave(seq(9, i requires 0 <= i < 9 => PromptText(i)), PromptFields(params))
  }

  /** Each substitution occurs in the prompt. */
  lemma PromptHasField(params: StoryParams, k: nat)
    requires k < 8
    ensures Contains(CreateStoryPrompt(params), PromptFields(params)[k])
  {
    InterleaveContainsField(seq(9, i requires 0 <= i < 9 => PromptText(i)), PromptFields(params), k);
  }

  /** Every field of the form reaches the prompt. */
  lemma PromptMentionsFields(params: StoryParams)
    ensures var prompt := CreateStoryPrompt(params);
      && Contains(prompt, params.babyName) && Contains(prompt, params.babyAge)
      && Contains(prompt, params.theme) && Contains(prompt, params.setting)
      && Contains(prompt, params.feeling) && Contains(prompt, params.lesson)
  {
    PromptHasField(params, 0);
    PromptHasField(params, 1);
    PromptHasField(params, 2);
    PromptHasField(params, 3);
    PromptHasField(params, 5);
    PromptHasField(params, 6);
  }

  /** Every selected character reaches the prompt; with none selected it
      asks for friendly animal characters. */
  lemma PromptMentionsCharacters(params: StoryParams)
    ensures forall c :: c in params.characters ==> Contains(CreateStoryPrompt(params), c)
    ensures params.characters == [] ==> Contains(CreateStoryPrompt(params), "with friendly animal characters")
  {
    var text := CharactersText(params.characters);
    PromptHasField(params, 4);
    forall c | c in params.characters
      ensures Contains(CreateStoryPrompt(params), c)
    {
      var i :| 0 <= i < |params.characters| && params.characters[i] == c;
      ContainsItself(c);
      JoinContainsElement(params.characters, ", ", i, c);
      ContainsInfix("featuring ", Join(params.characters, ", "), " as main characters", c);
      ContainsTransitive(CreateStoryPrompt(params), text, c);
    }
  }

  /** An entry of `StoryContent.images`. */
  datatype Image = Image(description: string, url: Option<string>, isLoading: bool)

  /** `StoryContent`. */
  datatype StoryContent = StoryContent(text: string, images: seq<Image>, hasVideo: bool, videoUrl: Option<string>)

  /** `processStoryWithMedia(story, babyName)`: `videoAvailable` is
      `videoService.isAvailable()`. The video is requested in the
      background and its address is stored in a local variable after the
      content has been returned, so the content never carries it. */
  function ProcessStoryWithMedia(story: string, videoAvailable: bool): (c: StoryContent)
    ensures c.text == CleanStory(story)
    ensures |c.text| <= |story| && !Contains(c.text, "\n\n\n")
    ensures c.images == [] && c.hasVideo == videoAvailable && c.videoUrl == None
  {
    StoryContent(CleanStory(story), [], videoAvailable, None)
  }

  /** An `[IMAGE: d]` marker after marker-free text is dropped from the
      content's text, and the rest of the story is processed as if it had
      never been there. */
  lemma ProcessedTextDropsMarker(a: string, d: string, b: string, videoAvailable: bool)
    requires '[' !in a && Description(d)
    ensures ProcessStoryWithMedia(a + "[IMAGE:" + d + "]" + b, videoAvailable).text
         == ProcessStoryWithMedia(a + b, videoAvailable).text
  {
    CleanStoryDropsMarker(a, d, b);
  }

  /** What `generateStory` makes of the final call of the retry loop:
      a response is formatted and processed, and any error becomes the
      generic failure. */
  function Respond(o: Outcome, videoAvailable: bool): (r: Result<StoryContent, StoryError>)
    ensures r.Success? <==> o.Response?
    ensures r.Failure? ==> r.error == GenerationFailed
    ensures r.Success? ==> r.value == ProcessStoryWithMedia(FormatStory(o.text), videoAvailable)
  {
    match o
    case Response(story) =>
      var formattedStory := FormatStory(story);
      Success(ProcessStoryWithMedia(formattedStory, videoAvailable))
    case Error(_) => Failure(GenerationFailed)
  }

  /** The `try` block of `generateStory` once the model exists: the
      retried call, then formatting and media processing of the response. */
  method GenerateWithModel(outcomes: seq<Outcome>, videoAvailable: bool)
    returns (r: Result<StoryContent, StoryError>, calls: nat)
    requires DefaultMaxRetries <= |outcomes|
    ensures calls == RetryCalls(outcomes, DefaultMaxRetries) && calls >= 1
    ensures r == Respond(outcomes[calls - 1], videoAvailable)
  {
    var result, waits;
    result, calls, waits := GenerateContentWithRetry(outcomes, DefaultMaxRetries);
    r := Respond(result.value, videoAvailable);
  }

  /** What happens while the service sets up its model. */
  datatype InitStep =
    | Completes     // the client and the model are created
    | ClientThrows  // `new GoogleGenerativeAI(apiKey)` throws
    | ModelThrows   // `getGenerativeModel` throws

  /** `!apiKey`: the key is undefined or empty. */
  predicate MissingKey(apiKey: Option<string>) {
    apiKey.None? || apiKey.value == ""
  }

  /** The service object. The client is represented by the key it was
      built with and the model by its name. */
  class Service {
    var genAI: Option<string>
    var model: Option<string>

    /** `new GeminiService()`, reading the key from the environment. */
    constructor (apiKey: Option<string>, step: InitStep)
      ensures MissingKey(apiKey) ==> genAI == None && model == None
      ensures !MissingKey(apiKey) && step == Completes ==> genAI == apiKey && model == Some(ModelName)
      ensures !MissingKey(apiKey) && step == ClientThrows ==> genAI == None && model == None
      ensures !MissingKey(apiKey) && step == ModelThrows ==> genAI == apiKey && model == None
      ensures IsConfigured() <==> !MissingKey(apiKey) && step == Completes
    {
      genAI := None;
      model := None;
      if !MissingKey(apiKey) {
        if step != ClientThrows {
          genAI := apiKey;
          if step == Completes {
            model := Some(ModelName);
          }
        }
      }
    }

    /** `isConfigured()`. */
    predicate IsConfigured()
      reads this
    {
      model.Some?
    }

    /** `generateStory(params)`: `outcomes` are the model's answers and
      `videoAvailable` is `videoService.isAvailable()`. `prompt` is what
      each call sends and `calls` how many calls were made. */
    method GenerateStory(params: StoryParams, outcomes: seq<Outcome>, videoAvailable: bool)
      returns (r: Result<StoryContent, StoryError>, prompt: Option<string>, calls: nat)
      requires DefaultMaxRetries <= |outcomes|
      ensures !IsConfigured() ==> r == Failure(NotConfigured) && prompt == None && calls == 0
      ensures IsConfigured() ==> calls == RetryCalls(outcomes, DefaultMaxRetries) && calls >= 1
      ensures IsConfigured() ==> prompt == Some(CreateStoryPrompt(params))
      ensures IsConfigured() ==> r == Respond(outcomes[calls - 1], videoAvailable)
    {
      if model.None? {
        r, prompt, calls := Failure(NotConfigured), None, 0;
      } else {
        r, calls := GenerateWithModel(outcomes, videoAvailable);
        prompt := Some(CreateStoryPrompt(params));
      }
    }
  }
}
