/** The FastAPI `/generate` handler (`generate_content` in backend/main.py):
    request validation, the system prompt handed to the language model, the
    text used when no model client is configured, and the placeholder media
    links of the response. */
module Backend {
  import opened Text
  import opened Content

  /** The JSON body of a `/generate` request. */
  datatype ContentRequest = ContentRequest(platform: string, prompt: string, contentType: string)

  /** What the language-model client did with the system prompt: there is no
      client (no usable API key), it answered with a text, or it raised an
      exception with the given message. */
  datatype AiCall = NoClient | Replied(text: string) | Raised(message: string)

  /** The handler's outcome: the response record, or an `HTTPException`. */
  datatype Response = Ok(content: GeneratedContent) | HttpError(status: nat, detail: string)

  const MISSING_FIELDS: string := "Missing platform or prompt"

  const PREAMBLE_OPENING: string :=
    "You are a professional social media manager. Generate a high-quality "

  /** The fixed opening of every system prompt, with the platform and the
      single-quoted prompt embedded. */
  function Preamble(platform: string, prompt: string): string {
    PREAMBLE_OPENING + platform + PromptClause(prompt)
  }

  /** The part of the preamble that quotes the prompt. */
  function PromptClause(prompt: string): string {
    PREAMBLE_LINK + SingleQuoted(prompt) + ". "
  }

  function SingleQuoted(s: string): string {
    "'" + s + "'"
  }

  function DoubleQuoted(s: string): string {
    "\"" + s + "\""
  }

  const PREAMBLE_LINK: string := " post based on the following prompt: "

  const LINKEDIN_GUIDANCE: string :=
    "The tone should be professional and informative. Use industry-relevant hashtags."
  const INSTAGRAM_GUIDANCE: string :=
    "The tone should be engaging and visual-focused. Include 5-10 relevant hashtags."
  const FACEBOOK_GUIDANCE: string :=
    "The tone should be conversational and community-oriented."
  const YOUTUBE_GUIDANCE: string :=
    "Generate a catchy video title and a detailed description with timestamps."

  const IMAGE_SENTENCE: string :=
    " Also provide a short, descriptive prompt for an AI image generator that would pair well with this post."

  /** The platform-specific sentences as a table: the reference against which
      the handler's `if`/`elif` chain is checked. */
  const PLATFORM_GUIDANCE: map<string, string> := map[
    "LINKEDIN" := LINKEDIN_GUIDANCE,
    "INSTAGRAM" := INSTAGRAM_GUIDANCE,
    "FACEBOOK" := FACEBOOK_GUIDANCE,
    "YOUTUBE" := YOUTUBE_GUIDANCE
  ]

  /** The platform sentence appended for `platform`; none for an unknown one. */
  function Guidance(platform: string): string {
    if platform in PLATFORM_GUIDANCE then PLATFORM_GUIDANCE[platform] else ""
  }

  /** The sentence appended for image requests; none otherwise. */
  function ImageTail(contentType: string): string {
    if contentType == IMAGE then IMAGE_SENTENCE else ""
  }

  /** The system prompt, by its three parts. */
  function SystemPrompt(platform: string, prompt: string, contentType: string): string {
    Preamble(platform, prompt) + Guidance(platform) + ImageTail(contentType)
  }

  /** The text returned when no model client is configured. */
  function FallbackText(prompt: string, platform: string): string {
    FALLBACK_HEAD + DoubleQuoted(prompt) + FALLBACK_MIDDLE + platform + FALLBACK_END
  }

  const FALLBACK_HEAD: string :=
    "✨ SUCCESS: Your FastAPI backend is working and received your prompt: "
  const FALLBACK_MIDDLE: string :=
    "!\n\nTo enable real AI content, please add your Gemini API Key to backend/.env. Currently running on "
  const FALLBACK_END: string := " in fallback mode."

  const IMAGE_URL: string := "https://images.unsplash.com/photo-1611162617474-5b21e879e113?q=80&w=1000"
  const VIDEO_URL: string := "https://www.w3schools.com/html/mov_bbb.mp4"

  /** Builds the system prompt the way the handler does: the preamble, then
      one `+=` per matching branch. */
  method BuildSystemPrompt(platform: string, prompt: string, contentType: string)
    returns (systemPrompt: string)
    ensures systemPrompt == SystemPrompt(platform, prompt, contentType)
  {
    systemPrompt := Preamble(platform, prompt);
    if platform == "LINKEDIN" {
      systemPrompt := systemPrompt + LINKEDIN_GUIDANCE;
    } else if platform == "INSTAGRAM" {
      systemPrompt := systemPrompt + INSTAGRAM_GUIDANCE;
    } else if platform == "FACEBOOK" {
      systemPrompt := systemPrompt + FACEBOOK_GUIDANCE;
    } else if platform == "YOUTUBE" {
      systemPrompt := systemPrompt + YOUTUBE_GUIDANCE;
    }
    if contentType == IMAGE {
      systemPrompt := systemPrompt + IMAGE_SENTENCE;
    }
  }

  /** The handler's outcome as a function of the request and of what the
      model client did. */
  function Respond(request: ContentRequest, ai: AiCall, id: string): (r: Response)
    ensures r.HttpError? ==> r.status == 400 || r.status == 500
    ensures (r.HttpError? && r.status == 400) <==> (request.platform == "" || request.prompt == "")
    ensures r.HttpError? && r.status == 400 ==> r.detail == MISSING_FIELDS
    ensures (r.HttpError? && r.status == 500) <==>
            (request.platform != "" && request.prompt != "" && ai.Raised?)
    ensures r.HttpError? && r.status == 500 ==> r.detail == ai.message
    ensures r.Ok? ==>
              && r.content.id == id
              && r.content.platform == request.platform
              && r.content.contentType == request.contentType
              && r.content.prompt == request.prompt
    ensures r.Ok? && ai.Replied? ==> r.content.text == ai.text
    ensures r.Ok? && ai.NoClient? ==> r.content.text == FallbackText(request.prompt, request.platform)
    ensures r.Ok? ==> (r.content.mediaUrl == Some(IMAGE_URL) <==> request.contentType == IMAGE)
    ensures r.Ok? ==> (r.content.mediaUrl.Some? <==> request.contentType == IMAGE)
    ensures r.Ok? ==> (r.content.videoUrl == Some(VIDEO_URL) <==> request.contentType == VIDEO)
    ensures r.Ok? ==> (r.content.videoUrl.Some? <==> request.contentType == VIDEO)
    ensures r.Ok? ==> !(r.content.mediaUrl.Some? && r.content.videoUrl.Some?)
  {
    if request.platform == "" || request.prompt == "" then
      HttpError(400, MISSING_FIELDS)
    else
      match ai
      case Raised(message) => HttpError(500, message)
      case Replied(text) => Ok(Record(request, text, id))
      case NoClient => Ok(Record(request, FallbackText(request.prompt, request.platform), id))
  }

  /** The response record for a validated request and its generated text. */
  function Record(request: ContentRequest, text: string, id: string): GeneratedContent {
    GeneratedContent(
      id, request.platform, request.contentType, request.prompt, text,
      if request.contentType == IMAGE then Some(IMAGE_URL) else None,
      if request.contentType == VIDEO then Some(VIDEO_URL) else None)
  }

  /** The handler, step by step. `systemPrompt` is the prompt it built (and
      would hand to the model client); it is `None` when the request was
      rejected before any prompt was built. */
  method GenerateContent(request: ContentRequest, ai: AiCall, id: string)
    returns (response: Response, systemPrompt: Option<string>)
    ensures response == Respond(request, ai, id)
    ensures systemPrompt.None? <==> (request.platform == "" || request.prompt == "")
    ensures systemPrompt.Some? ==>
              systemPrompt.value == SystemPrompt(request.platform, request.prompt, request.contentType)
  {
    var platform := request.platform;
    var prompt := request.prompt;
    var contentType := request.contentType;

    if platform == "" || prompt == "" {
      return HttpError(400, MISSING_FIELDS), None;
    }

    var built := BuildSystemPrompt(platform, prompt, contentType);
    systemPrompt := Some(built);

    var generatedText: string;
    match ai {
      case Raised(message) =>
        return HttpError(500, message), systemPrompt;
      case Replied(text) =>
        generatedText := text;
      case NoClient =>
        generatedText := FallbackText(prompt, platform);
    }

    var mediaUrl: Option<string> := None;
    var videoUrl: Option<string> := None;
    if contentType == IMAGE {
      mediaUrl := Some(IMAGE_URL);
    } else if contentType == VIDEO {
      videoUrl := Some(VIDEO_URL);
    }

    response := Ok(GeneratedContent(id, platform, contentType, prompt, generatedText, mediaUrl, videoUrl));
  }

  // ---- Properties of the system prompt ----

  /** Every system prompt opens with the fixed preamble. */
  lemma SystemPromptOpening(platform: string, prompt: string, contentType: string)
    ensures StartsWith(SystemPrompt(platform, prompt, contentType), Preamble(platform, prompt))
    ensures StartsWith(SystemPrompt(platform, prompt, contentType), PREAMBLE_OPENING)
  {
    var pre, g, tail := Preamble(platform, prompt), Guidance(platform), ImageTail(contentType);
    PrefixOfConcat(pre, g);
    StartsWithExtend(pre + g, tail, pre);
    PrefixOfConcat(PREAMBLE_OPENING, platform);
    StartsWithExtend(PREAMBLE_OPENING + platform, PromptClause(prompt), PREAMBLE_OPENING);
    StartsWithExtend(pre, g, PREAMBLE_OPENING);
    StartsWithExtend(pre + g, tail, PREAMBLE_OPENING);
  }

  /** Every system prompt embeds the platform name. */
  lemma SystemPromptNamesPlatform(platform: string, prompt: string, contentType: string)
    ensures Contains(SystemPrompt(platform, prompt, contentType), platform)
  {
    var pre, g, tail := Preamble(platform, prompt), Guidance(platform), ImageTail(contentType);
    ContainsSelf(platform);
    ContainsPrepend(PREAMBLE_OPENING, platform, platform);
    ContainsExtend(PREAMBLE_OPENING + platform, PromptClause(prompt), platform);
    ContainsExtend(pre, g, platform);
    ContainsExtend(pre + g, tail, platform);
  }

  /** Every system prompt embeds the prompt in single quotes. */
  lemma SystemPromptQuotesPrompt(platform: string, prompt: string, contentType: string)
    ensures Contains(SystemPrompt(platform, prompt, contentType), "'" + prompt + "'")
  {
    var pre, g, tail := Preamble(platform, prompt), Guidance(platform), ImageTail(contentType);
    var q := SingleQuoted(prompt);
    ContainsSelf(q);
    ContainsPrepend(PREAMBLE_LINK, q, q);
    ContainsExtend(PREAMBLE_LINK + q, ". ", q);
    ContainsPrepend(PREAMBLE_OPENING + platform, PromptClause(prompt), q);
    ContainsExtend(pre, g, q);
    ContainsExtend(pre + g, tail, q);
  }

  /** The four platform sentences are pairwise different, so the sentence a
      request gets identifies its platform. */
  lemma GuidanceInjective(p: string, q: string)
    requires p in PLATFORM_GUIDANCE && q in PLATFORM_GUIDANCE
    requires PLATFORM_GUIDANCE[p] == PLATFORM_GUIDANCE[q]
    ensures p == q
  {
    // The sentences have the lengths 80, 79, 57 and 73.
    assert |PLATFORM_GUIDANCE[p]| == |PLATFORM_GUIDANCE[q]|;
  }

  /** What follows the preamble is the request's platform sentence, then the
      image sentence. For each of the four known platforms exactly that
      platform's sentence is appended and no other platform's; any other
      platform gets no sentence. */
  lemma ExactlyOneGuidance(platform: string, prompt: string, contentType: string)
    ensures var sp := SystemPrompt(platform, prompt, contentType);
            var pre := Preamble(platform, prompt);
            |pre| <= |sp| && sp[|pre|..] == Guidance(platform) + ImageTail(contentType)
    ensures platform in PLATFORM_GUIDANCE ==>
              forall q :: q in PLATFORM_GUIDANCE ==>
                (Guidance(platform) == PLATFORM_GUIDANCE[q] <==> q == platform)
    ensures platform !in PLATFORM_GUIDANCE ==> Guidance(platform) == ""
  {
    var pre, g, tail := Preamble(platform, prompt), Guidance(platform), ImageTail(contentType);
    assert (pre + g + tail)[|pre|..] == g + tail;
    forall q | q in PLATFORM_GUIDANCE && platform in PLATFORM_GUIDANCE
      ensures Guidance(platform) == PLATFORM_GUIDANCE[q] <==> q == platform
    {
      if Guidance(platform) == PLATFORM_GUIDANCE[q] {
        GuidanceInjective(platform, q);
      }
    }
  }

  /** The image sentence ends the system prompt exactly when the request is
      for an image, and it then comes after the platform sentence. */
  lemma ImageSentenceLast(platform: string, prompt: string, contentType: string)
    ensures EndsWith(SystemPrompt(platform, prompt, contentType), IMAGE_SENTENCE) <==> contentType == IMAGE
    ensures contentType == IMAGE ==>
              SystemPrompt(platform, prompt, contentType)
              == Preamble(platform, prompt) + Guidance(platform) + IMAGE_SENTENCE
  {
    var pre, g := Preamble(platform, prompt), Guidance(platform);
    var sp := SystemPrompt(platform, prompt, contentType);
    var n := |IMAGE_SENTENCE|;
    if contentType == IMAGE {
      SuffixOfConcat(pre + g, IMAGE_SENTENCE);
    } else {
      // The image sentence ends in "t."; the preamble ends in a blank and
      // every platform sentence in "s." or "d.".
      assert sp == pre + g + "";
      if g == "" {
        assert sp[|sp| - 1] == ' ';
        assert IMAGE_SENTENCE[n - 1] == '.';
      } else {
        assert sp[|sp| - 2] == g[|g| - 2];
        assert g[|g| - 2] == 's' || g[|g| - 2] == 'd';
        assert IMAGE_SENTENCE[n - 2] == 't';
      }
      assert !EndsWith(sp, IMAGE_SENTENCE);
    }
  }

  // ---- Properties of the no-client text ----

  /** The no-client text quotes the prompt verbatim. */
  lemma FallbackTextQuotesPrompt(prompt: string, platform: string)
    ensures Contains(FallbackText(prompt, platform), "\"" + prompt + "\"")
  {
    var q := DoubleQuoted(prompt);
    ContainsSelf(q);
    ContainsPrepend(FALLBACK_HEAD, q, q);
    ContainsExtend(FALLBACK_HEAD + q, FALLBACK_MIDDLE, q);
    ContainsExtend(FALLBACK_HEAD + q + FALLBACK_MIDDLE, platform, q);
    ContainsExtend(FALLBACK_HEAD + q + FALLBACK_MIDDLE + platform, FALLBACK_END, q);
  }

  /** The no-client text names the platform. */
  lemma FallbackTextNamesPlatform(prompt: string, platform: string)
    ensures Contains(FallbackText(prompt, platform), platform)
  {
    var before := FALLBACK_HEAD + DoubleQuoted(prompt) + FALLBACK_MIDDLE;
    ContainsSelf(platform);
    ContainsPrepend(before, platform, platform);
    ContainsExtend(before + platform, FALLBACK_END, platform);
  }

  /** The prompt sits right after the opening quote, at a fixed position. */
  lemma FallbackTextPromptAt(prompt: string, platform: string)
    ensures OccursAt(FallbackText(prompt, platform), prompt, |FALLBACK_HEAD| + 1)
  {
    var q := DoubleQuoted(prompt);
    OccursMiddle("\"", prompt, "\"");
    OccursPrepend(FALLBACK_HEAD, q, prompt, 1);
    OccursExtend(FALLBACK_HEAD + q, FALLBACK_MIDDLE, prompt, |FALLBACK_HEAD| + 1);
    OccursExtend(FALLBACK_HEAD + q + FALLBACK_MIDDLE, platform, prompt, |FALLBACK_HEAD| + 1);
    OccursExtend(FALLBACK_HEAD + q + FALLBACK_MIDDLE + platform, FALLBACK_END, prompt, |FALLBACK_HEAD| + 1);
  }

  /** For a fixed platform the no-client text determines the prompt. */
  lemma FallbackTextDeterminesPrompt(p1: string, p2: string, platform: string)
    requires FallbackText(p1, platform) == FallbackText(p2, platform)
    ensures p1 == p2
  {
    FallbackTextPromptAt(p1, platform);
    FallbackTextPromptAt(p2, platform);
    assert |p1| == |p2|;
  }
}
