/** The client side of generation (src/lib/mockApi.js): the platform table,
    the sample media, and the content synthesised locally when the backend
    cannot be reached. */
module MockApi {
  import opened Text
  import opened Content
  import Backend

  // ---- The platform table ----

  /** One entry of `PLATFORMS`. The media flags are `None` where the entry
      has no such key (the property is `undefined`, hence falsy). */
  datatype PlatformInfo = PlatformInfo(
    name: string,
    color: string,
    icon: string,
    maxLength: nat,
    hasImage: Option<bool>,
    hasVideo: Option<bool>
  )

  const PLATFORMS: map<string, PlatformInfo> := map[
    "LINKEDIN" := PlatformInfo("LinkedIn", "#0a66c2", "Linkedin", 3000, Some(true), None),
    "INSTAGRAM" := PlatformInfo("Instagram", "#e4405f", "Instagram", 2200, Some(true), Some(true)),
    "FACEBOOK" := PlatformInfo("Facebook", "#1877f2", "Facebook", 63206, Some(true), Some(true)),
    "YOUTUBE" := PlatformInfo("YouTube", "#ff0000", "Youtube", 5000, None, Some(true))
  ]

  const SAMPLE_IMAGES: seq<string> := [
    "https://images.unsplash.com/photo-1611162617474-5b21e879e113?q=80&w=1000",
    "https://images.unsplash.com/photo-1460925895917-afdab827c52f?q=80&w=1000",
    "https://images.unsplash.com/photo-1512486130939-2c4f79935e4f?q=80&w=1000",
    "https://images.unsplash.com/photo-1551434678-e076c223a692?q=80&w=1000"
  ]

  const VIDEO_URL: string := "https://www.w3schools.com/html/mov_bbb.mp4"

  // ---- Tone selection ----

  // The tone sentences, each written as a concatenation of short pieces.
  const TONE_DEFAULT: string := "Here is an optimized post" + " for your audience."
  const TONE_PROFESSIONAL: string :=
    "This professional post is crafted" + " to highlight your industry expertise and leadership."
  const TONE_EXCITING: string :=
    "Get ready to create some buzz!" + " This high-energy post is designed to maximize reach and excitement."

  /** The lower-cased prompt mentions a job, a career or work. */
  predicate IsProfessional(prompt: string) {
    var low := ToLower(prompt);
    Contains(low, "job") || Contains(low, "career") || Contains(low, "work")
  }

  /** The lower-cased prompt mentions a launch, something new or excitement. */
  predicate IsExciting(prompt: string) {
    var low := ToLower(prompt);
    Contains(low, "launch") || Contains(low, "new") || Contains(low, "exciting")
  }

  /** The tone sentence for a prompt: the exciting tone wins over the
      professional one, which wins over the default. */
  function Tone(prompt: string): string {
    if IsExciting(prompt) then TONE_EXCITING
    else if IsProfessional(prompt) then TONE_PROFESSIONAL
    else TONE_DEFAULT
  }

  /** Tone selection as the client performs it: start from the default and
      let each test that passes overwrite the choice, the exciting test last. */
  method SelectTone(prompt: string) returns (toneText: string)
    ensures toneText == Tone(prompt)
  {
    var low := ToLower(prompt);
    var isProfessional := Contains(low, "job") || Contains(low, "career") || Contains(low, "work");
    var isExciting := Contains(low, "launch") || Contains(low, "new") || Contains(low, "exciting");

    toneText := TONE_DEFAULT;
    if isProfessional {
      toneText := TONE_PROFESSIONAL;
    }
    if isExciting {
      toneText := TONE_EXCITING;
    }
  }

  // ---- The fallback text and record ----

  const INSTAGRAM_OPENING: string := "Enjoying the process!"
  const INSTAGRAM_EMOJI: string := " \U{1F4F8} ✨"
  const OTHER_OPENING: string := "Check this out!"
  const HASHTAG_SUFFIX: string :=
    " #SocialSpark #AI #ContentCreation #Trending (Note: Backend was not reachable, showing fallback mock)"

  /** The closing line: an Instagram-specific phrase or a generic one, then
      the fixed hashtags and fallback note. */
  function HashtagLine(platform: string): string {
    (if platform == "INSTAGRAM" then INSTAGRAM_OPENING + INSTAGRAM_EMOJI else OTHER_OPENING) + HASHTAG_SUFFIX
  }

  /** The fallback body: the tone, the quoted prompt and the closing line,
      separated by blank lines. */
  function FallbackText(platform: string, prompt: string): string {
    Tone(prompt) + QuotedBlock(prompt) + HashtagLine(platform)
  }

  /** The prompt in double quotes, with a blank line on either side. */
  function QuotedBlock(prompt: string): string {
    "\n\n\"" + prompt + "\"\n\n"
  }

  /** The record synthesised when the backend is unreachable. `imgIndex`
      stands for the random pick among the sample images and `id` for the
      random identifier. */
  function Fallback(platform: string, prompt: string, contentType: string, imgIndex: nat, id: string)
    : (r: GeneratedContent)
    requires imgIndex < |SAMPLE_IMAGES|
    ensures r.id == id && r.platform == platform && r.contentType == contentType && r.prompt == prompt
    ensures r.mediaUrl.Some? <==> contentType == IMAGE
    ensures r.mediaUrl.Some? ==> r.mediaUrl.value in SAMPLE_IMAGES
    ensures r.videoUrl == Some(VIDEO_URL) <==> contentType == VIDEO
    ensures r.videoUrl.Some? <==> contentType == VIDEO
    ensures !(r.mediaUrl.Some? && r.videoUrl.Some?)
  {
    GeneratedContent(
      id, platform, contentType, prompt, FallbackText(platform, prompt),
      if contentType == IMAGE then Some(SAMPLE_IMAGES[imgIndex]) else None,
      if contentType == VIDEO then Some(VIDEO_URL) else None)
  }

  /** `generateContent`: the backend's record when one arrives (`reply`), and
      otherwise (network failure, non-success status, unreadable body) the
      local fallback. It never fails. */
  function GenerateContent(platform: string, prompt: string, contentType: string,
                           reply: Option<GeneratedContent>, imgIndex: nat, id: string)
    : (r: GeneratedContent)
    requires imgIndex < |SAMPLE_IMAGES|
    ensures reply.Some? ==> r == reply.value
    ensures reply.None? ==> r.platform == platform && r.prompt == prompt && r.contentType == contentType
    ensures reply.None? ==> r.text == FallbackText(platform, prompt)
  {
    if reply.Some? then reply.value else Fallback(platform, prompt, contentType, imgIndex, id)
  }

  // ---- Tone properties ----

  /** An exciting term `w` decides the tone even when a professional term
      `v` occurs too, before it or after it: the exciting test is applied last. */
  lemma ExcitingWins(a: string, w: string, b: string, v: string, c: string)
    requires ToLower(w) in ["launch", "new", "exciting"]
    requires ToLower(v) in ["job", "career", "work"]
    ensures IsProfessional(a + v + b + w + c) && Tone(a + v + b + w + c) == TONE_EXCITING
    ensures IsProfessional(a + w + b + v + c) && Tone(a + w + b + v + c) == TONE_EXCITING
  {
    BothTerms(a + v + b, w, c, a, v, b + w + c);
    BothTerms(a, w, b + v + c, a + w + b, v, c);
  }

  /** Helper for ExcitingWins: one string split in two ways, once around an
      exciting term and once around a professional term. */
  lemma BothTerms(x1: string, w: string, y1: string, x2: string, v: string, y2: string)
    requires ToLower(w) in ["launch", "new", "exciting"]
    requires ToLower(v) in ["job", "career", "work"]
    requires x1 + w + y1 == x2 + v + y2
    ensures IsExciting(x1 + w + y1) && IsProfessional(x1 + w + y1)
  {
    TermAnywhere(x1, w, y1);
    TermAnywhere(x2, v, y2);
  }

  /** A prompt with a professional term `v` and no exciting term gets the
      professional tone. */
  lemma ProfessionalWithoutExciting(a: string, v: string, b: string)
    requires ToLower(v) in ["job", "career", "work"]
    requires !IsExciting(a + v + b)
    ensures Tone(a + v + b) == TONE_PROFESSIONAL
  {
    TermAnywhere(a, v, b);
  }

  /** With no trigger term the tone is the default, and only then. */
  lemma DefaultTone(prompt: string)
    ensures Tone(prompt) == TONE_DEFAULT <==> !IsProfessional(prompt) && !IsExciting(prompt)
  {
    assert |TONE_DEFAULT| != |TONE_PROFESSIONAL| && |TONE_DEFAULT| != |TONE_EXCITING|;
  }

  /** A term written in any mix of upper and lower case (`w`) anywhere in
      the prompt, even inside a longer word, triggers its test. */
  lemma TermAnywhere(a: string, w: string, b: string)
    ensures ToLower(w) in ["job", "career", "work"] ==> IsProfessional(a + w + b)
    ensures ToLower(w) in ["launch", "new", "exciting"] ==> IsExciting(a + w + b)
  {
    ToLowerConcat(a + w, b);
    ToLowerConcat(a, w);
    ContainsMiddle(ToLower(a), ToLower(w), ToLower(b));
  }

  /** "network" has "work" in it and no exciting term, so it reads as professional. */
  lemma NetworkReadsProfessional()
    ensures Tone("network") == TONE_PROFESSIONAL
  {
    NetworkTerms("network");
  }

  /** Helper for NetworkReadsProfessional: which terms occur in "network". */
  lemma NetworkTerms(s: string)
    requires s == "network"
    ensures ToLower(s) == s
    ensures Contains(s, "work")
    ensures !Contains(s, "new") && !Contains(s, "launch") && !Contains(s, "exciting")
  {
    assert NoUpper(s);
    ToLowerOfLower(s);
    ContainsAt(s, "work", 3);
    forall i: nat ensures !OccursAt(s, "new", i) {
      if i + 3 <= |s| {
        assert s[i] != 'n' || s[i + 2] != 'w';
        assert s[i..i + 3][0] == s[i] && s[i..i + 3][2] == s[i + 2];
      }
    }
    NotContains(s, "new");
    AbsentChar(s, "launch", 0);
    AbsentChar(s, "exciting", 1);
  }

  /** "news" has "new" in it, so it reads as exciting. */
  lemma NewsReadsExciting()
    ensures Tone("news") == TONE_EXCITING
  {
    var s := "news";
    assert NoUpper(s);
    ToLowerOfLower(s);
    ContainsAt(s, "new", 0);
  }

  /** A LinkedIn prompt about a career change gets the professional tone,
      keeps the word "career" in its text and the generic closing line. */
  lemma CareerPromptScenario(p: string)
    requires p == "Write about career transition into AI"
    ensures Tone(p) == TONE_PROFESSIONAL
    ensures Contains(FallbackText("LINKEDIN", p), "career")
    ensures HashtagLine("LINKEDIN") == OTHER_OPENING + HASHTAG_SUFFIX
  {
    var rest := "rite about career transition into ";
    assert p == "W" + rest + "AI";
    var low := CareerPromptTerms(p, rest);
    ContainsPrepend("\n\n\"", p, "career");
    ContainsExtend("\n\n\"" + p, "\"\n\n", "career");
    ContainsPrepend(Tone(p), QuotedBlock(p), "career");
    ContainsExtend(Tone(p) + QuotedBlock(p), HashtagLine("LINKEDIN"), "career");
  }

  /** Helper for CareerPromptScenario: which terms occur in the prompt. */
  lemma CareerPromptTerms(p: string, rest: string) returns (low: string)
    requires rest == "rite about career transition into " && p == "W" + rest + "AI"
    ensures low == ToLower(p)
    ensures Contains(p, "career") && Contains(low, "career")
    ensures !Contains(low, "new") && !Contains(low, "launch") && !Contains(low, "exciting")
  {
    CareerPromptMiddle(rest);
    CareerPromptCareer(rest);
    CareerPromptEnds("W", rest, "AI");
    low := "w" + rest + "ai";
    ContainsPrepend("W", rest, "career");
    ContainsExtend("W" + rest, "AI", "career");
    ContainsPrepend("w", rest, "career");
    ContainsExtend("w" + rest, "ai", "career");
    CareerPromptNoNew(low);
    CareerPromptNoLaunch(low);
    CareerPromptNotExciting(low);
  }

  /** Helper for CareerPromptTerms. */
  lemma CareerPromptMiddle(rest: string)
    requires rest == "rite about career transition into "
    ensures ToLower(rest) == rest
  {
    assert NoUpper(rest);
    ToLowerOfLower(rest);
  }

  /** Helper for CareerPromptTerms. */
  lemma CareerPromptCareer(rest: string)
    requires rest == "rite about career transition into "
    ensures Contains(rest, "career")
  {
    var r, c, t := "rite about ", "career", " transition into ";
    assert rest == r + c + t;
    ContainsMiddle(r, c, t);
  }

  /** Helper for CareerPromptTerms. */
  lemma CareerPromptEnds(w: string, rest: string, ai: string)
    requires ToLower(rest) == rest && w == "W" && ai == "AI"
    ensures ToLower(w + rest + ai) == "w" + rest + "ai"
  {
    ToLowerConcat(w + rest, ai);
    ToLowerConcat(w, rest);
    assert ToLower(w) == "w" && ToLower(ai) == "ai";
  }

  /** Helper for CareerPromptTerms. */
  lemma CareerPromptNoNew(low: string)
    requires low == "w" + "rite about career transition into " + "ai"
    ensures !Contains(low, "new")
  {
    AbsentChar(low, "new", 2);
  }

  /** Helper for CareerPromptTerms. */
  lemma CareerPromptNoLaunch(low: string)
    requires low == "w" + "rite about career transition into " + "ai"
    ensures !Contains(low, "launch")
  {
    AbsentChar(low, "launch", 0);
  }

  /** Helper for CareerPromptTerms. */
  lemma CareerPromptNotExciting(low: string)
    requires low == "w" + "rite about career transition into " + "ai"
    ensures !Contains(low, "exciting")
  {
    AbsentChar(low, "exciting", 1);
  }

  // ---- Properties of the fallback text ----

  /** The fallback text opens with the tone and ends with the closing line. */
  lemma FallbackFrame(platform: string, prompt: string)
    ensures StartsWith(FallbackText(platform, prompt), Tone(prompt))
    ensures EndsWith(FallbackText(platform, prompt), HashtagLine(platform))
    ensures EndsWith(FallbackText(platform, prompt), HASHTAG_SUFFIX)
  {
    var tone, block, line := Tone(prompt), QuotedBlock(prompt), HashtagLine(platform);
    PrefixOfConcat(tone, block);
    StartsWithExtend(tone + block, line, tone);
    SuffixOfConcat(tone + block, line);
    var opening := if platform == "INSTAGRAM" then INSTAGRAM_OPENING + INSTAGRAM_EMOJI else OTHER_OPENING;
    SuffixOfConcat(opening, HASHTAG_SUFFIX);
    EndsWithPrepend(tone + block, line, HASHTAG_SUFFIX);
  }

  /** The prompt appears verbatim, in double quotes between blank lines,
      right after the tone. */
  lemma FallbackQuotesPrompt(platform: string, prompt: string)
    ensures OccursAt(FallbackText(platform, prompt), QuotedBlock(prompt), |Tone(prompt)|)
    ensures OccursAt(FallbackText(platform, prompt), prompt, |Tone(prompt)| + 3)
    ensures Contains(FallbackText(platform, prompt), prompt)
  {
    var tone, block, line := Tone(prompt), QuotedBlock(prompt), HashtagLine(platform);
    OccursMiddle(tone, block, line);
    OccursMiddle("\n\n\"", prompt, "\"\n\n");
    OccursPrepend(tone, block, prompt, 3);
    OccursExtend(tone + block, line, prompt, |tone| + 3);
    ContainsAt(tone + block + line, prompt, |tone| + 3);
  }

  /** The closing line opens with the Instagram phrase exactly for Instagram
      and with the generic phrase for every other platform. */
  lemma HashtagOpening(platform: string)
    ensures StartsWith(HashtagLine(platform), INSTAGRAM_OPENING) <==> platform == "INSTAGRAM"
    ensures StartsWith(HashtagLine(platform), OTHER_OPENING) <==> platform != "INSTAGRAM"
  {
    var h := HashtagLine(platform);
    assert INSTAGRAM_OPENING[0] == 'E' && OTHER_OPENING[0] == 'C';
    if platform == "INSTAGRAM" {
      PrefixOfConcat(INSTAGRAM_OPENING, INSTAGRAM_EMOJI);
      StartsWithExtend(INSTAGRAM_OPENING + INSTAGRAM_EMOJI, HASHTAG_SUFFIX, INSTAGRAM_OPENING);
      assert h[0] == 'E';
    } else {
      PrefixOfConcat(OTHER_OPENING, HASHTAG_SUFFIX);
      assert h[0] == 'C';
    }
  }

  /** The first character of the fallback text tells which tone was chosen. */
  lemma FallbackRevealsTone(platform: string, prompt: string)
    ensures FallbackText(platform, prompt)[0] ==
              if IsExciting(prompt) then 'G' else if IsProfessional(prompt) then 'T' else 'H'
  {
    assert TONE_EXCITING[0] == 'G' && TONE_PROFESSIONAL[0] == 'T' && TONE_DEFAULT[0] == 'H';
  }

  /** For one platform, different prompts give different fallback texts:
      the tone is read off the first character, and the prompt then sits at a
      known position with a known length. */
  lemma FallbackDeterminesPrompt(platform: string, p1: string, p2: string)
    requires FallbackText(platform, p1) == FallbackText(platform, p2)
    ensures p1 == p2
  {
    FallbackRevealsTone(platform, p1);
    FallbackRevealsTone(platform, p2);
    assert Tone(p1) == Tone(p2);
    FallbackQuotesPrompt(platform, p1);
    FallbackQuotesPrompt(platform, p2);
    assert |p1| == |p2|;
  }

  // ---- The platform table and the client/server contract ----

  /** `PLATFORMS` has exactly four entries, each with a positive length
      limit; YouTube declares no image support and LinkedIn no video
      support. The backend knows a platform sentence for exactly these keys. */
  lemma PlatformTable()
    ensures PLATFORMS.Keys == {"LINKEDIN", "INSTAGRAM", "FACEBOOK", "YOUTUBE"}
    ensures forall p :: p in PLATFORMS ==> PLATFORMS[p].maxLength > 0
    ensures PLATFORMS["YOUTUBE"].hasImage.None? && PLATFORMS["LINKEDIN"].hasVideo.None?
    ensures PLATFORMS.Keys == Backend.PLATFORM_GUIDANCE.Keys
  {
  }

  /** Whatever the backend does with a request (reject it, fail, or answer with
      or without a model client), the client ends with a record that echoes
      the request, has an image link exactly for images (one of the sample
      images), the sample clip exactly for videos, and no link otherwise. A
      request the backend rejects as incomplete gets the local fallback. */
  lemma ClientEndToEnd(platform: string, prompt: string, contentType: string,
                       ai: Backend.AiCall, serverId: string, imgIndex: nat, id: string)
    requires imgIndex < |SAMPLE_IMAGES|
    ensures var response := Backend.Respond(Backend.ContentRequest(platform, prompt, contentType), ai, serverId);
            var r := GenerateContent(platform, prompt, contentType,
                                     if response.Ok? then Some(response.content) else None, imgIndex, id);
            && r.platform == platform && r.prompt == prompt && r.contentType == contentType
            && (r.mediaUrl.Some? <==> contentType == IMAGE)
            && (r.mediaUrl.Some? ==> r.mediaUrl.value in SAMPLE_IMAGES)
            && (r.videoUrl == Some(VIDEO_URL) <==> contentType == VIDEO)
            && (r.videoUrl.Some? <==> contentType == VIDEO)
            && ((platform == "" || prompt == "") ==> r.text == FallbackText(platform, prompt))
  {
    assert Backend.IMAGE_URL == SAMPLE_IMAGES[0];
    assert Backend.VIDEO_URL == VIDEO_URL;
  }
}
