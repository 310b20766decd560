# SocialSpark content generation, modelled in Dafny

SocialSpark is a social-media post generator. The web client calls the
backend's `POST /generate` endpoint with a platform, a prompt and a content
type. The backend builds a platform-specific system prompt, asks a language
model for the post text (or uses a fixed fallback sentence when no model
client is configured), attaches placeholder media links and returns a
content record. When the backend cannot be reached, the client makes up a
record of its own: a tone sentence picked by keywords in the prompt, the
quoted prompt and a hashtag line.

This project models both sides:

- `text.dfy` (module `Text`): ASCII lower-casing, the substring test that
  `includes` and Python's `in` perform, and prefix, suffix and occurrence
  facts used to say where phrases sit in generated text.
- `content.dfy` (module `Content`): the content record both sides return,
  and an `Option` type for `null`/`None` fields.
- `backend.dfy` (module `Backend`): the `generate_content` handler of
  `backend/main.py`. That covers request validation, the system prompt, the
  three outcomes of the model call, the media links and the echoed fields.
- `mock_api.dfy` (module `MockApi`): `generateContent` of `src/lib/mockApi.js`.
  That covers the `PLATFORMS` table, the sample media, tone selection, the
  fallback text and record, and how the client uses the backend's answer.

The step-by-step code is written as methods proved equal to reference
functions. `MockApi.SelectTone` does the overwriting tone assignments.
`Backend.BuildSystemPrompt` does the `if`/`elif` chain of `+=`.
`Backend.GenerateContent` sets both links to `None` and then overwrites
one. The listed properties are then proved as lemmas about those functions.

The outcome of the model call is an input (`Backend.AiCall`). It is one of:
no client configured, a reply text, or an exception with its message. The
random record id and the random sample-image index are also parameters.

## Model

| member | source | states |
|---|---|---|
| Text.ToLower | src/lib/mockApi.js:66-67 | lower-casing keeps the length, lower-cases each letter, leaves other characters alone, and leaves no upper-case letter |
| Text.ContainsAt | src/lib/mockApi.js:66-67 | an occurrence of the term at any position makes the substring test succeed |
| Text.ContainsWitness | src/lib/mockApi.js:66-67 | a successful substring test has an occurrence at some position, so the recursive test and "occurs at some index" agree |
| Text.AbsentChar | src/lib/mockApi.js:66-67 | a term cannot be found when one of its characters occurs nowhere in the searched text |
| Text.ToLowerConcat | src/lib/mockApi.js:66-67 | lower-casing a concatenation is the concatenation of the lower-cased parts |
| Text.ToLowerIdempotent | src/lib/mockApi.js:66-67 | lower-casing an already lower-cased prompt changes nothing |
| MockApi.SelectTone | src/lib/mockApi.js:66-71 | the default tone, overwritten by the professional tone and then by the exciting tone, gives exactly the reference tone: exciting over professional over default |
| MockApi.ExcitingWins | src/lib/mockApi.js:66-71 | an exciting term in any letter case gives the exciting tone, even with a professional term before or after it |
| MockApi.ProfessionalWithoutExciting | src/lib/mockApi.js:66-70 | a professional term with no exciting term gives the professional tone |
| MockApi.DefaultTone | src/lib/mockApi.js:69-71 | the tone is the default sentence exactly when neither test succeeds |
| MockApi.TermAnywhere | src/lib/mockApi.js:66-67 | a trigger term in any mix of cases, anywhere in the prompt and even inside a longer word, makes its test succeed |
| MockApi.NetworkReadsProfessional | src/lib/mockApi.js:66-71 | "network" contains "work" and no exciting term, so it gets the professional tone |
| MockApi.NewsReadsExciting | src/lib/mockApi.js:67-71 | "news" contains "new", so it gets the exciting tone |
| MockApi.CareerPromptScenario | src/lib/mockApi.js:66-78 | the LinkedIn prompt "Write about career transition into AI" gets the professional tone, its text contains "career", and it ends with the generic closing line |
| MockApi.FallbackFrame | src/lib/mockApi.js:78 | the fallback text starts with the tone and ends with the closing line, hence with the fixed hashtag-and-note suffix |
| MockApi.FallbackQuotesPrompt | src/lib/mockApi.js:78 | right after the tone comes a blank line, the prompt in double quotes and a blank line; the prompt appears verbatim at a known position |
| MockApi.HashtagOpening | src/lib/mockApi.js:78 | the closing line opens with "Enjoying the process!" if and only if the platform is INSTAGRAM, and with "Check this out!" otherwise |
| MockApi.FallbackRevealsTone | src/lib/mockApi.js:69-78 | the first character of the fallback text identifies the chosen tone |
| MockApi.FallbackDeterminesPrompt | src/lib/mockApi.js:78 | on one platform, equal fallback texts come from equal prompts |
| MockApi.Fallback | src/lib/mockApi.js:73-82 | the fallback record echoes id, platform, type and prompt; it has an image link exactly for IMAGE, taken from the sample images; it has the sample clip exactly for VIDEO; never both |
| MockApi.GenerateContent | src/lib/mockApi.js:41-83 | the backend's record when one arrives, otherwise the local fallback record with the fallback text and the echoed fields |
| MockApi.PlatformTable | src/lib/mockApi.js:1-32 | four platform keys, each with a positive length limit; YouTube has no image flag, LinkedIn no video flag; the backend has a platform sentence for exactly these keys |
| MockApi.ClientEndToEnd | src/lib/mockApi.js:41-83 | whatever the backend does, the client ends with a record that echoes the request, has an image link exactly for IMAGE and the clip exactly for VIDEO; a request the backend rejects gets the local fallback text |
| Backend.BuildSystemPrompt | backend/main.py:63-76 | the chain of `+=` steps builds exactly the reference system prompt: preamble, the platform's sentence, then the image sentence |
| Backend.Respond | backend/main.py:54-111 | 400 "Missing platform or prompt" exactly for an empty platform or prompt; 500 with the exception text exactly when the model call raises; otherwise a record echoing the request, with the model's text or the fallback text, the Unsplash link exactly for IMAGE, the clip exactly for VIDEO, never both |
| Backend.GenerateContent | backend/main.py:54-111 | the step-by-step handler returns the reference response; it builds a system prompt exactly when the request is not rejected, and that prompt is the reference one |
| Backend.SystemPromptOpening | backend/main.py:64 | every system prompt starts with the fixed preamble that embeds platform and prompt |
| Backend.SystemPromptNamesPlatform | backend/main.py:64 | every system prompt contains the platform name |
| Backend.SystemPromptQuotesPrompt | backend/main.py:64 | every system prompt contains the prompt in single quotes |
| Backend.GuidanceInjective | backend/main.py:66-73 | the four platform sentences are pairwise different |
| Backend.ExactlyOneGuidance | backend/main.py:66-73 | after the preamble comes the platform's own sentence, and no other platform's; a platform outside the four gets none |
| Backend.ImageSentenceLast | backend/main.py:75-76 | the prompt ends with the image-generator sentence if and only if the type is IMAGE, and then that sentence comes right after the platform sentence |
| Backend.FallbackTextQuotesPrompt | backend/main.py:86-88 | the no-client text contains the prompt in double quotes |
| Backend.FallbackTextNamesPlatform | backend/main.py:86-88 | the no-client text contains the platform name |
| Backend.FallbackTextPromptAt | backend/main.py:86-88 | the prompt sits right after the fixed opening and its quote mark |
| Backend.FallbackTextDeterminesPrompt | backend/main.py:86-88 | for one platform, equal no-client texts come from equal prompts |

## Left out

- Network and JSON: the `fetch` call, status checks and body parsing on the client side are one input, the backend's record or nothing. Any failure gives nothing and so the fallback.
- `createdAt` (the current time), the two-second `setTimeout` delay and the `console.error` logging are left out, because they depend on a clock or do only I/O.
- The random record ids (`Math.random` on the client, `os.urandom` on the backend) and the random sample-image index are parameters. The model therefore states facts that hold for every id and every index.
- The Gemini client is not modelled. Its construction from `GEMINI_API_KEY`, the `generate_content` call and the model name are replaced by the `AiCall` input: no client, a reply text, or an exception message.
- The FastAPI application is left out because it is framework setup. That means the CORS middleware, `load_dotenv`, the `home` health endpoint, the uvicorn entry point and the server-side `print` logging.
- The request-body check of the web framework is not modelled. It rejects missing or non-string fields with a 422 before the handler runs. The model starts from a request whose three fields are strings.
- Text.ToLower: lower-cases ASCII letters only, while JavaScript's `toLowerCase` also maps non-ASCII letters. The trigger terms are ASCII, but a non-ASCII prompt letter that lower-cases to an ASCII letter is not captured.
- The emoji in the two fallback texts appear in the source as mis-decoded UTF-8 byte sequences. The model uses the characters those bytes encode: U+1F4F8 and U+2728 in the Instagram line, U+2728 at the head of the backend text.
- The React components, the history sidebar and the templates are left out, because they only display or pass on these records.
- Platform and content type are plain strings in the code, not a closed enumeration. The model follows the code: the backend accepts any non-empty platform string and adds no platform sentence for unknown ones.
