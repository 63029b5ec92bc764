# Prompt and image relays in Dafny

This project models the two server-side relay handlers of a single-user web
application that turns a short description into a detailed image prompt and then
into an image. The handlers are Supabase Edge Functions that stand between the web
client and the Gemini API.
Their decisions are modelled; the I/O they do becomes inputs (see "Left out"):

- **generate-prompt** does the following:
  - It answers a CORS preflight.
  - It validates the description and type-checks `style`.
  - It checks that the API key is configured.
  - It composes one instruction: the fixed system prompt, a blank line, then a user message. The user message has the trimmed description, one line per optional attribute and a closing sentence.
  - It forwards the instruction to `gemini-1.5-flash`.
  - It answers with the first candidate text, trimmed.
- **generate-image** runs the same preflight, validation, key and status chain. It forwards the trimmed prompt to `gemini-2.5-flash-image`. It then loops over the parts of the first candidate:
  - Each part with inline data overwrites the image URL with `data:<mimeType>;base64,<data>`.
  - Each other part with a truthy text overwrites the caption.
  - Without an image, the relay answers with an error.

Each handler is split into two stages:

- A *plan* covers everything before `fetch`: answer at once (`Respond`), or make one call (`Call`).
- A *finish* covers everything after `fetch`.

"No upstream request is made" is stated relationally: when the plan is `Respond`, the handler's answer is the same whatever the upstream reply would have been.

The modules:

- `Wrappers`: `Option`.
- `Js`: the JavaScript semantics the handlers rely on:
  - truthiness of a JSON value and its template-literal rendering;
  - `String.prototype.trim` over the ECMAScript WhiteSpace and LineTerminator characters;
  - splitting a text into lines, used to state the layout of the composed prompt.
- `Relay`: what both handlers share:
  - the response, the CORS and JSON headers, and the fixed messages;
  - the inputs that stand for I/O (parsed request body, environment key, upstream reply);
  - the classification of a failed upstream status.
- `GeneratePrompt`: the prompt relay. It has no loop or mutable variable, so it is modelled with functions.
- `GenerateImage`: the image relay.
  - Its part loop is the method `ScanParts`, with a `while` loop proved equal to the specification function `ScanSpec`.
  - `ScanSpec` is characterised by "last one wins" lemmas.
  - The handler method `HandleImage` runs the loop and is proved equal to the function `ImageResponse`.

The client declares every optional attribute as text (the `PromptOptions` type at
`src/lib/prompt-options.ts:29-36`), but the relays do not rely on that, and the model
follows what the relay code does:

- Only `style` is type-checked. `mood`, `lighting`, `colorTone` and `cameraAngle` may be any JSON value. A falsy one leaves its line empty. A truthy one that converts to a string is rendered into its line. A truthy one whose conversion throws ends in the catch-all 500 "An unexpected error occurred" before any upstream call.
- A successful upstream reply whose first text is missing or blank gets 500 "Failed to generate prompt. Please try again." The "Service temporarily unavailable" answer comes only from an upstream status of 500 or more.

## Model

| member | source | states |
|---|---|---|
| Js.TrimStartSpec | supabase/functions/generate-prompt/index.ts:18 | TrimStart keeps the longest suffix that does not start with whitespace, and everything it drops is whitespace |
| Js.TrimEndSpec | supabase/functions/generate-prompt/index.ts:18 | TrimEnd keeps the longest prefix that does not end with whitespace, and everything it drops is whitespace |
| Js.Trim | supabase/functions/generate-prompt/index.ts:28 | `trim()` never lengthens a string and leaves no whitespace at either end |
| Js.TrimIsTrimStartThenEnd | supabase/functions/generate-prompt/index.ts:28 | trimming from either end equals dropping the leading whitespace, then the trailing whitespace |
| Js.BlankIffAllWhitespace | supabase/functions/generate-prompt/index.ts:18 | `s.trim().length === 0` holds exactly when every character of `s` is whitespace |
| Js.RejectsText | supabase/functions/generate-prompt/index.ts:18 | the guard `!v \|\| typeof v !== "string" \|\| v.trim().length === 0` rejects exactly what is not a string with a non-whitespace character |
| Js.LinesOfLine | supabase/functions/generate-prompt/index.ts:69 | a text without a line feed is a single line |
| Js.LinesOfJoin | supabase/functions/generate-prompt/index.ts:69-76 | the lines of `a + "\n" + b` are the lines of `a` followed by the lines of `b` |
| Js.LinesOfJoinLines | supabase/functions/generate-prompt/index.ts:69-76 | joining single-line texts with line feeds and splitting again gives the same texts back |
| Js.LinesOfParagraphs | supabase/functions/generate-prompt/index.ts:79 | `a + "\n\n" + b` starts with `a`; its lines are those of `a`, one empty line, then those of `b` |
| Relay.Classify | supabase/functions/generate-prompt/index.ts:106-149 | a failed status maps to: 429 → 429 "Rate limit exceeded"; 401 or 403 → 500 "Service authentication failed"; ≥ 500 → 503 "Service temporarily unavailable"; any other → 500 with the relay's own message; the answer is an error body with the JSON headers and never depends on the upstream body |
| Relay.SameFailurePolicy | supabase/functions/generate-image/index.ts:69-112 | for every failed status the two relays answer with the same status; the messages agree exactly outside the generic band |
| Relay.Preflight | supabase/functions/generate-prompt/index.ts:10-12 | the preflight answer is 200 with a null body, allows any origin and has no JSON content type |
| Relay.IsOk | supabase/functions/generate-prompt/index.ts:106 | an ok status never falls in the 429, 401/403 or 5xx bands |
| GeneratePrompt.Line | supabase/functions/generate-prompt/index.ts:70-74 | an attribute line is empty exactly when the attribute is falsy; otherwise it is the heading followed by the attribute's rendering |
| GeneratePrompt.RejectsStyle | supabase/functions/generate-prompt/index.ts:31 | the style guard rejects exactly a truthy value that is not a string |
| GeneratePrompt.UserMessage | supabase/functions/generate-prompt/index.ts:69-76 | the user message starts with "Description: ", the trimmed description and a line feed, and ends with the closing sentence |
| GeneratePrompt.Instruction | supabase/functions/generate-prompt/index.ts:79 | the instruction is the system prompt, "\n\n", then the user message, each at its computed position |
| GeneratePrompt.PromptPlan | supabase/functions/generate-prompt/index.ts:10-79 | OPTIONS gets the preflight. A body that cannot be read or is JSON null gets 500 "unexpected". Every other early answer is a 400 or 500 error: description required, invalid style, configuration error or unexpected. The call is made exactly when the description is a non-blank string, `style` is not a truthy non-string, the key is non-empty and every attribute converts to a string (one that throws while the user message is composed is the catch-all 500). The call carries the key and the trimmed description |
| GeneratePrompt.Outbound | supabase/functions/generate-prompt/index.ts:79-93 | the request goes to `gemini-1.5-flash` with the key; its text is the system prompt's lines, one empty line, then the user message's lines |
| GeneratePrompt.PromptFinish | supabase/functions/generate-prompt/index.ts:81-169 | a failed fetch or an unreadable reply gets 500 "unexpected"; a failed status gets the shared classification with "Failed to generate prompt". Status is 200, 429, 500 or 503 with the JSON headers. A prompt body comes exactly with 200, and exactly when upstream replied ok with a first text that is a non-blank string; it is that text trimmed, non-empty and with no whitespace at either end. Every other answer is one of the five upstream-side errors |
| GeneratePrompt.HandlePrompt | supabase/functions/generate-prompt/index.ts:9-180 | every answer has status 200, 400, 429, 500 or 503. The null body comes exactly for OPTIONS, with the CORS headers only; every other answer has the JSON headers. 200 comes only with the null body or a prompt, and a prompt is never empty or padded. Errors are among the eight fixed messages |
| GeneratePrompt.RejectedWithoutUpstream | supabase/functions/generate-prompt/index.ts:10-52 | when the plan answers at once, the handler's answer is the same for any two upstream replies, so no request is made |
| GeneratePrompt.DescriptionRequiredFirst | supabase/functions/generate-prompt/index.ts:18-26 | for any read body, the answer is 400 "Description is required and cannot be empty" exactly when the description is not a non-blank string, whatever the key and upstream |
| GeneratePrompt.OnlyStyleIsChecked | supabase/functions/generate-prompt/index.ts:31-39 | with a valid description, 400 "Invalid style parameter" comes exactly when `style` is a truthy non-string (one that renders or one that does not); the other attributes never cause it |
| GeneratePrompt.MissingKey | supabase/functions/generate-prompt/index.ts:42-52 | with valid input, 500 "Service configuration error" comes exactly when the key is missing or empty |
| GeneratePrompt.UnrenderableAttribute | supabase/functions/generate-prompt/index.ts:69-76 | with valid input and a key, the call is made exactly when every attribute converts to a string; when one throws, the answer is 500 "An unexpected error occurred" whatever upstream would say |
| GeneratePrompt.UserMessageLayout | supabase/functions/generate-prompt/index.ts:69-76 | line by line the user message is: "Description: " and the description; the Style, Mood, Lighting, Color tone and Camera angle lines in that order (empty for a falsy attribute); an empty line; the closing sentence |
| GeneratePrompt.LineIsOneLine | supabase/functions/generate-prompt/index.ts:70-74 | an attribute line spans one line when the rendered attribute does |
| GeneratePrompt.InstructionLayout | supabase/functions/generate-prompt/index.ts:79 | line by line the instruction is the system prompt, one empty line, then the user message |
| GeneratePrompt.UpstreamFailureNotEchoed | supabase/functions/generate-prompt/index.ts:106-149 | once the call is made, a failed status gets the shared classification with "Failed to generate prompt"; two different upstream bodies give the same answer |
| GeneratePrompt.SuccessIsTrimmedFirstText | supabase/functions/generate-prompt/index.ts:151-169 | an ok reply whose first text is a non-blank string gets 200 with `{prompt}` equal to that text trimmed |
| GeneratePrompt.NoUsableText | supabase/functions/generate-prompt/index.ts:154-165 | a missing, null or blank first text gets 500 "Failed to generate prompt", never an empty prompt; a text that is not a string makes `trim` throw, which gets the catch-all 500 |
| GeneratePrompt.UnreadableBody | supabase/functions/generate-prompt/index.ts:170-179 | a request body that cannot be read, or is JSON null, gets 500 "An unexpected error occurred" |
| GenerateImage.ImagePlan | supabase/functions/generate-image/index.ts:10-56 | OPTIONS gets the preflight. A body that cannot be read or is JSON null gets 500 "unexpected". Every other early answer is a 400 or 500 error: prompt required, configuration error or unexpected. The call is made exactly when the prompt is a non-blank string and the key is non-empty. It goes to `gemini-2.5-flash-image` with exactly the trimmed prompt as its text |
| GenerateImage.DataUri | supabase/functions/generate-image/index.ts:127 | the URL is "data:", the rendered media type, ";base64," and the rendered payload, each at its computed position |
| GenerateImage.Step | supabase/functions/generate-image/index.ts:123-130 | one part throws exactly when it is null or undefined or its inline data does not convert to a string; otherwise it changes at most one variable: the image for a part with inline data (to its data URI), the caption for a part without inline data whose text is truthy (to that text) |
| GenerateImage.ScanSpec | supabase/functions/generate-image/index.ts:120-131 | both variables start null; whatever the scan keeps as the image starts with "data:", and whatever it keeps as the caption is truthy |
| GenerateImage.ScanParts | supabase/functions/generate-image/index.ts:120-131 | the loop that overwrites `imageUrl` and `textContent` ends in the state `ScanSpec` gives for the whole list, or throws where `ScanSpec` does |
| GenerateImage.ThrowingStops | supabase/functions/generate-image/index.ts:123-124 | once a prefix of the parts has thrown, the whole scan has thrown |
| GenerateImage.ScanThrowsIffThrowingPart | supabase/functions/generate-image/index.ts:123-127 | the scan throws exactly when some part is null or undefined, or carries inline data that does not convert to a string |
| GenerateImage.LastImageWins | supabase/functions/generate-image/index.ts:123-127 | when no part throws, the image URL is built from the last part carrying inline data |
| GenerateImage.NoImagePart | supabase/functions/generate-image/index.ts:120-127 | when no part throws and none carries inline data, the image URL stays null |
| GenerateImage.LastCaptionWins | supabase/functions/generate-image/index.ts:123-131 | the caption is the text of the last part that has no inline data and a truthy text; a part with both contributes only its image |
| GenerateImage.NoCaptionPart | supabase/functions/generate-image/index.ts:121-131 | without such a part the caption stays null |
| GenerateImage.PngExample | supabase/functions/generate-image/index.ts:127 | `image/png` with payload `X` followed by a caption part gives `data:image/png;base64,X` and that caption |
| GenerateImage.PartsOf | supabase/functions/generate-image/index.ts:118 | a present parts list is used as it is, a missing or falsy one is the empty list, and only a non-iterable value has no list |
| GenerateImage.Answer | supabase/functions/generate-image/index.ts:133-146 | 200 comes exactly when the scan finished with an image; it carries the URL and the caption (null when none). Otherwise the answer is 500: "unexpected" exactly when the scan threw, else "Failed to generate image" |
| GenerateImage.ImageFinish | supabase/functions/generate-image/index.ts:44-146 | a failed fetch, an unreadable or null reply, or a parts value that is not iterable gets 500 "unexpected"; a failed status gets the shared classification with "Failed to generate image". Status is 200, 429, 500 or 503 with the JSON headers. An image body comes exactly with 200, and only after an ok, parsed reply whose parts scan to that URL and caption. Errors are among the five upstream-side messages |
| GenerateImage.ImageResponse | supabase/functions/generate-image/index.ts:9-157 | every answer has status 200, 400, 429, 500 or 503. The null body comes exactly for OPTIONS, with the CORS headers only; every other answer has the JSON headers. 200 comes only with the null body or an image whose URL starts with "data:". Errors are among the seven fixed messages |
| GenerateImage.HandleImage | supabase/functions/generate-image/index.ts:9-157 | the handler, with its part loop run as a loop, answers exactly what `ImageResponse` specifies |
| GenerateImage.ImageRejectedWithoutUpstream | supabase/functions/generate-image/index.ts:10-41 | when the plan answers at once, the handler's answer is the same for any two upstream replies, so no request is made |
| GenerateImage.PromptRequiredFirst | supabase/functions/generate-image/index.ts:18-26 | for any read body, the answer is 400 "Prompt is required and cannot be empty" exactly when the prompt is not a non-blank string |
| GenerateImage.ImageMissingKey | supabase/functions/generate-image/index.ts:31-41 | with a valid prompt, 500 "Service configuration error" comes exactly when the key is missing or empty |
| GenerateImage.ImageFailureNotEchoed | supabase/functions/generate-image/index.ts:69-112 | once the call is made, a failed status gets the shared classification with "Failed to generate image"; two different upstream bodies give the same answer |
| GenerateImage.ImageFromLastInlinePart | supabase/functions/generate-image/index.ts:118-146 | an ok reply whose parts include inline data and none of which throws gets 200 with the data URI of the last such part, and the caption of the last caption part (null when none) |
| GenerateImage.NoImageIsFailure | supabase/functions/generate-image/index.ts:118-142 | an ok reply without inline data and without throwing parts, or without a parts list, gets 500 "Failed to generate image", even when text parts exist |
| GenerateImage.ThrowingPartIsUnexpected | supabase/functions/generate-image/index.ts:123-156 | a part that is null or undefined, or whose inline data does not convert to a string, makes the loop throw, which gets the catch-all 500 |
| GenerateImage.ImageUnreadableBody | supabase/functions/generate-image/index.ts:147-156 | a request body that cannot be read, or is JSON null, gets 500 "An unexpected error occurred" |

## Left out

- `fetch`, `Deno.env.get`, `console.error` and the runtime's JSON parsing and serialisation are I/O. They become inputs:
  - the parsed request body (`RequestJson`);
  - the key lookup (`Option<string>`);
  - the upstream outcome (`Upstream`), including a failed fetch and an unreadable reply.
- The error logging has no effect on any answer and is not modelled.
- The upstream URL and the generation settings are not modelled. These are `temperature`, `maxOutputTokens` and `responseModalities`, which are only forwarded. The upstream request keeps only the model, the key and the text.
- The reply's JSON path is not navigated. The prompt relay's path is reduced to the value it reaches (`Generated.firstText`). The image relay's path is reduced to `PartsField`, with a string counted as a list of parts without data or text.
- Template-literal rendering of a non-string value is an input. A value that converts is `OtherTruthy(shown)`. A value whose conversion throws, such as the parsed object `{"toString": 1}`, is `Unrenderable`, and the inline data of an image part holds `None` for such a property. Which string an object or array renders to is not computed.
- A string caption is kept exactly. A caption of any other type is kept only as a `JsValue`, that is, as its rendering, while the relay serialises the JSON value itself.
- The CORS header values are a constant map, with no logic in them.
- The React pages and components, the client hooks `usePromptForge` and `useAuth`, the history sidebar and the option lists are not part of this model.
- GeneratePrompt.Outbound: states the system prompt only through its lines, not as fourteen literal lines. The proof that each literal holds no line feed is too costly for the verifier.
- GeneratePrompt.UserMessageLayout: is stated only when the description and the rendered attributes hold no line feed. A multi-line value spreads over several lines of the message, and its layout is not stated.
- Relay.Classify: takes any integer status. It does not restrict it to the 200-599 range that `fetch` produces.
