# Storyboard generator: a verified model

The application turns a script, or a list of prompts, into a storyboard: one
AI-generated image per prompt. A run works in two steps.

1. For a script, one call to a text model asks for a list of visual prompts.
   For a prompt list, the prompts are its non-blank lines.
2. The images are then requested one after another. Each item of the
   storyboard goes `pending`, then `generating`, then `success` (with a data
   URL) or `error` (with a message).

A failed item can be retried on its own. The generated prompts can be
exported as a text file, and the successful images as a zip archive.

The model has four modules:

- `Types` (`types.dfy`): the aspect ratios, the content source and the
  storyboard item. It also defines the item invariant `Consistent`: an image
  URL is present exactly on success, and an error message exactly on error.
- `JsString` (`js_string.dfy`): the JavaScript built-ins the code relies on,
  as ECMAScript defines them. These are `trim` (ECMAScript whitespace),
  `split` and `join` on a one-character separator, `filter`, and the decimal
  rendering of a number in a template literal.
- `GeminiService` (`gemini_service.dfy`): the remote generation client.
  - The text of the prompt-generation request and the `|| []` fallback on
    its answer.
  - The two image-request templates.
  - Parsing of the reference data URL, including the `TypeError` the chained
    `split` throws.
  - The content parts sent.
  - The loop that picks the first inline image of the answer, and its two
    error messages.
- `App` (`app.dfy`): the application state as class `App`, with
  `HandleGenerate` and `HandleRetryImage`. It also holds the pure functions
  for prompt-list parsing, the prompt export and the zip export.

The remote service is not modelled. Each call's answer is a parameter:
- `stage1` is the prompt-generation answer.
- `stage2(k)` is the answer to the `k`-th image request of a run.
- `reply` is the answer to a retry.

Each answer is either a failed call carrying the thrown value, or the parsed
body. A thrown value is an `Error` with its message, or something else, which
the application reports as "An unknown error occurred.".

A run is specified by three functions:
- `ResolvePrompts` gives the prompts, or the message the run stops with.
- `RunState(init, outcomes, i)` is the storyboard after `i` image requests
  have settled.
- `Outcomes` gives each request's result.

`HandleGenerate` and `HandleRetryImage` are proved against these functions.
They also return the remote calls made and, as ghost values, the
intermediate storyboards. A recorded call holds what was sent: the
prompt-generation request text, or the content parts of an image request.
No image request is recorded when the reference URL cannot be parsed,
because then nothing is sent.

A failed item's `errorMessage` is exactly the thrown `Error`'s message, so it
can be the empty string. The code does not guarantee a non-empty message.

## Model

| member | source | states |
|---|---|---|
| `Types.AspectRatioOptionsComplete` | App.tsx:65 | the offered ratios are the five ratios of the type, each once, and a ratio is determined by its text |
| `JsString.TrimStart` | App.tsx:307 | the result is a suffix of the input; everything removed is whitespace; the result does not start with whitespace |
| `JsString.TrimEnd` | App.tsx:307 | the result is a prefix of the input; everything removed is whitespace; the result does not end with whitespace |
| `JsString.TrimEmptyIffBlank` | App.tsx:285 | a string trims to the empty string if and only if it consists of whitespace only |
| `JsString.Split` | App.tsx:307 | there is at least one field; no field contains the separator; the first field is a prefix of the input |
| `JsString.JoinSplit` | App.tsx:307 | joining the fields of a split with the separator gives back the input |
| `JsString.SplitJoin` | App.tsx:148 | splitting a join of separator-free fields gives back the fields |
| `JsString.SplitWithoutSeparator` | App.tsx:307 | a string without the separator splits into itself alone |
| `JsString.SplitAtFirstSeparator` | App.tsx:307 | the text before the first separator is the first field, followed by the fields of the rest |
| `JsString.Filter` | App.tsx:307 | the result is no longer than the input, and every element kept satisfies the predicate and comes from the input |
| `JsString.FilterConcat` | App.tsx:307 | filtering a concatenation concatenates the filtered parts |
| `JsString.FilterKeepsAll` | App.tsx:307 | a list whose elements all pass is unchanged |
| `JsString.FilterEmptyRejectsAll` | App.tsx:307 | an empty result means every element was rejected |
| `JsString.DecimalString` | App.tsx:165 | the numeral is non-empty and made of digits, has the number as its value (`DigitsValue`), has no leading zero, has one digit exactly below 10, and ends in the last decimal digit |
| `JsString.DigitsValue` | App.tsx:165 | the positional value of a decimal numeral: the independent reference definition against which `JsString.DecimalString` is proved to render the number |
| `JsString.Trim` | App.tsx:285 | `trim`; its meaning is carried by `JsString.TrimStart`, `JsString.TrimEnd` and `JsString.TrimEmptyIffBlank` |
| `JsString.Join` | App.tsx:148 | `join`; its meaning is carried by `JsString.JoinSplit` and `JsString.SplitJoin` |
| `JsString.SplitFirstField` | services/geminiService.ts:58-59 | a split has one field exactly when the separator is absent, and then the field is the input; otherwise the first field is followed by a separator and the fields of the rest |
| `JsString.FirstField` | services/geminiService.ts:58-59 | the first field starts the input, has no separator, and ends at the end of the input or at a separator |
| `JsString.SecondField` | services/geminiService.ts:60 | the second field starts right after the first separator, has no separator, and ends at the end of the input or at a separator |
| `JsString.DecimalStringInjective` | App.tsx:165 | distinct numbers have distinct numerals |
| `GeminiService.PromptRequestLayout` | services/geminiService.ts:20-29 | the request holds the script, a `---` line, the niche, a `---` line and the instruction, unaltered and in that order |
| `GeminiService.GeneratePromptsFromScript` | services/geminiService.ts:52-54 | a failed call stays a failure with the same thrown value; a missing or falsy `prompts` field gives the empty list; otherwise the field's list is returned |
| `GeminiService.ImageTextsEmbedRequest` | services/geminiService.ts:75-78 | both instruction templates contain the aspect-ratio text, the quoted prompt and the style keywords |
| `GeminiService.PromptRequestText` | services/geminiService.ts:20-29 | the request text; its meaning is carried by `GeminiService.PromptRequestLayout` |
| `GeminiService.DefaultImageText` | services/geminiService.ts:75 | the instruction without a reference image; its meaning is carried by `GeminiService.ImageTextsEmbedRequest` |
| `GeminiService.ReferenceImageText` | services/geminiService.ts:77 | the instruction with a reference image; its meaning is carried by `GeminiService.ImageTextsEmbedRequest` |
| `GeminiService.HasReference` | services/geminiService.ts:76 | JavaScript truthiness of the reference URL: present and non-empty; used by `GeminiService.BuildContents` and `GeminiService.ImageRequestParts` |
| `GeminiService.DataUrlToPart` | services/geminiService.ts:57-67 | the parse fails, with the `split`-of-undefined `TypeError`, exactly when the text before the first comma has no `:`; otherwise it is an inline-data part whose payload is absent exactly when the URL has no comma |
| `GeminiService.MediaTypeOf` | services/geminiService.ts:59 | the first `;`-field of the second `:`-field of the header; its meaning is carried by `GeminiService.DataUrlToPartMediaType` and `GeminiService.HeaderMediaType` |
| `GeminiService.PayloadOf` | services/geminiService.ts:60 | the second comma field, if any; its meaning is carried by `GeminiService.DataUrlToPartPayload` |
| `GeminiService.DataUrlToPartMediaType` | services/geminiService.ts:58-59 | the parsed media type is the text after the first `:` of the header, up to the next `;`, `:` or the header's end; the header is the URL's text before its first comma |
| `GeminiService.DataUrlToPartPayload` | services/geminiService.ts:58-60 | the parsed payload is absent exactly without a comma; otherwise it is the text after the first comma up to the next comma or the end |
| `GeminiService.HeaderMediaType` | services/geminiService.ts:59 | in a header with a `:`, the first `;`-field of the second `:`-field starts right after the first `:`, and ends at the header's end or at a `;` or `:` |
| `GeminiService.DataUrlFields` | services/geminiService.ts:58-60 | the comma fields of a data URL are its header and its payload |
| `GeminiService.DataUrlHeaderMediaType` | services/geminiService.ts:59 | the media type is recovered from a data URL header between `:` and `;` |
| `GeminiService.DataUrlRoundTrip` | services/geminiService.ts:57-67 | parsing a formatted data URL gives back its media type and payload |
| `GeminiService.DataUrlWithoutColonFails` | services/geminiService.ts:59 | a URL without `:` fails with the `split`-of-undefined `TypeError` |
| `GeminiService.BuildContents` | services/geminiService.ts:75-85 | without a reference image the request is the default instruction alone; with one it is the image part followed by the style-emulating instruction, or the parse error |
| `GeminiService.FormatDataUrl` | services/geminiService.ts:107 | the data URL of an inline image; its meaning is carried by `GeminiService.DataUrlRoundTrip` and `GeminiService.ImageCallResult` |
| `GeminiService.ImageFromParts` | services/geminiService.ts:103-111 | the result of scanning the answer's parts; its meaning is carried by `GeminiService.ExtractImageUrl` and `GeminiService.ImageFromPartsIgnoresLaterParts` |
| `GeminiService.FirstInlineIndex` | services/geminiService.ts:103-104 | the index is that of the first part with inline data, or the length when none has any |
| `GeminiService.ImageFromPartsIgnoresLaterParts` | services/geminiService.ts:103-109 | parts after the first inline image do not change the result |
| `GeminiService.ExtractImageUrl` | services/geminiService.ts:97-111 | missing parts give the "no content parts" error; parts without inline data give the "no images" error; otherwise the data URL of the first inline image |
| `GeminiService.ImageCallResult` | services/geminiService.ts:69-111 | every successful image result is a `data:` URL |
| `GeminiService.ImageRequestParts` | services/geminiService.ts:75-85 | the content parts an image request sends, or none; its meaning is carried by `GeminiService.ImageRequestCarriesSettings` |
| `GeminiService.ReferenceFails` | services/geminiService.ts:82-83 | a reference is given and its parse throws, before any request; its meaning is carried by `GeminiService.ImageRequestCarriesSettings` |
| `GeminiService.ImageRequestCarriesSettings` | services/geminiService.ts:75-85 | nothing is sent exactly when the reference cannot be parsed; otherwise the last part is an instruction holding the aspect-ratio text, the quoted prompt and the style keywords, preceded by the parsed reference exactly when there is a reference |
| `GeminiService.GenerateImageFromPrompt` | services/geminiService.ts:69-112 | the outcome is the reference-parse error, the call's failure or the extracted image; the parts sent are `ImageRequestParts` of its arguments: nothing exactly when the reference cannot be parsed, otherwise the content parts |
| `App.MessageOf` | App.tsx:296 | the recorded message of a thrown value; its meaning is carried by `App.ScriptSourceResolution` and `App.RunSettlesEachItemByItsOwnOutcome` |
| `App.ParsePromptList` | App.tsx:307 | the non-blank lines of a prompt text; its meaning is carried by `App.ParsedPromptsAreLines`, `App.ParseFirstLine`, `App.NonBlankTextHasPrompt` and `App.ExportParseRoundTrip` |
| `App.IsPromptLine` | App.tsx:307 | the filter test: the line is not blank after trimming; its meaning is carried by `App.ParseSingleLine` and `App.ParsedPromptsAreLines` |
| `App.ExportPrompts` | App.tsx:148 | the exported prompt file; its meaning is carried by `App.ExportParseRoundTrip` |
| `App.ParsedPromptsAreLines` | App.tsx:307 | every parsed prompt is a non-blank, newline-free line of the text |
| `App.ParseSingleLine` | App.tsx:307 | a single line yields itself as a prompt, or nothing when it is blank |
| `App.ParseFirstLine` | App.tsx:307 | the first line's prompt, if any, comes before the prompts of the rest of the text |
| `App.ExportParseRoundTrip` | App.tsx:148 | parsing the exported prompt file gives back any list of non-blank, newline-free prompts |
| `App.NonBlankTextHasPrompt` | App.tsx:310-315 | a non-blank prompt text always yields at least one prompt |
| `App.ParseDropsBlankLines` | App.tsx:307 | an empty line in the middle, and the empty field after a trailing newline, contribute no prompt; for a blank line of any kind see `App.ParseFirstLine` and `App.ParseSingleLine` |
| `App.ParseExample` | App.tsx:307 | `"cat on a roof\n\nfox in snow\n"` yields exactly the two prompts |
| `App.ResolvePrompts` | App.tsx:284-317 | a run that gets past prompt resolution always has at least one prompt |
| `App.BlankSourceRejected` | App.tsx:284-306 | a blank script or a blank prompt text stops the run with its own message and makes no remote call |
| `App.StageOneCalls` | App.tsx:289-291 | the prompt-generation call, made exactly for a non-blank script; its meaning is carried by `App.BlankSourceRejected` and `App.App.HandleGenerate` |
| `App.ScriptSourceResolution` | App.tsx:289-314 | for a non-blank script: a failed call gives the prefixed error, an answer without prompts gives the "did not yield any prompts" error, and otherwise the answer's prompts are used |
| `App.PromptListResolution` | App.tsx:302-315 | a non-blank prompt text always proceeds with its non-blank lines; "no valid prompts" cannot occur |
| `App.GeneratedPromptsAreRunPrompts` | App.tsx:290-293 | generated prompts are shown only for a script, and then they are exactly the prompts the run uses |
| `App.GeneratedPrompts` | App.tsx:278-292 | the prompts shown as generated; its meaning is carried by `App.GeneratedPromptsAreRunPrompts` |
| `App.ScriptExample` | App.tsx:284-325 | a one-sentence script whose answer holds one prompt gives a one-item pending storyboard for that prompt |
| `App.ImageCalls` | App.tsx:327-333 | the image requests of a run: none when the reference URL cannot be parsed, and otherwise one per prompt, in order, carrying that prompt's content parts |
| `App.ImageCallsCarrySettings` | App.tsx:333 | every image request of a run carries the run's style keywords, aspect ratio and reference image, and its own prompt |
| `App.ImageRequest` | App.tsx:352 | the image request one prompt sends with the given settings, none when the reference cannot be parsed; its meaning is carried by `App.App.HandleRetryImage` and `App.ImageCallsCarrySettings` |
| `App.SentCalls` | App.tsx:333 | the call recorded for the parts a request sent, none when nothing was sent; its meaning is carried by `App.App.GenerateImages` and `App.App.HandleRetryImage` |
| `App.InitialStoryboard` | App.tsx:320-324 | one pending item without image per prompt, in order |
| `App.MarkGenerating` | App.tsx:329 | an item marked generating; its meaning is carried by `App.RunStateShape` and `App.RunStepsConsistent` |
| `App.MarkRetrying` | App.tsx:349 | an item marked generating with its error cleared; its meaning is carried by `App.App.HandleRetryImage` |
| `App.Settle` | App.tsx:334-338 | an item settled by its request's outcome; its meaning is carried by `App.RunSettlesEachItemByItsOwnOutcome` and `App.RunEndsAtRest` |
| `App.Outcomes` | App.tsx:333-337 | the outcome of each prompt's image request; its meaning is carried by `App.RunSettlesEachItemByItsOwnOutcome` and `App.RunEndsAtRest` |
| `App.RunState` | App.tsx:327-340 | the storyboard part way through a run; its meaning is carried by `App.RunStepChangesOnlyItsIndex` and `App.RunStateShape` |
| `App.RunStepRecorded` | App.tsx:329-338 | marking item `i` generating and settling it takes the storyboard after `i` steps to the one after `i + 1`, and adds one step to the record |
| `App.RunStepChangesOnlyItsIndex` | App.tsx:327-340 | step `i` of a run changes item `i` only |
| `App.RunStateShape` | App.tsx:319-340 | during a run every item keeps its prompt and the item invariant; earlier items are settled and later ones pending |
| `App.RunSettlesEachItemByItsOwnOutcome` | App.tsx:327-340 | at the end of a run each item holds its own request's image or error message; a failure affects no other item |
| `App.RunStepsConsistent` | App.tsx:329-338 | every storyboard a run passes through satisfies the item invariant |
| `App.RunEndsAtRest` | App.tsx:327-340 | a finished run leaves every item settled and consistent, with a data URL on success |
| `App.SuccessfulImages` | App.tsx:162 | the items exported; its meaning is carried by `App.ExportSelectsEverySuccess` |
| `App.IsExportable` | App.tsx:162 | the filter test: a success with a truthy URL; its meaning is carried by `App.ExportSelectsEverySuccess` |
| `App.ZipFileName` | App.tsx:165 | an archive entry's name; its meaning is carried by `App.ZipFileNamesDistinct` |
| `App.ZipPayload` | App.tsx:164 | an archive entry's data; its meaning is carried by `App.ZipPayloadOfDataUrl` |
| `App.ZipEntries` | App.tsx:160-166 | one entry per successful item with a URL, in order, named `image_<n>.jpeg` from 1, holding the URL's second comma field |
| `App.ZipFileNamesDistinct` | App.tsx:165 | archive entry names never collide |
| `App.ZipPayloadOfDataUrl` | App.tsx:164 | the payload stored for a generated image is exactly its base64 data |
| `App.ExportSelectsEverySuccess` | App.tsx:162 | between operations the archive holds exactly the successful items |
| `App.App.constructor` | App.tsx:259-274 | the application starts with the default settings, no results and no error |
| `App.App.HandleGenerate` | App.tsx:276-342 | a rejected run records its message with an empty storyboard; otherwise the error is cleared, the storyboard is every item settled by its own outcome, the calls are the prompt request (for a script) then `ImageCalls` of the prompts with the current style keywords, aspect ratio and reference, so no image request when the reference cannot be parsed, and each step marks one item generating and then settles it |
| `App.App.GetPromptsToProcess` | App.tsx:281-317 | the prompts to process and the recorded error agree with `ResolvePrompts`; the generated prompts and the remote call made for a script |
| `App.App.GenerateImages` | App.tsx:319-340 | the storyboard ends as the run specification's final state, the calls are `ImageCalls` of the prompts with the current settings, and every step is recorded |
| `App.App.HandleRetryImage` | App.tsx:344-361 | an index out of range or an item not in error changes nothing and calls nothing; otherwise only that item changes, to generating with its error cleared and then settled by the retry's outcome, after the one image request its settings send, or none when the reference cannot be parsed |

## Left out

- The React user interface is not modelled: rendering, the settings setters, buttons, the progress text and `isLoadingImages`.
- File uploads through `FileReader` are not modelled. The reference image URL and the text fields are plain fields of `App`.
- The text model and the image model are not modelled. Each answer is a parameter. This covers the SDK calls, the `API_KEY` check at module load, the model names and the response schema.
- `JSON.parse` is not modelled. A malformed body is one more failed call.
- A `prompts` field that is truthy but not an array of strings is not modelled.
- The zip export stops at the list of archive entries. It does not model JSZip's base64 decoding, the Blob, or the download.
- The prompt export stops at the joined text. It does not model the Blob or the download.
- `console.error` logging is left out.
- An inline image part whose `data` or `mimeType` is `undefined` is not modelled. Both are always strings here, and JavaScript would render `undefined` into the data URL.
- Strings are sequences of Unicode scalar values, not of UTF-16 code units as in JavaScript. A lone surrogate cannot be represented. The operations modelled behave the same on both, because every separator and every trimmed whitespace character is a single character of the Basic Multilingual Plane.
- Concurrency is not modelled. A retry started while a run is still in progress, or two runs at once, interleave React state updates. The model treats each operation as atomic, and states the intermediate storyboards separately.
- What the service does with an inline part that has no payload is not modelled. A reference URL without a comma gives such a part, and the model records the request as sent.
