# Thumbnail prompt builders: a Dafny model

This project models the server side of a YouTube-thumbnail generator. The
repository has two flows, and each turns a user's request into a prompt for a
hosted image model, calls that model three times and returns the three images:

- the **text-origin flow** builds one prompt string from a video topic, optional
  overlay text ("thumbnail text") and an aspect ratio;
- the **image-origin flow** builds a two-segment prompt: the reference image as
  a media segment, then a text segment built from a description, optional overlay
  text and an aspect ratio.

Both flows share some rules. The aspect ratio maps to the phrase
"16:9 landscape" or "1:1 square". Overlay text counts only when it is truthy,
so an empty string acts like an absent one. The API key is the caller's key
when it is non-empty and the environment's key otherwise. The output record's
`thumbnail1..3` come from the three generate calls by position.

Modules:

- `Options`: optional fields, and JavaScript truthiness of an optional string.
- `Strings`: `OccursAt` (a text sits at an index), `Contains` (it sits at some
  index) and `EndsWith`, with lemmas about concatenations.
- `Prompts`: the aspect-ratio enum, its default and its phrase, and the wording
  both flows share: the persona, the six key principles and clause 7, "Text
  Integration".
- `Generation`: API-key resolution, the generate request (model, prompt,
  config), and the fan-out of three calls assembled into the output record.
- `TextFlow`, `ImageFlow`: the two flows.

The fixed wording of each prompt is a record value: `TextFlow.SourceWording` and
`ImageFlow.SourceWording`. Each holds the source's exact text, cut at the points
where the flow splices in the ratio phrase, the topic or description, and the
overlay text. `TextPrompt(w, …)` and `ImageText(w, …)` do the splicing in the
source's order. `BuildTextPrompt` and `BuildImagePrompt` apply them to the
source's wording. The layout lemmas hold for every wording, so they hold for
the source's wording too. Each lemma that needs a fact about the literal text
has a companion lemma that checks it on the source's wording, for example that
two clauses differ at some index.

The image model is a function parameter,
`generate: (nat, GenerateRequest<P>) -> GenerateResponse`. It is indexed by the
call's issue position, so three identical requests may return three different
images. The environment's `GOOGLE_API_KEY` is the parameter `envKey`.

Three behaviours of the code that a reader might not expect:

- Without overlay text only the text flow tells the model to render no text
  (src/ai/flows/generate-thumbnail-from-text.ts:62-64). The image flow's `if`
  has no else branch (src/ai/flows/generate-thumbnail-from-image-and-text.ts:64-67),
  so it adds no text-related clause at all.
- The ratio phrase is chosen by a ternary that maps every ratio other than
  `landscape` to "1:1 square".
- The flows do not check that the topic or description is non-empty. Only the
  UI form asks for at least 10 characters, so the model has no such precondition.

## Model

| member | source | states |
|---|---|---|
| `Prompts.ResolveAspectRatio` | src/ai/flows/generate-thumbnail-from-text.ts:16 | An absent aspect ratio becomes `landscape`; a given one is kept, as the input schema's default declares. The image flow's schema declares the same default. |
| `Prompts.AspectRatioPhrase` | src/ai/flows/generate-thumbnail-from-text.ts:45 | The phrase is "16:9 landscape" exactly when the ratio is landscape, and "1:1 square" exactly when it is not. So the two ratios never share a phrase. The image flow's line 50 is the same mapping. |
| `Prompts.BasePromptStatesRatio` | src/ai/flows/generate-thumbnail-from-text.ts:47-57 | The base prompt carries the ratio phrase right after its opening, in principle 1, and ends with the principles. |
| `Generation.ResolveApiKey` | src/ai/flows/generate-thumbnail-from-text.ts:42 | The key is the caller's key when it is truthy and the environment's key otherwise. The result is truthy exactly when one of the two is. The image flow's line 47 is the same rule. |
| `Generation.FlowConfig` | src/ai/flows/generate-thumbnail-from-text.ts:40-43 | The config asks for IMAGE and TEXT modalities. Its key is the caller's non-empty key, or else the environment's. |
| `Generation.IssueCalls` | src/ai/flows/generate-thumbnail-from-text.ts:80-84 | Exactly three calls are issued, all with the same model, prompt and config. |
| `Generation.Assemble` | src/ai/flows/generate-thumbnail-from-text.ts:86-90 | `thumbnail1`, `thumbnail2` and `thumbnail3` hold the media urls of the first, second and third result. |
| `Generation.FlowRequest` | src/ai/flows/generate-thumbnail-from-text.ts:81 | Definition of the request each call sends: the model id, the prompt and `FlowConfig`'s config. Its properties are stated by `FlowConfig`, `IssueCalls` and the two flows' contracts. |
| `Generation.Dispatch` | src/ai/flows/generate-thumbnail-from-text.ts:80-90 | `thumbnailN` is the media url of the call issued N-th, with the flow's single request. |
| `Generation.DispatchDependsOnlyOnIssuedCalls` | src/ai/flows/generate-thumbnail-from-text.ts:80-90 | Two generators that agree on the three issued calls give the same output. Nothing else is consulted. |
| `Generation.ValuesInIssueOrder` | src/components/main-app.tsx:65 | The list the caller gets from `Object.values` has three entries, and entry i is the media url of the call issued i-th. |
| `TextFlow.TextPrompt` | src/ai/flows/generate-thumbnail-from-text.ts:47-77 | Definition of the prompt template over a wording record: base prompt, the clause chosen by the overlay text, the Instructions paragraph, the topic, and the optional overlay line. Its properties are stated by `TextPromptLayout`, `TextPromptStatesAspectRatio`, `TextPromptExactlyOneClause`, `TextPromptEmptyOverlayIsAbsent`, `TextPromptEmbedsOverlayVerbatim` and `TextPromptContainsRequest`. |
| `TextFlow.BuildTextPrompt` | src/ai/flows/generate-thumbnail-from-text.ts:45-77 | Definition of the flow's prompt: `TextPrompt` applied to `SourceWording`, the record holding the template's exact text, and to the ratio's phrase. Its properties are stated by `BuildTextPromptExactlyOneClause`, `RedBicycleExample` and the lemmas about `TextPrompt`, which hold for every wording. |
| `TextFlow.TextPromptLayout` | src/ai/flows/generate-thumbnail-from-text.ts:47-77 | The prompt is, in order and back to back: the base prompt, one clause, the Instructions paragraph, the topic, and the overlay line, which ends the prompt. |
| `TextFlow.TextPromptStatesAspectRatio` | src/ai/flows/generate-thumbnail-from-text.ts:52-70 | The ratio phrase occurs in principle 1 and again, later, in the Instructions paragraph. |
| `TextFlow.TextPromptExactlyOneClause` | src/ai/flows/generate-thumbnail-from-text.ts:59-65 | After principle 6 the prompt has clause 7 if and only if the overlay text is truthy. It has the "leave space" clause if and only if the overlay text is not truthy. |
| `TextFlow.TextPromptEmptyOverlayIsAbsent` | src/ai/flows/generate-thumbnail-from-text.ts:59-77 | Empty overlay text gives the same prompt as absent overlay text. That prompt has the "leave space" clause and ends with the topic line, with no "Text to include" line. |
| `TextFlow.TextPromptEmbedsOverlayVerbatim` | src/ai/flows/generate-thumbnail-from-text.ts:74-77 | Truthy overlay text selects clause 7. The prompt then ends with the "Text to include" lead, the overlay text unescaped, and a closing quote. |
| `TextFlow.SourceWordingClausesDiverge` | src/ai/flows/generate-thumbnail-from-text.ts:60-64 | The flow's clause 7 and its "leave space" clause differ at some index. |
| `TextFlow.TextPromptContainsRequest` | src/ai/flows/generate-thumbnail-from-text.ts:45-77 | The prompt contains the ratio phrase and the topic. With truthy overlay text it contains clause 7 and the overlay text verbatim; otherwise it contains the "leave space" clause. |
| `TextFlow.RedBicycleExample` | src/ai/flows/generate-thumbnail-from-text.ts:45-77 | A square request for "a red bicycle on a beach" with overlay text "SALE!" gets a prompt that contains "1:1 square", clause 7 and "SALE!". |
| `TextFlow.BuildTextPromptExactlyOneClause` | src/ai/flows/generate-thumbnail-from-text.ts:59-65 | The prompt the flow actually builds has exactly one of its two clauses after principle 6, chosen by the truthiness of the overlay text. |
| `TextFlow.GenerateThumbnailsFromText` | src/ai/flows/generate-thumbnail-from-text.ts:38-90 | `thumbnailN` is the media url of the N-th call. Every call gets the model id, the built prompt and the config with the resolved key. |
| `ImageFlow.ImageText` | src/ai/flows/generate-thumbnail-from-image-and-text.ts:52-77 | Definition of the text segment over a wording record: base prompt, optional clause 7, the Instructions line, the optional overlay line, and the Description line. Its properties are stated by `ImageTextLayout`, `ImageTextStatesAspectRatio`, `ImageTextWithOverlay`, `ImageTextEmptyOverlayIsAbsent`, `ImageTextContainsRequest` and `ImageTextNeverHasAtClause`. |
| `ImageFlow.ImagePrompt` | src/ai/flows/generate-thumbnail-from-image-and-text.ts:75-78 | The prompt has exactly two segments. The first is a media segment whose url is the data URI, passed through. The second is a text segment that ends with the Description line. |
| `ImageFlow.BuildImagePrompt` | src/ai/flows/generate-thumbnail-from-image-and-text.ts:50-78 | Definition of the flow's prompt: `ImagePrompt` applied to `SourceWording`, the record holding the template's exact text. Its properties are stated by `ImagePrompt`'s contract, `BuildImagePromptNeverForbidsText` and the lemmas about `ImageText`, which hold for every wording. |
| `ImageFlow.ImageTextLayout` | src/ai/flows/generate-thumbnail-from-image-and-text.ts:52-77 | The text segment is, in order and back to back: the base prompt, the optional clause 7, the Instructions line, the optional overlay line, and the Description line, which ends it. |
| `ImageFlow.ImageTextStatesAspectRatio` | src/ai/flows/generate-thumbnail-from-image-and-text.ts:57-69 | The ratio phrase occurs in principle 1 and again, later, in the Instructions line. |
| `ImageFlow.ImageTextWithOverlay` | src/ai/flows/generate-thumbnail-from-image-and-text.ts:64-77 | Truthy overlay text adds clause 7 after principle 6. It also adds its quoted, unescaped line after the Instructions line and right before the Description line. |
| `ImageFlow.ImageTextEmptyOverlayIsAbsent` | src/ai/flows/generate-thumbnail-from-image-and-text.ts:64-77 | Empty overlay text gives the same text as absent overlay text. The Instructions line directly follows principle 6, and the Description line directly follows the Instructions line. |
| `ImageFlow.ImageTextContainsRequest` | src/ai/flows/generate-thumbnail-from-image-and-text.ts:50-77 | The text segment contains the ratio phrase and the description. With truthy overlay text it contains clause 7 and the overlay text verbatim. |
| `ImageFlow.ImageTextNeverHasAtClause` | src/ai/flows/generate-thumbnail-from-image-and-text.ts:64-69 | A text that differs from both clause 7 and the Instructions line never follows principle 6, whatever the overlay text. |
| `ImageFlow.LeaveSpaceDivergesFromSourceWording` | src/ai/flows/generate-thumbnail-from-image-and-text.ts:66-69 | The text flow's "leave space" clause differs from this flow's clause 7 and from its Instructions line. |
| `ImageFlow.BuildImagePromptNeverForbidsText` | src/ai/flows/generate-thumbnail-from-image-and-text.ts:64-73 | Unlike the text flow, this flow's prompt never has the "leave space, do not include any text" clause after principle 6. |
| `ImageFlow.GenerateThumbnailsFromImageAndText` | src/ai/flows/generate-thumbnail-from-image-and-text.ts:43-90 | `thumbnailN` is the media url of the N-th call. Every call gets the model id, the two-segment prompt and the config with the resolved key. |

## Left out

- `Promise.all` and concurrency: the three calls are modelled in issue order as applications of `generate`. Completion order, the join and cancellation are not modelled.
- Failure of a generate call: the rejection that fails the whole flow, and the error text passed to the caller, are not modelled. `generate` is total.
- A response without media: genkit's `media` can be null, and then `.media.url` throws. The model assumes every response carries media.
- Input validation by the schema library (types, the enum's string values) and the UI form's minimum length of 10 are not modelled. The flows themselves check neither.
- The data-URI format of the reference image is never inspected by the flow. The model passes it through as an opaque string.
- src/ai/genkit.ts (a middleware that writes the key into a third-party flow config) is not part of this model, because that library's semantics are not visible.
- src/lib/api-key-store.ts and src/lib/api-key-store.client.ts (cookie and local storage get and set) are I/O with no logic. The environment key is the parameter `envKey`.
- The React components (form state, file reading, toasts, download links, the splash screen, icons) are UI, outside the flows.
- TextFlow.TextPromptExactlyOneClause: states "exactly one clause" at the position right after principle 6, not "the other clause appears nowhere". The user's topic or overlay text may itself contain either clause's wording verbatim.
- ImageFlow.BuildImagePromptNeverForbidsText: likewise speaks of the position after principle 6 only, since the description or overlay text may contain any wording.
- Prompts.ResolveAspectRatio: assumes the flow wrapper applies the input schema's `landscape` default before the flow body runs. That wrapper belongs to the genkit library, which is not part of this model. If it passed an absent ratio through unchanged, the body's ternary (src/ai/flows/generate-thumbnail-from-text.ts:45) would give "1:1 square". The only caller in the repository always passes a ratio (src/components/main-app.tsx:63 and :95), and its form starts at `landscape` (src/components/main-app.tsx:45, :52).
