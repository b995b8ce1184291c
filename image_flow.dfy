/** The image-origin flow: a two-segment prompt (the reference image, then the
    instruction text) built from the description, the optional overlay text and
    the aspect ratio, sent three times to the image model. */
module ImageFlow {
  import opened Options
  import opened Strings
  import opened Prompts
  import opened Generation
  import TextFlow

  datatype ImageInput = ImageInput(
    photoDataUri: string,
    description: string,
    thumbnailText: Option<string>,
    aspectRatio: Option<AspectRatio>,
    apiKey: Option<string>)

  /** One segment of a multi-part prompt. */
  datatype PromptPart = MediaPart(media: Media) | TextPart(text: string)

  /** The fixed wording of the text segment, cut where the flow splices in the
      ratio phrase, the overlay text and the description. */
  datatype ImageWording = ImageWording(
    opening: string,          // persona, task sentence, principle 1 up to the ratio phrase
    principles: string,       // the rest of principle 1 and principles 2 to 6
    textIntegration: string,  // clause 7, for truthy overlay text
    instructions: string,     // the Instructions line up to the ratio phrase
    instructionsEnd: string,  // the rest of the Instructions line
    textLead: string,         // the "Text to include" line up to the overlay text
    textClose: string,        // the closing quote
    descriptionLead: string)  // the "Description" line up to the description

  /** The wording the flow uses. */
  const SourceWording: ImageWording := ImageWording(
    Persona
      + "Your task is to modify the provided image based on the user's description to create an engaging, high-quality YouTube thumbnail."
      + PrinciplesOpening,
    OtherPrinciples,
    TextIntegrationClause,
    "\n\n**Instructions:**\nModify the reference image based on the following description to create a thumbnail"
      + " that will get clicks. The output image MUST have a ",
    " aspect ratio.",
    "\n\n**Text to include:** \"",
    "\"",
    "\n\n**Description:** ")

  /** Clause 7 for truthy overlay text; otherwise nothing, as this flow has no else branch. */
  function OverlayClause(w: ImageWording, thumbnailText: Option<string>): string
  {
    if Truthy(thumbnailText) then w.textIntegration else ""
  }

  /** The Instructions line, which repeats the ratio phrase. */
  function Instructions(w: ImageWording, phrase: string): string
  {
    w.instructions + phrase + w.instructionsEnd
  }

  /** The overlay text, quoted and unescaped, for truthy overlay text; otherwise nothing. */
  function OverlayLine(w: ImageWording, thumbnailText: Option<string>): string
  {
    if Truthy(thumbnailText) then w.textLead + thumbnailText.value + w.textClose else ""
  }

  function DescriptionLine(w: ImageWording, description: string): string
  {
    w.descriptionLead + description
  }

  /** The text segment over a wording, appended piece by piece as the flow does. */
  function ImageText(w: ImageWording, description: string, thumbnailText: Option<string>, ratio: AspectRatio): string
  {
    var phrase := AspectRatioPhrase(ratio);
    BasePrompt(w.opening, phrase, w.principles) + OverlayClause(w, thumbnailText) + Instructions(w, phrase)
      + OverlayLine(w, thumbnailText) + DescriptionLine(w, description)
  }

  /** The prompt: the reference image, passed through unchecked, then the text segment. */
  function ImagePrompt(w: ImageWording, photoDataUri: string, description: string,
                       thumbnailText: Option<string>, ratio: AspectRatio): (parts: seq<PromptPart>)
    ensures |parts| == 2
    ensures parts[0].MediaPart? && parts[0].media.url == photoDataUri
    ensures parts[1].TextPart? && EndsWith(parts[1].text, DescriptionLine(w, description))
  {
    var text := ImageText(w, description, thumbnailText, ratio);
    ImageTextLayout(w, description, thumbnailText, ratio);
    [MediaPart(Media(photoDataUri)), TextPart(text)]
  }

  /** The prompt the flow builds. */
  function BuildImagePrompt(photoDataUri: string, description: string, thumbnailText: Option<string>,
                            ratio: AspectRatio): seq<PromptPart>
  {
    ImagePrompt(SourceWording, photoDataUri, description, thumbnailText, ratio)
  }

  /** Where clause 7 goes: right after principle 6. */
  function ClauseAt(w: ImageWording, ratio: AspectRatio): nat
  {
    |BasePrompt(w.opening, AspectRatioPhrase(ratio), w.principles)|
  }

  /** Where the Instructions line starts. */
  function InstructionsAt(w: ImageWording, thumbnailText: Option<string>, ratio: AspectRatio): nat
  {
    ClauseAt(w, ratio) + |OverlayClause(w, thumbnailText)|
  }

  /** Where the overlay line goes: right after the Instructions line. */
  function LineAt(w: ImageWording, thumbnailText: Option<string>, ratio: AspectRatio): nat
  {
    InstructionsAt(w, thumbnailText, ratio) + |Instructions(w, AspectRatioPhrase(ratio))|
  }

  /** Where the Description line starts. */
  function DescriptionAt(w: ImageWording, thumbnailText: Option<string>, ratio: AspectRatio): nat
  {
    LineAt(w, thumbnailText, ratio) + |OverlayLine(w, thumbnailText)|
  }

  /** The text segment's layout, in order: principles, the optional clause, the
      Instructions line, the optional overlay line, and the Description line, which ends it. */
  lemma ImageTextLayout(w: ImageWording, description: string, thumbnailText: Option<string>, ratio: AspectRatio)
    ensures var phrase := AspectRatioPhrase(ratio);
            var text := ImageText(w, description, thumbnailText, ratio);
            && OccursAt(text, BasePrompt(w.opening, phrase, w.principles), 0)
            && OccursAt(text, OverlayClause(w, thumbnailText), ClauseAt(w, ratio))
            && OccursAt(text, Instructions(w, phrase), InstructionsAt(w, thumbnailText, ratio))
            && OccursAt(text, OverlayLine(w, thumbnailText), LineAt(w, thumbnailText, ratio))
            && OccursAt(text, DescriptionLine(w, description), DescriptionAt(w, thumbnailText, ratio))
            && DescriptionAt(w, thumbnailText, ratio) + |DescriptionLine(w, description)| == |text|
            && EndsWith(text, DescriptionLine(w, description))
  {
    var phrase := AspectRatioPhrase(ratio);
    Segments5(BasePrompt(w.opening, phrase, w.principles), OverlayClause(w, thumbnailText),
              Instructions(w, phrase), OverlayLine(w, thumbnailText), DescriptionLine(w, description));
  }

  /** The phrase for the requested ratio appears in principle 1 and again, later,
      in the Instructions line. */
  lemma ImageTextStatesAspectRatio(w: ImageWording, description: string, thumbnailText: Option<string>, ratio: AspectRatio)
    ensures var phrase := AspectRatioPhrase(ratio);
            var text := ImageText(w, description, thumbnailText, ratio);
            var again := InstructionsAt(w, thumbnailText, ratio) + |w.instructions|;
            && OccursAt(text, phrase, |w.opening|)
            && OccursAt(text, phrase, again)
            && |w.opening| + |phrase| <= again
  {
    var phrase := AspectRatioPhrase(ratio);
    var text := ImageText(w, description, thumbnailText, ratio);
    ImageTextLayout(w, description, thumbnailText, ratio);
    BasePromptStatesRatio(w.opening, phrase, w.principles);
    OccursWithin(text, BasePrompt(w.opening, phrase, w.principles), 0, phrase, |w.opening|);
    OccursBetween(w.instructions, phrase, w.instructionsEnd);
    OccursWithin(text, Instructions(w, phrase), InstructionsAt(w, thumbnailText, ratio), phrase, |w.instructions|);
  }

  /** Truthy overlay text adds clause 7 after principle 6, and its quoted,
      unescaped line after the Instructions line and right before the Description line. */
  lemma ImageTextWithOverlay(w: ImageWording, description: string, thumbnailText: Option<string>, ratio: AspectRatio)
    requires Truthy(thumbnailText)
    ensures var phrase := AspectRatioPhrase(ratio);
            var text := ImageText(w, description, thumbnailText, ratio);
            var line := w.textLead + thumbnailText.value + w.textClose;
            var instructionsAt := InstructionsAt(w, thumbnailText, ratio);
            && OccursAt(text, w.textIntegration, ClauseAt(w, ratio))
            && OccursAt(text, Instructions(w, phrase), instructionsAt)
            && OccursAt(text, line, instructionsAt + |Instructions(w, phrase)|)
            && OccursAt(text, DescriptionLine(w, description), instructionsAt + |Instructions(w, phrase)| + |line|)
  {
    ImageTextLayout(w, description, thumbnailText, ratio);
  }

  /** Absent or empty overlay text adds no text-related clause at all: the
      Instructions line follows principle 6 directly and the Description line
      follows the Instructions line directly. */
  lemma ImageTextEmptyOverlayIsAbsent(w: ImageWording, description: string, thumbnailText: Option<string>, ratio: AspectRatio)
    requires !Truthy(thumbnailText)
    ensures var phrase := AspectRatioPhrase(ratio);
            var text := ImageText(w, description, thumbnailText, ratio);
            && text == ImageText(w, description, None, ratio)
            && OccursAt(text, Instructions(w, phrase), ClauseAt(w, ratio))
            && OccursAt(text, DescriptionLine(w, description), ClauseAt(w, ratio) + |Instructions(w, phrase)|)
  {
    ImageTextLayout(w, description, thumbnailText, ratio);
  }

  /** The text segment contains the ratio phrase and the description; with
      truthy overlay text it contains clause 7 and the overlay text verbatim. */
  lemma ImageTextContainsRequest(w: ImageWording, description: string, thumbnailText: Option<string>, ratio: AspectRatio)
    ensures var text := ImageText(w, description, thumbnailText, ratio);
            && Contains(text, AspectRatioPhrase(ratio))
            && Contains(text, description)
            && (Truthy(thumbnailText) ==> Contains(text, w.textIntegration) && Contains(text, thumbnailText.value))
  {
    var text := ImageText(w, description, thumbnailText, ratio);
    ImageTextLayout(w, description, thumbnailText, ratio);
    ImageTextStatesAspectRatio(w, description, thumbnailText, ratio);
    assert OccursAt(text, AspectRatioPhrase(ratio), |w.opening|);
    var descriptionAt := DescriptionAt(w, thumbnailText, ratio);
    OccursBetween(w.descriptionLead, description, "");
    assert DescriptionLine(w, description) == w.descriptionLead + description + "";
    OccursWithin(text, DescriptionLine(w, description), descriptionAt, description, |w.descriptionLead|);
    if Truthy(thumbnailText) {
      assert OccursAt(text, OverlayClause(w, thumbnailText), ClauseAt(w, ratio));
      OccursBetween(w.textLead, thumbnailText.value, w.textClose);
      OccursWithin(text, OverlayLine(w, thumbnailText), LineAt(w, thumbnailText, ratio), thumbnailText.value, |w.textLead|);
    }
  }

  /** A text that diverges from both clause 7 and the Instructions line never
      sits right after principle 6, whatever the overlay text. */
  lemma ImageTextNeverHasAtClause(w: ImageWording, other: string, description: string,
                                  thumbnailText: Option<string>, ratio: AspectRatio)
    requires Diverge(w.textIntegration, other) && Diverge(w.instructions, other)
    ensures !OccursAt(ImageText(w, description, thumbnailText, ratio), other, ClauseAt(w, ratio))
  {
    var phrase := AspectRatioPhrase(ratio);
    var text := ImageText(w, description, thumbnailText, ratio);
    ImageTextLayout(w, description, thumbnailText, ratio);
    if Truthy(thumbnailText) {
      NotBothAt(text, w.textIntegration, other, ClauseAt(w, ratio));
    } else {
      var k :| 0 <= k < |w.instructions| && 0 <= k < |other| && w.instructions[k] != other[k];
      assert Instructions(w, phrase)[k] == w.instructions[k];
      NotBothAt(text, Instructions(w, phrase), other, ClauseAt(w, ratio));
    }
  }

  /** The "leave space" clause of the text flow diverges from this flow's clause 7
      and Instructions line: it ends with a full stop at an index where they do not. */
  lemma LeaveSpaceDivergesFromSourceWording()
    ensures Diverge(SourceWording.textIntegration, TextFlow.SourceWording.leaveSpace)
    ensures Diverge(SourceWording.instructions, TextFlow.SourceWording.leaveSpace)
  {
    var leaveSpace := TextFlow.SourceWording.leaveSpace;
    var k := |leaveSpace| - 1;
    assert leaveSpace[k] == '.';
    assert SourceWording.textIntegration[k] == 'B';
    assert SourceWording.instructions[k] == 't';
  }

  /** Unlike the text flow, this flow never tells the model to leave out text:
      where the text flow puts its "leave space" clause, this flow's text segment
      has clause 7 or the Instructions line, never that clause. */
  lemma BuildImagePromptNeverForbidsText(photoDataUri: string, description: string,
                                         thumbnailText: Option<string>, ratio: AspectRatio)
    ensures var text := BuildImagePrompt(photoDataUri, description, thumbnailText, ratio)[1].text;
            !OccursAt(text, TextFlow.SourceWording.leaveSpace, ClauseAt(SourceWording, ratio))
  {
    LeaveSpaceDivergesFromSourceWording();
    ImageTextNeverHasAtClause(SourceWording, TextFlow.SourceWording.leaveSpace, description, thumbnailText, ratio);
  }

  /** The single request the flow sends three times. */
  function ImageRequest(input: ImageInput, envKey: Option<string>): GenerateRequest<seq<PromptPart>>
  {
    FlowRequest(BuildImagePrompt(input.photoDataUri, input.description, input.thumbnailText,
                                 ResolveAspectRatio(input.aspectRatio)),
                input.apiKey, envKey)
  }

  /** The whole flow: `thumbnailN` is the media url of the N-th issued call, and
      every call gets the same model, two-segment prompt and config. */
  function GenerateThumbnailsFromImageAndText(input: ImageInput, envKey: Option<string>,
                                              generate: (nat, GenerateRequest<seq<PromptPart>>) -> GenerateResponse): (out: Thumbnails)
    ensures var prompt := BuildImagePrompt(input.photoDataUri, input.description, input.thumbnailText,
                                           ResolveAspectRatio(input.aspectRatio));
            var config := GenerationConfig([Image, Text], ResolveApiKey(input.apiKey, envKey));
            var request := GenerateRequest(ModelId, prompt, config);
            && out.thumbnail1 == generate(0, request).media.url
            && out.thumbnail2 == generate(1, request).media.url
            && out.thumbnail3 == generate(2, request).media.url
  {
    Dispatch(ImageRequest(input, envKey), generate)
  }
}
