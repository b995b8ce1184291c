/** The text-origin flow: one prompt string built from the video topic, the
    optional overlay text and the aspect ratio, sent three times to the image model. */
module TextFlow {
  import opened Options
  import opened Strings
  import opened Prompts
  import opened Generation

  datatype TextInput = TextInput(
    prompt: string,
    thumbnailText: Option<string>,
    aspectRatio: Option<AspectRatio>,
    apiKey: Option<string>)

  /** The fixed wording of the prompt, cut where the flow splices in the ratio
      phrase, the topic and the overlay text. */
  datatype TextWording = TextWording(
    opening: string,          // persona, task sentence, principle 1 up to the ratio phrase
    principles: string,       // the rest of principle 1 and principles 2 to 6
    textIntegration: string,  // clause 7, for truthy overlay text
    leaveSpace: string,       // the clause used otherwise
    instructions: string,     // the Instructions paragraph up to the ratio phrase
    topicLead: string,        // from after the phrase up to the topic
    textLead: string,         // the "Text to include" line up to the overlay text
    textClose: string)        // the closing quote

  /** The wording the flow uses. */
  const SourceWording: TextWording := TextWording(
    Persona
      + "Your task is to generate an engaging, high-quality YouTube thumbnail based on the user's video idea."
      + PrinciplesOpening,
    OtherPrinciples,
    TextIntegrationClause,
    "\n    Leave space for potential text overlays. Do not include any text in the image itself.",
    "\n\n    **Instructions:**\n    Create a thumbnail for a YouTube video with the following topic. The image must have a ",
    " aspect ratio.\n    \n    **Video Topic:** ",
    "\n    **Text to include:** \"",
    "\"")

  /** The clause appended after principle 6: clause 7 for truthy overlay text, else "leave space". */
  function OverlayClause(w: TextWording, thumbnailText: Option<string>): string
  {
    if Truthy(thumbnailText) then w.textIntegration else w.leaveSpace
  }

  /** The Instructions paragraph, which repeats the ratio phrase, up to the topic. */
  function Instructions(w: TextWording, phrase: string): string
  {
    w.instructions + phrase + w.topicLead
  }

  /** The line appended after the topic: the overlay text, quoted and unescaped, or nothing. */
  function OverlayLine(w: TextWording, thumbnailText: Option<string>): string
  {
    if Truthy(thumbnailText) then w.textLead + thumbnailText.value + w.textClose else ""
  }

  /** The prompt over a wording, appended piece by piece as the flow does. */
  function TextPrompt(w: TextWording, topic: string, thumbnailText: Option<string>, ratio: AspectRatio): string
  {
    var phrase := AspectRatioPhrase(ratio);
    BasePrompt(w.opening, phrase, w.principles) + OverlayClause(w, thumbnailText) + Instructions(w, phrase)
      + topic + OverlayLine(w, thumbnailText)
  }

  /** The prompt the flow builds. */
  function BuildTextPrompt(topic: string, thumbnailText: Option<string>, ratio: AspectRatio): string
  {
    TextPrompt(SourceWording, topic, thumbnailText, ratio)
  }

  /** Where the conditional clause starts: right after principle 6. */
  function ClauseAt(w: TextWording, ratio: AspectRatio): nat
  {
    |BasePrompt(w.opening, AspectRatioPhrase(ratio), w.principles)|
  }

  /** Where the Instructions paragraph starts. */
  function InstructionsAt(w: TextWording, thumbnailText: Option<string>, ratio: AspectRatio): nat
  {
    ClauseAt(w, ratio) + |OverlayClause(w, thumbnailText)|
  }

  /** Where the user's topic starts. */
  function TopicAt(w: TextWording, thumbnailText: Option<string>, ratio: AspectRatio): nat
  {
    InstructionsAt(w, thumbnailText, ratio) + |Instructions(w, AspectRatioPhrase(ratio))|
  }

  /** The prompt's layout, in order: principles, the clause, the Instructions
      paragraph, the topic, and the overlay line, which is the end of the prompt. */
  lemma TextPromptLayout(w: TextWording, topic: string, thumbnailText: Option<string>, ratio: AspectRatio)
    ensures var phrase := AspectRatioPhrase(ratio);
            var p := TextPrompt(w, topic, thumbnailText, ratio);
            && OccursAt(p, BasePrompt(w.opening, phrase, w.principles), 0)
            && OccursAt(p, OverlayClause(w, thumbnailText), ClauseAt(w, ratio))
            && OccursAt(p, Instructions(w, phrase), InstructionsAt(w, thumbnailText, ratio))
            && OccursAt(p, topic, TopicAt(w, thumbnailText, ratio))
            && OccursAt(p, OverlayLine(w, thumbnailText), TopicAt(w, thumbnailText, ratio) + |topic|)
            && TopicAt(w, thumbnailText, ratio) + |topic| + |OverlayLine(w, thumbnailText)| == |p|
  {
    var phrase := AspectRatioPhrase(ratio);
    Segments5(BasePrompt(w.opening, phrase, w.principles), OverlayClause(w, thumbnailText),
              Instructions(w, phrase), topic, OverlayLine(w, thumbnailText));
  }

  /** The phrase for the requested ratio appears in principle 1 and again, later,
      in the Instructions paragraph. */
  lemma TextPromptStatesAspectRatio(w: TextWording, topic: string, thumbnailText: Option<string>, ratio: AspectRatio)
    ensures var phrase := AspectRatioPhrase(ratio);
            var p := TextPrompt(w, topic, thumbnailText, ratio);
            var again := InstructionsAt(w, thumbnailText, ratio) + |w.instructions|;
            && OccursAt(p, phrase, |w.opening|)
            && OccursAt(p, phrase, again)
            && |w.opening| + |phrase| <= again
  {
    var phrase := AspectRatioPhrase(ratio);
    var p := TextPrompt(w, topic, thumbnailText, ratio);
    TextPromptLayout(w, topic, thumbnailText, ratio);
    BasePromptStatesRatio(w.opening, phrase, w.principles);
    OccursWithin(p, BasePrompt(w.opening, phrase, w.principles), 0, phrase, |w.opening|);
    OccursBetween(w.instructions, phrase, w.topicLead);
    OccursWithin(p, Instructions(w, phrase), InstructionsAt(w, thumbnailText, ratio), phrase, |w.instructions|);
  }

  /** Right after principle 6 comes exactly one of the two clauses: clause 7 if
      and only if the overlay text is truthy, the "leave space" clause if and only if it is not. */
  lemma TextPromptExactlyOneClause(w: TextWording, topic: string, thumbnailText: Option<string>, ratio: AspectRatio)
    requires Diverge(w.textIntegration, w.leaveSpace)
    ensures var p := TextPrompt(w, topic, thumbnailText, ratio);
            && (OccursAt(p, w.textIntegration, ClauseAt(w, ratio)) <==> Truthy(thumbnailText))
            && (OccursAt(p, w.leaveSpace, ClauseAt(w, ratio)) <==> !Truthy(thumbnailText))
  {
    TextPromptLayout(w, topic, thumbnailText, ratio);
    NotBothAt(TextPrompt(w, topic, thumbnailText, ratio), w.textIntegration, w.leaveSpace, ClauseAt(w, ratio));
  }

  /** Empty overlay text builds the same prompt as absent overlay text: the
      "leave space" clause follows principle 6 and the topic ends the prompt. */
  lemma TextPromptEmptyOverlayIsAbsent(w: TextWording, topic: string, thumbnailText: Option<string>, ratio: AspectRatio)
    requires !Truthy(thumbnailText)
    ensures var p := TextPrompt(w, topic, thumbnailText, ratio);
            && p == TextPrompt(w, topic, None, ratio)
            && OccursAt(p, w.leaveSpace, ClauseAt(w, ratio))
            && EndsWith(p, w.topicLead + topic)
  {
    var phrase := AspectRatioPhrase(ratio);
    TextPromptLayout(w, topic, thumbnailText, ratio);
    var front := BasePrompt(w.opening, phrase, w.principles) + w.leaveSpace + w.instructions + phrase;
    assert TextPrompt(w, topic, thumbnailText, ratio) == front + (w.topicLead + topic);
    EndsWithLast(front, w.topicLead + topic);
  }

  /** Truthy overlay text selects clause 7 and ends the prompt verbatim, unescaped, between quotes. */
  lemma TextPromptEmbedsOverlayVerbatim(w: TextWording, topic: string, thumbnailText: Option<string>, ratio: AspectRatio)
    requires Truthy(thumbnailText)
    ensures var p := TextPrompt(w, topic, thumbnailText, ratio);
            && OccursAt(p, w.textIntegration, ClauseAt(w, ratio))
            && EndsWith(p, w.textLead + thumbnailText.value + w.textClose)
  {
    TextPromptLayout(w, topic, thumbnailText, ratio);
    var p := TextPrompt(w, topic, thumbnailText, ratio);
    var line := OverlayLine(w, thumbnailText);
    assert p[|p| - |line|..] == p[TopicAt(w, thumbnailText, ratio) + |topic|..][..|line|];
  }

  /** The prompt contains the ratio phrase and the topic; with truthy overlay
      text it contains clause 7 and the overlay text verbatim, and otherwise the
      "leave space" clause. */
  lemma TextPromptContainsRequest(w: TextWording, topic: string, thumbnailText: Option<string>, ratio: AspectRatio)
    ensures var p := TextPrompt(w, topic, thumbnailText, ratio);
            && Contains(p, AspectRatioPhrase(ratio))
            && Contains(p, topic)
            && (Truthy(thumbnailText) ==> Contains(p, w.textIntegration) && Contains(p, thumbnailText.value))
            && (!Truthy(thumbnailText) ==> Contains(p, w.leaveSpace))
  {
    var p := TextPrompt(w, topic, thumbnailText, ratio);
    TextPromptLayout(w, topic, thumbnailText, ratio);
    TextPromptStatesAspectRatio(w, topic, thumbnailText, ratio);
    assert OccursAt(p, AspectRatioPhrase(ratio), |w.opening|);
    assert OccursAt(p, topic, TopicAt(w, thumbnailText, ratio));
    assert OccursAt(p, OverlayClause(w, thumbnailText), ClauseAt(w, ratio));
    if Truthy(thumbnailText) {
      var lineAt := TopicAt(w, thumbnailText, ratio) + |topic|;
      OccursBetween(w.textLead, thumbnailText.value, w.textClose);
      OccursWithin(p, OverlayLine(w, thumbnailText), lineAt, thumbnailText.value, |w.textLead|);
    }
  }

  /** The flow's own wording tells its two clauses apart, so every lemma above
      that needs it holds of the prompt the flow builds. */
  lemma SourceWordingClausesDiverge()
    ensures Diverge(SourceWording.textIntegration, SourceWording.leaveSpace)
  {
    // The "leave space" clause ends with a full stop where clause 7 still reads "BOLD".
    var k := |SourceWording.leaveSpace| - 1;
    assert SourceWording.leaveSpace[k] == '.' && SourceWording.textIntegration[k] == 'B';
  }

  /** The flow's own prompt carries exactly one of its two clauses after principle 6. */
  lemma BuildTextPromptExactlyOneClause(topic: string, thumbnailText: Option<string>, ratio: AspectRatio)
    ensures var p := BuildTextPrompt(topic, thumbnailText, ratio);
            && (OccursAt(p, SourceWording.textIntegration, ClauseAt(SourceWording, ratio)) <==> Truthy(thumbnailText))
            && (OccursAt(p, SourceWording.leaveSpace, ClauseAt(SourceWording, ratio)) <==> !Truthy(thumbnailText))
  {
    SourceWordingClausesDiverge();
    TextPromptExactlyOneClause(SourceWording, topic, thumbnailText, ratio);
  }

  /** A sample request: a square thumbnail of "a red bicycle on a beach" with
      overlay text "SALE!" gets a prompt holding "1:1 square", clause 7 and "SALE!". */
  lemma RedBicycleExample()
    ensures var p := BuildTextPrompt("a red bicycle on a beach", Some("SALE!"), Square);
            && Contains(p, "1:1 square")
            && Contains(p, SourceWording.textIntegration)
            && Contains(p, "SALE!")
  {
    TextPromptContainsRequest(SourceWording, "a red bicycle on a beach", Some("SALE!"), Square);
  }

  /** The single request the flow sends three times. */
  function TextRequest(input: TextInput, envKey: Option<string>): GenerateRequest<string>
  {
    FlowRequest(BuildTextPrompt(input.prompt, input.thumbnailText, ResolveAspectRatio(input.aspectRatio)),
                input.apiKey, envKey)
  }

  /** The whole flow: `thumbnailN` is the media url of the N-th issued call, and
      every call gets the same model, prompt and config. */
  function GenerateThumbnailsFromText(input: TextInput, envKey: Option<string>,
                                      generate: (nat, GenerateRequest<string>) -> GenerateResponse): (out: Thumbnails)
    ensures var prompt := BuildTextPrompt(input.prompt, input.thumbnailText, ResolveAspectRatio(input.aspectRatio));
            var config := GenerationConfig([Image, Text], ResolveApiKey(input.apiKey, envKey));
            var request := GenerateRequest(ModelId, prompt, config);
            && out.thumbnail1 == generate(0, request).media.url
            && out.thumbnail2 == generate(1, request).media.url
            && out.thumbnail3 == generate(2, request).media.url
  {
    Dispatch(TextRequest(input, envKey), generate)
  }
}
