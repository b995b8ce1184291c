/** Prompt text shared by both thumbnail flows: the aspect-ratio phrase, the
    persona, the six key principles and the "Text Integration" clause 7. */
module Prompts {
  import opened Options
  import opened Strings

  /** The aspect-ratio enum of both input schemas. */
  datatype AspectRatio = Landscape | Square

  /** The schemas' `.default('landscape')`: an absent ratio becomes landscape. */
  function ResolveAspectRatio(requested: Option<AspectRatio>): (ratio: AspectRatio)
    ensures requested.Some? ==> ratio == requested.value
    ensures requested.None? ==> ratio == Landscape
  {
    match requested
    case Some(r) => r
    case None => Landscape
  }

  /** The human-readable ratio injected into the prompt. */
  function AspectRatioPhrase(ratio: AspectRatio): (phrase: string)
    ensures phrase == "16:9 landscape" <==> ratio == Landscape
    ensures phrase == "1:1 square" <==> ratio != Landscape
  {
    if ratio == Landscape then "16:9 landscape" else "1:1 square"
  }

  const Persona: string :=
    "You are a viral marketing expert specializing in creating clickable YouTube thumbnails.\n\n    "

  /** The heading of the principles and principle 1 up to the ratio phrase. */
  const PrinciplesOpening: string :=
    "\n\n    **Key principles for a great thumbnail:**\n    1.  **Aspect Ratio:** The image MUST be "

  /** The end of principle 1 and principles 2 to 6. */
  const OtherPrinciples: string :=
    ".\n    2.  **High Contrast & Vibrant Colors:** Make the image pop. Use bright, saturated colors that grab attention."
    + "\n    3.  **Clear Focal Point:** The main subject should be instantly recognizable."
    + "\n    4.  **Dynamic Composition:** Use angles and layouts that create energy and interest."
    + "\n    5.  **Emotionally Resonant:** The image should evoke curiosity, excitement, or another strong emotion."
    + "\n    6.  **Readability:** Ensure the image is clear and understandable even at a small size."

  /** Clause 7, added by both flows when the overlay text is truthy. */
  const TextIntegrationClause: string :=
    "\n    7.  **Text Integration:** Include the following text in the thumbnail. Make it BIG, BOLD, and EASY TO READ."
    + " Use a thick, clean font with high contrast against the background (e.g., by using an outline or shadow)."
    + " Place it strategically to draw attention without obscuring the main subject."

  /** The opening of a flow's prompt, with the ratio phrase spliced into principle 1. */
  function BasePrompt(opening: string, phrase: string, principles: string): string
  {
    opening + phrase + principles
  }

  /** The base prompt states the phrase right after its opening and ends with the principles. */
  lemma BasePromptStatesRatio(opening: string, phrase: string, principles: string)
    ensures OccursAt(BasePrompt(opening, phrase, principles), phrase, |opening|)
    ensures EndsWith(BasePrompt(opening, phrase, principles), principles)
  {
    OccursBetween(opening, phrase, principles);
    EndsWithLast(opening + phrase, principles);
  }
}
