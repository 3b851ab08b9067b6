/** The shared prompt fragments of prompts.py. */
module Prompts {
  import opened Text

  const NotePrefix: string := "\n\nNota:"

  /** The clause appended to every topic and idea request (`get_avoids`). */
  const Avoids: string :=
    NotePrefix + " evita incluir cualquier texto o ideas " +
    "que requieran información actualizada, " +
    "o que puedan contener datos falsos, " +
    "o que mencionen un enlace real o un " +
    "producto/servicio ofrecido"

  /** The heading of the style guidelines; no space follows the colon. */
  const StyleHeader: string := "\n\nSigue estas pautas de estilo:"

  /** `get_avoids`: the constant avoid clause. */
  function GetAvoids(): string {
    Avoids
  }

  /** The avoid clause opens with a blank line and "Nota:" and goes on after it. */
  lemma AvoidsIsNote()
    ensures StartsWith(GetAvoids(), NotePrefix)
    ensures |GetAvoids()| > |NotePrefix|
  {
    assert Avoids[..|NotePrefix|] == NotePrefix;
  }

  /** `build_style_prompt`: the heading followed by the items joined with ", ". */
  function BuildStylePrompt(items: seq<string>): string {
    StyleHeader + Join(items, ", ")
  }

  /** The style paragraph opens with the heading; it is the heading alone
      for no items and the heading followed by the item for one. */
  lemma StylePromptShape(items: seq<string>)
    ensures StartsWith(BuildStylePrompt(items), StyleHeader)
    ensures items == [] ==> BuildStylePrompt(items) == StyleHeader
    ensures |items| == 1 ==> BuildStylePrompt(items) == StyleHeader + items[0]
  {
    assert BuildStylePrompt(items)[..|StyleHeader|] == StyleHeader;
  }

  /** The items follow the heading in order: splitting the tail at ", "
      gives them back when no item contains ", ". */
  lemma StylePromptItems(items: seq<string>)
    requires |items| >= 1
    requires forall k :: 0 <= k < |items| ==> !Contains(items[k], ", ")
    ensures Split(BuildStylePrompt(items)[|StyleHeader|..], ", ") == items
  {
    var r := BuildStylePrompt(items);
    assert r[|StyleHeader|..] == Join(items, ", ");
    forall k | 0 <= k < |items|
      ensures SplitsCleanly(items[k], ", ")
    {
      CleanCommaSpace(items[k]);
    }
    SplitJoin(items, ", ");
  }

  /** The paragraph both the topic and the idea generator append for extra instructions. */
  const PriorityHeader: string :=
    "\n\nInstrucciones adicionales (MUY IMPORTANTES, " +
    "DEBEN SER PRIORIZADAS): "

  /** `if prompt_expansion: prompt += header + prompt_expansion`. */
  function WithPriorityInstructions(prompt: string, expansion: string): string {
    if expansion != "" then prompt + PriorityHeader + expansion else prompt
  }

  /** The paragraph is appended after the prompt exactly when the expansion
      is non-empty; an empty expansion leaves the prompt as it is. */
  lemma PriorityInstructionsShape(prompt: string, expansion: string)
    ensures StartsWith(WithPriorityInstructions(prompt, expansion), prompt)
    ensures expansion == "" ==> WithPriorityInstructions(prompt, expansion) == prompt
    ensures expansion != "" ==>
      EndsWith(WithPriorityInstructions(prompt, expansion), PriorityHeader + expansion) &&
      |WithPriorityInstructions(prompt, expansion)| == |prompt| + |PriorityHeader| + |expansion|
  {
    var r := WithPriorityInstructions(prompt, expansion);
    if expansion != "" {
      assert r[|prompt|..] == PriorityHeader + expansion;
    }
    assert r[..|prompt|] == prompt;
  }
}
