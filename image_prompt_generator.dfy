/**
 * `ImagePromptGenerator.generate_prompt` (generators/image_prompt_generator.py):
 * the system and user messages, the chat request, and the final image
 * prompt built from the model's stripped answer and the brand's style.
 * The model's answer is a parameter.
 */
module ImagePromptGenerator {
  import opened Wrappers
  import opened Text
  import opened Llm
  import Brands

  const PromoKeyword: string := "PROMOCIONAL"

  /** `additional_instructions and "PROMOCIONAL" in additional_instructions`:
      present, non-empty, and holding the keyword in capitals. */
  predicate IsPromotionalRequest(instructions: Option<string>) {
    instructions.Some? && instructions.value != "" && Contains(instructions.value, PromoKeyword)
  }

  /** The keyword test is case-sensitive: the lowercase word does not count. */
  lemma LowercaseKeywordIgnored()
    ensures !IsPromotionalRequest(Some("promocional"))
  {
    var s := "promocional";
    forall k: nat
      ensures !OccursAt(s, PromoKeyword, k)
    {
      if k + |PromoKeyword| <= |s| {
        assert s[k..k + |PromoKeyword|][0] == s[k];
      }
    }
    FindIsFirstOccurrence(s, PromoKeyword);
  }

  /** Any text holding the keyword makes the request promotional. */
  lemma KeywordMakesPromotional(a: string, b: string)
    ensures IsPromotionalRequest(Some(a + PromoKeyword + b))
  {
    OccursBetween(a, PromoKeyword, b);
    ContainsAt(a + PromoKeyword + b, PromoKeyword, |a|);
  }

  const SystemIntro: string :=
    "Eres un experto en crear prompts detallados " +
    "y creativos para el modelo DALL-E 3 " +
    "de OpenAI. \nEstás ayudando a crear imágenes " +
    "para redes sociales para una marca con " +
    "esta descripción: \n"
  const PromoParagraph: string :=
    "\n\nIMPORTANTE: Esta imagen debe tener " +
    "un enfoque PROMOCIONAL para un producto " +
    "o servicio. \nAsegúrate de que el prompt " +
    "genere una imagen que comunique visualmente " +
    "el valor y atractivo del producto/servicio.\n" +
    "La imagen debe ser profesional, atractiva " +
    "y orientada a marketing."

  /** The system message: the fixed intro, the brand description, and the
      promotional paragraph when the request is promotional. */
  function SystemContent(description: string, promotional: bool): string {
    var base := SystemIntro + description;
    if promotional then base + PromoParagraph else base
  }

  /** The system message opens with the intro and the brand description,
      and goes on with the promotional paragraph exactly when the request
      is promotional. */
  lemma SystemContentShape(description: string, promotional: bool)
    ensures StartsWith(SystemContent(description, promotional), SystemIntro + description)
    ensures promotional ==> EndsWith(SystemContent(description, promotional), PromoParagraph)
    ensures |SystemContent(description, promotional)| ==
      |SystemIntro| + |description| + (if promotional then |PromoParagraph| else 0)
  {
    ConcatEnds(SystemIntro + description, PromoParagraph);
  }

  const UserIntro: string :=
    "Crea un prompt atractivo y detallado " +
    "para una imagen de redes sociales sobre:\n" +
    "'"
  const UserRules: string :=
    "'\n\nEl prompt debe:\n1. Ser visualmente " +
    "descriptivo y atractivo (25-50 palabras)\n" +
    "2. Relacionarse claramente con la idea " +
    "del post y la identidad de la marca\n" +
    "3. Evitar solicitar texto en la imagen " +
    "(DALL-E tiene dificultades con el texto)\n" +
    "4. Centrarse en escenas, objetos y entornos " +
    "que representen la idea metafóricamente\n" +
    "5. Incluir dirección artística como " +
    "iluminación, estilo, ambiente y perspectiva\n" +
    "6. Evitar mencionar \"publicación de " +
    "redes sociales\" en la descripción\n7. " +
    "Nunca solicitar contenido prohibido " +
    "(personas reales, violencia, temas políticos)\n" +
    "\nDevuelve SOLO el texto del prompt de " +
    "la imagen sin explicaciones ni formato " +
    "adicional."
  const ExtraHeader: string := "\n\nInstrucciones adicionales: "

  /** The user message: the quoted post idea and the seven rules, then the
      extra instructions when they are present and non-empty. */
  function UserContent(postIdea: string, instructions: Option<string>): string {
    var base := UserIntro + postIdea + UserRules;
    if instructions.Some? && instructions.value != "" then base + ExtraHeader + instructions.value else base
  }

  /** The user message opens with the quoted idea and the rules; the extra
      instructions follow their heading whenever they are present and
      non-empty, promotional or not, and nothing follows otherwise. */
  lemma UserContentShape(postIdea: string, instructions: Option<string>)
    ensures StartsWith(UserContent(postIdea, instructions), UserIntro + postIdea + UserRules)
    ensures instructions.Some? && instructions.value != "" ==>
      StartsWith(UserContent(postIdea, instructions), UserIntro + postIdea + UserRules + ExtraHeader) &&
      EndsWith(UserContent(postIdea, instructions), instructions.value) &&
      |UserContent(postIdea, instructions)| == |UserIntro + postIdea + UserRules| + |ExtraHeader| + |instructions.value|
    ensures instructions.None? || instructions.value == "" ==>
      UserContent(postIdea, instructions) == UserIntro + postIdea + UserRules
  {
    var base := UserIntro + postIdea + UserRules;
    if instructions.Some? && instructions.value != "" {
      ConcatEnds(base, ExtraHeader);
      ConcatEnds(base + ExtraHeader, instructions.value);
      StartsWithTransitive(UserContent(postIdea, instructions), base + ExtraHeader, base);
    } else {
      assert base[..|base|] == base;
    }
  }

  const StyleLabel: string := "\n\nEstilo: Profesional, calidad comercial"
  const PromoStyleOpen: string := StyleLabel + " de marketing premium, "
  const PromoStyleClose: string := ", ideal para publicidad de productos."
  const PlainStyleOpen: string := StyleLabel + ", "
  const PlainStyleClose: string := ", adecuado para una publicación de marca en redes sociales."
  const TechnicalLine: string := "\nDetalles técnicos: 4K, altamente detallado, iluminación "
  const PromoTechnical: string :=
    TechnicalLine + "de estudio profesional, composición " +
    "llamativa, enfoque nítido, colores vibrantes " +
    "y atractivos."
  const PlainTechnical: string := TechnicalLine + "profesional, profundidad de campo, enfoque nítido."

  /** The final prompt: the model's stripped description, the style line
      holding the brand's styles joined with ", ", and the technical line;
      both lines have a promotional and a plain wording. */
  function FinalPrompt(baseDescription: string, style: seq<string>, promotional: bool): string {
    var brandStyle := Join(style, ", ");
    if promotional then
      baseDescription + PromoStyleOpen + brandStyle + PromoStyleClose + PromoTechnical
    else
      baseDescription + PlainStyleOpen + brandStyle + PlainStyleClose + PlainTechnical
  }

  /** The final prompt opens with the description and the style label, holds
      the joined brand style right after the label's opening, and ends with
      a technical line that starts "Detalles técnicos: 4K". */
  lemma FinalPromptShape(baseDescription: string, style: seq<string>, promotional: bool)
    ensures StartsWith(FinalPrompt(baseDescription, style, promotional), baseDescription + StyleLabel)
    ensures OccursAt(FinalPrompt(baseDescription, style, promotional), Join(style, ", "),
      |baseDescription| + (if promotional then |PromoStyleOpen| else |PlainStyleOpen|))
    ensures Contains(FinalPrompt(baseDescription, style, promotional), Join(style, ", "))
    ensures EndsWith(FinalPrompt(baseDescription, style, promotional), if promotional then PromoTechnical else PlainTechnical)
    ensures StartsWith(if promotional then PromoTechnical else PlainTechnical, TechnicalLine)
  {
    var r := FinalPrompt(baseDescription, style, promotional);
    var brandStyle := Join(style, ", ");
    var open := if promotional then PromoStyleOpen else PlainStyleOpen;
    var close := if promotional then PromoStyleClose else PlainStyleClose;
    var tech := if promotional then PromoTechnical else PlainTechnical;
    assert open[..|StyleLabel|] == StyleLabel;
    assert tech[..|TechnicalLine|] == TechnicalLine;
    assert r == baseDescription + open + brandStyle + (close + tech);
    assert r[..|baseDescription + StyleLabel|] == (baseDescription + open)[..|baseDescription + StyleLabel|];
    OccursBetween(baseDescription + open, brandStyle, close + tech);
    ContainsAt(r, brandStyle, |baseDescription| + |open|);
    assert r[|r| - |tech|..] == tech;
  }

  /** `generate_prompt` given the model's answer: the request it sends and the image prompt it returns. */
  method GeneratePrompt(brand: Brands.Brand, postIdea: string, mode: GenerationMode,
                        instructions: Option<string>, completion: string)
    returns (request: ChatRequest, prompt: string)
    ensures request.model == ModelFor(ImagePrompt, mode)
    ensures request.messages == [
      Dict(Message("system", SystemContent(brand.description, IsPromotionalRequest(instructions)))),
      Dict(Message("user", UserContent(postIdea, instructions)))]
    ensures prompt == FinalPrompt(Strip(completion), brand.style, IsPromotionalRequest(instructions))
    ensures StartsWith(prompt, Strip(completion) + StyleLabel)
    ensures Contains(prompt, Join(brand.style, ", "))
  {
    var promotional := IsPromotionalRequest(instructions);
    var system := Dict(Message("system", SystemContent(brand.description, promotional)));
    var user := Dict(Message("user", UserContent(postIdea, instructions)));
    var content;
    request, content := Generate([system, user], ImagePrompt, mode, completion);
    assert request.messages[0] == system && request.messages[1] == user;
    assert request.messages == [system, user];
    prompt := FinalPrompt(Strip(content), brand.style, promotional);
    FinalPromptShape(Strip(content), brand.style, promotional);
  }
}
