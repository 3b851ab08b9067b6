/**
 * `TopicGenerator.generate_topics` (generators/topic_generator.py): the two
 * prompt messages, the chat request, and the parse of the model's answer.
 * The answer is a parameter; the results-file write is not modelled.
 */
module TopicGenerator {
  import opened Text
  import opened Llm
  import opened Prompts
  import opened ListOutput
  import Brands

  const SystemIntro: string :=
    "Eres un experto en marketing digital " +
    "y contenido para redes sociales especializado " +
    "en la marca siguiente:\n"
  const SystemTask: string :=
    "\n\nTu tarea es identificar y generar " +
    "temas específicos y relevantes para " +
    "campañas de redes sociales basados en " +
    "las instrucciones del usuario.\nSi las " +
    "instrucciones del usuario mencionan " +
    "promocionar un producto o servicio específico, " +
    "SIEMPRE asegúrate de que los temas estén " +
    "directamente relacionados con ese producto " +
    "o servicio.\n"

  /** The system message: the expert persona, the brand description, then the task. */
  function SystemContent(description: string): string {
    SystemIntro + description + SystemTask
  }

  /** The system message opens with the persona and holds the brand description. */
  lemma SystemContentShape(description: string)
    ensures StartsWith(SystemContent(description), SystemIntro)
    ensures Contains(SystemContent(description), description)
  {
    ContainsSelf(description);
    ContainsWithin(SystemIntro, description, SystemTask, description);
    assert SystemContent(description)[..|SystemIntro|] == SystemIntro;
  }

  const CountIntro: string := "Genera "
  const Instructions: string :=
    " temas específicos para posts de redes " +
    "sociales en el formato:\n- [Tema 1]\n- " +
    "[Tema 2]\n- etc.\n\nLos temas deben:\n1. " +
    "Ser específicos, atractivos y directamente " +
    "relevantes para la marca\n2. Estar orientados " +
    "a la acción o beneficio cuando sea apropiado\n" +
    "3. Ser claros, concisos y enfocados " +
    "(5-10 palabras cada uno)\n4. Evitar ser " +
    "demasiado genéricos"

  /** The user prompt before any extra instructions: the count, the list
      format, the four rules, and the avoid clause last. */
  function BasePrompt(topicCount: int): string {
    CountIntro + IntToString(topicCount) + Instructions + GetAvoids()
  }

  /** The user prompt: the base prompt, then the priority paragraph when the expansion is non-empty. */
  function UserPrompt(topicCount: int, expansion: string): string {
    WithPriorityInstructions(BasePrompt(topicCount), expansion)
  }

  /** The user prompt opens with "Genera " and the count; it ends with the
      avoid clause for an empty expansion, and with the priority paragraph
      and the expansion otherwise. */
  lemma UserPromptShape(topicCount: int, expansion: string)
    ensures StartsWith(UserPrompt(topicCount, expansion), CountIntro + IntToString(topicCount))
    ensures expansion == "" ==> EndsWith(UserPrompt(topicCount, expansion), GetAvoids())
    ensures expansion != "" ==> EndsWith(UserPrompt(topicCount, expansion), PriorityHeader + expansion)
  {
    var b := BasePrompt(topicCount);
    var head := CountIntro + IntToString(topicCount);
    assert b == head + (Instructions + GetAvoids());
    ConcatEnds(head, Instructions + GetAvoids());
    ConcatEnds(head + Instructions, GetAvoids());
    PriorityInstructionsShape(b, expansion);
    StartsWithTransitive(UserPrompt(topicCount, expansion), b, head);
  }

  /** `generate_topics` given the model's answer: the request it sends and
      the topics it returns. */
  method GenerateTopics(brand: Brands.Brand, topicCount: int, expansion: string, mode: GenerationMode, completion: string)
    returns (request: ChatRequest, topics: seq<string>)
    ensures request.model == ModelFor(Topics, mode)
    ensures request.messages == [Dict(Message("system", SystemContent(brand.description))),
                                 Dict(Message("user", UserPrompt(topicCount, expansion)))]
    ensures topics == ParseList(completion, topicCount)
    ensures topicCount >= 0 ==> |topics| <= topicCount
  {
    var system := Dict(Message("system", SystemContent(brand.description)));
    var user := Dict(Message("user", UserPrompt(topicCount, expansion)));
    var content;
    request, content := Generate([system, user], Topics, mode, completion);
    assert request.messages[0] == system && request.messages[1] == user;
    topics := ParseList(content, topicCount);
    ParseListItems(content, topicCount);
  }
}
