/**
 * `IdeaGenerator.generate_ideas` (generators/idea_generator.py): the two
 * prompt messages, the chat request, and the parse of the model's answer.
 * The answer is a parameter; the results-file appends are not modelled.
 */
module IdeaGenerator {
  import opened Text
  import opened Llm
  import opened Prompts
  import opened ListOutput
  import Brands

  const SystemIntro: string :=
    "Eres un experto creativo en marketing " +
    "digital y contenido para redes sociales " +
    "especializado en la marca siguiente:\n"
  const SystemTask: string :=
    "\n\nTu trabajo es crear ideas específicas " +
    "y atractivas para posts de redes sociales " +
    "basadas en un tema dado.\nSi las instrucciones " +
    "del usuario mencionan promocionar un " +
    "producto o servicio específico, SIEMPRE " +
    "asegúrate de que las ideas de post promocionen " +
    "directamente ese producto o servicio, " +
    "enfatizando sus beneficios, características " +
    "o valor único.\n"

  /** The system message: the creative persona, the brand description, then the task. */
  function SystemContent(description: string): string {
    SystemIntro + description + SystemTask
  }

  /** The system message opens with the persona and holds the brand description. */
  lemma SystemContentShape(description: string)
    ensures StartsWith(SystemContent(description), SystemIntro)
    ensures Contains(SystemContent(description), description)
  {
    ContainsSelf(description);
    ContainsWithin(SystemIntro, description, SystemTask, description);
    assert SystemContent(description)[..|SystemIntro|] == SystemIntro;
  }

  const CountIntro: string := "Genera "
  const TopicIntro: string :=
    " ideas creativas y específicas para " +
    "posts de redes sociales sobre el tema " +
    "'"
  const Instructions: string :=
    "' en formato de lista:\n- [Idea 1]\n- " +
    "[Idea 2]\n- etc.\n\nCada idea debe:\n1. " +
    "Ser una propuesta concreta de contenido " +
    "para un único post\n2. Incluir un enfoque " +
    "o ángulo específico (no solo el tema " +
    "general)\n3. Ser atractiva, original " +
    "y adaptada a la marca\n4. Estar lista " +
    "para desarrollarse en un post completo"

  /** The user prompt before any extra instructions. */
  function BasePrompt(numberOfIdeas: int, topic: string, style: seq<string>): string
  {
    CountIntro + IntToString(numberOfIdeas) + TopicIntro + topic + Instructions + GetAvoids() + BuildStylePrompt(style)
  }

  /** The user prompt: the base prompt, then the priority paragraph when the expansion is non-empty. */
  function UserPrompt(numberOfIdeas: int, topic: string, style: seq<string>, expansion: string): string {
    WithPriorityInstructions(BasePrompt(numberOfIdeas, topic, style), expansion)
  }

  /** The user prompt opens with the base prompt; it is the base prompt
      alone for an empty expansion, and ends with the priority paragraph
      and the expansion otherwise. */
  lemma UserPromptShape(numberOfIdeas: int, topic: string, style: seq<string>, expansion: string)
    ensures StartsWith(UserPrompt(numberOfIdeas, topic, style, expansion), BasePrompt(numberOfIdeas, topic, style))
    ensures expansion == "" ==> UserPrompt(numberOfIdeas, topic, style, expansion) == BasePrompt(numberOfIdeas, topic, style)
    ensures expansion != "" ==> EndsWith(UserPrompt(numberOfIdeas, topic, style, expansion), PriorityHeader + expansion)
  {
    PriorityInstructionsShape(BasePrompt(numberOfIdeas, topic, style), expansion);
  }

  /** The user prompt names the count, then the topic, then the avoid
      clause, then the style guidelines, in that order. */
  lemma UserPromptOrder(numberOfIdeas: int, topic: string, style: seq<string>, expansion: string)
    ensures exists i, j, k, l :: (0 <= i < j < k < l &&
      OccursAt(UserPrompt(numberOfIdeas, topic, style, expansion), IntToString(numberOfIdeas), i) &&
      OccursAt(UserPrompt(numberOfIdeas, topic, style, expansion), topic, j) &&
      OccursAt(UserPrompt(numberOfIdeas, topic, style, expansion), GetAvoids(), k) &&
      OccursAt(UserPrompt(numberOfIdeas, topic, style, expansion), BuildStylePrompt(style), l))
  {
    var r := UserPrompt(numberOfIdeas, topic, style, expansion);
    var tail := if expansion != "" then PriorityHeader + expansion else "";
    assert r == BasePrompt(numberOfIdeas, topic, style) + tail;
    assert |Instructions| > 0;
    AvoidsIsNote();
    var i, j, k, l := InOrder(CountIntro, IntToString(numberOfIdeas), TopicIntro, topic, Instructions, GetAvoids(), BuildStylePrompt(style), tail);
    assert OccursAt(r, IntToString(numberOfIdeas), i) && OccursAt(r, topic, j);
    assert OccursAt(r, GetAvoids(), k) && OccursAt(r, BuildStylePrompt(style), l);
  }

  /** Four pieces laid out one after another occur in that order, at the returned positions. */
  lemma InOrder(p: string, a: string, q: string, b: string, u: string, c: string, d: string, tail: string)
    returns (i: nat, j: nat, k: nat, l: nat)
    requires |a| > 0 && |u| > 0 && |c| > 0
    ensures i < j < k < l
    ensures OccursAt(p + a + q + b + u + c + d + tail, a, i)
    ensures OccursAt(p + a + q + b + u + c + d + tail, b, j)
    ensures OccursAt(p + a + q + b + u + c + d + tail, c, k)
    ensures OccursAt(p + a + q + b + u + c + d + tail, d, l)
  {
    var r := p + a + q + b + u + c + d + tail;
    var p2 := p + a + q;
    var p3 := p2 + b + u;
    var p4 := p3 + c;
    assert r == p + a + (q + b + u + c + d + tail);
    OccursBetween(p, a, q + b + u + c + d + tail);
    assert r == p2 + b + (u + c + d + tail);
    OccursBetween(p2, b, u + c + d + tail);
    assert r == p3 + c + (d + tail);
    OccursBetween(p3, c, d + tail);
    assert r == p4 + d + tail;
    OccursBetween(p4, d, tail);
    i, j, k, l := |p|, |p2|, |p3|, |p4|;
  }

  /** `generate_ideas` given the model's answer: the request it sends and
      the ideas it returns. */
  method GenerateIdeas(brand: Brands.Brand, numberOfIdeas: int, expansion: string, mode: GenerationMode,
                       topic: string, completion: string)
    returns (request: ChatRequest, ideas: seq<string>)
    ensures request.model == ModelFor(Ideas, mode)
    ensures request.messages == [Dict(Message("system", SystemContent(brand.description))),
                                 Dict(Message("user", UserPrompt(numberOfIdeas, topic, brand.style, expansion)))]
    ensures ideas == ParseList(completion, numberOfIdeas)
    ensures numberOfIdeas >= 0 ==> |ideas| <= numberOfIdeas
  {
    var system := Dict(Message("system", SystemContent(brand.description)));
    var user := Dict(Message("user", UserPrompt(numberOfIdeas, topic, brand.style, expansion)));
    var content;
    request, content := Generate([system, user], Ideas, mode, completion);
    assert request.messages[0] == system && request.messages[1] == user;
    ideas := ParseList(content, numberOfIdeas);
    ParseListItems(content, numberOfIdeas);
  }
}
