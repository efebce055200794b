/**
 * The generative-content request rules: the content type decides the model
 * and its generation settings, the call is retried a bounded number of
 * times with doubling waits, and the answer is normalised into a question
 * and an optional answer, with every failure surfacing as one of four fixed
 * messages.
 */
module Gemini {
  import opened Wrappers
  import opened Json
  import JsText
  import opened ContentTypes

  // ---------------------------------------------------------------------
  // Prompts and the structured-output schema
  // ---------------------------------------------------------------------

  const QuestionSystemPrompt: string :=
    "Actúas como un experto creador " +
    "de ítems para el examen de reválida " +
    "de psicología en Puerto Rico. " +
    "Tu estilo es formal, académico, " +
    "preciso, y enfocado en la aplicación " +
    "clínica/ética del conocimiento. " +
    "NUNCA respondas con texto libre; " +
    "tu única salida es el formato " +
    "JSON solicitado."

  const CaseSystemPrompt: string :=
    "Actúas como un supervisor clínico " +
    "con licencia en psicología en " +
    "Puerto Rico. Creas viñetas clínicas " +
    "complejas, realistas y culturalmente " +
    "relevantes para evaluar la capacidad " +
    "de toma de decisiones y el abordaje " +
    "ético/legal. Tu salida debe " +
    "ser el formato JSON solicitado."

  const ExplainSystemPrompt: string :=
    "Actúas como un tutor de psicología " +
    "amigable y paciente, experto " +
    "en simplificar conceptos complejos " +
    "del currículo puertorriqueño. " +
    "Usas analogías, viñetas y lenguaje " +
    "sencillo. NUNCA uses jerga académica " +
    "a menos que sea el concepto " +
    "a definir."

  const MnemonicSystemPrompt: string :=
    "Eres un creativo experto en " +
    "técnicas de memorización. Tu " +
    "especialidad es crear mnemotecnias " +
    "altamente efectivas, memorables " +
    "y originales EN ESPAÑOL. La " +
    "respuesta debe ser concisa y " +
    "en formato Markdown."


  /** `SYSTEM_PROMPTS[type]`. */
  function SystemPrompt(t: ContentType): string {
    match t
    case Question => QuestionSystemPrompt
    case Case => CaseSystemPrompt
    case Explain => ExplainSystemPrompt
    case Mnemonic => MnemonicSystemPrompt
  }

  // The user prompts: fixed text around the quoted section and the topics.

  const QuestionPromptLead: string :=
    "Genera UNA pregunta de práctica " +
    "de SELECCIÓN MÚLTIPLE de alta " +
    "dificultad basada en el área " +
    "'"

  const QuestionPromptAfterSection: string := "' y los temas: "

  const QuestionPromptAfterTopics: string :=
    ". La pregunta debe ser un escenario " +
    "clínico que requiera aplicar " +
    "las leyes o la ética de la profesión " +
    "en Puerto Rico. La respuesta " +
    "debe ser un objeto JSON con " +
    "los campos: 'question' (que " +
    "contenga el enunciado, las 4 " +
    "opciones A, B, C, D en texto " +
    "continuo) y 'answer' (que contenga " +
    "la letra correcta y la justificación)."

  const CasePromptLead: string :=
    "Crea un breve caso de estudio " +
    "(viñeta clínica) relevante al " +
    "área de '"

  const CasePromptAfterSection: string := "' y los temas: "

  const CasePromptAfterTopics: string :=
    ". El caso debe ser complejo, " +
    "involucrar a un paciente ficticio " +
    "con detalles socioculturales " +
    "de Puerto Rico, y presentar " +
    "un dilema (diagnóstico, ético " +
    "o legal). La respuesta debe " +
    "ser un objeto JSON con dos campos: " +
    "'question' (que contenga el " +
    "caso y la pregunta planteada " +
    "al estudiante) y 'answer' (que " +
    "contenga la discusión detallada " +
    "del abordaje, incluyendo la " +
    "referencia ética/legal aplicable)."

  const ExplainPromptLead: string :=
    "Explica los siguientes conceptos " +
    "del área '"

  const ExplainPromptAfterSection: string := "' como si yo fuera un principiante: "

  const ExplainPromptAfterTopics: string :=
    ". Usa un lenguaje muy sencillo, " +
    "viñetas (bullet points) y analogías " +
    "para que sea fácil de entender. " +
    "Formatea la respuesta en Markdown."

  const MnemonicPromptLead: string :=
    "Crea una mnemotecnia original " +
    "y útil en español para recordar " +
    "los siguientes conceptos clave " +
    "del área '"

  const MnemonicPromptAfterSection: string := "': "

  const MnemonicPromptAfterTopics: string :=
    ". Presenta la mnemotecnia en " +
    "negrita y luego explica brevemente " +
    "cómo funciona cada parte. Formatea " +
    "la respuesta en Markdown."

  /** The three fixed pieces of `USER_PROMPTS[type]`. */
  function UserPromptPieces(t: ContentType): (string, string, string) {
    match t
    case Question => (QuestionPromptLead, QuestionPromptAfterSection, QuestionPromptAfterTopics)
    case Case => (CasePromptLead, CasePromptAfterSection, CasePromptAfterTopics)
    case Explain => (ExplainPromptLead, ExplainPromptAfterSection, ExplainPromptAfterTopics)
    case Mnemonic => (MnemonicPromptLead, MnemonicPromptAfterSection, MnemonicPromptAfterTopics)
  }

  /** `USER_PROMPTS[type](section, topics)`. */
  function UserPrompt(t: ContentType, section: string, topics: string): string {
    var (lead, afterSection, afterTopics) := UserPromptPieces(t);
    lead + section + afterSection + topics + afterTopics
  }

  /** Every user prompt quotes the section and lists the topics. */
  lemma UserPromptMentions(t: ContentType, section: string, topics: string)
    ensures JsText.Includes(UserPrompt(t, section, topics), section)
    ensures JsText.Includes(UserPrompt(t, section, topics), topics)
  {
    var (a, b, c) := UserPromptPieces(t);
    TemplateMentions(a, section, b, topics, c);
  }

  /** A template `a + x + b + y + c` includes both of its holes. */
  lemma TemplateMentions(a: string, x: string, b: string, y: string, c: string)
    ensures JsText.Includes(a + x + b + y + c, x) && JsText.Includes(a + x + b + y + c, y)
  {
    var s := a + x + b + y + c;
    assert s[|a|..|a| + |x|] == x;
    assert JsText.OccursAt(s, x, |a|);
    assert s[|a + x + b|..|a + x + b| + |y|] == y;
    assert JsText.OccursAt(s, y, |a + x + b|);
  }

  /** `QUESTION_ANSWER_SCHEMA`: an object with string fields `question` and `answer`, both required. */
  const QuestionAnswerSchema: Json := JObj(map[
    "type" := JStr("OBJECT"),
    "properties" := JObj(map[
      "question" := JObj(map[
        "type" := JStr("STRING"),
        "description" := JStr("The complete psychology test question " +
          "or complex clinical case description, " +
          "including all multiple-choice options.")]),
      "answer" := JObj(map[
        "type" := JStr("STRING"),
        "description" := JStr("The detailed, correct answer/solution, " +
          "including the letter of the correct " +
          "option (if question) or the full clinical " +
          "rationale (if case).")])]),
    "required" := JArr([JStr("question"), JStr("answer")])])

  /** The schema's required fields are exactly `question` and `answer`, each typed as a string. */
  lemma SchemaRequiresQuestionAndAnswer()
    ensures Member(Some(QuestionAnswerSchema), "required") == Some(JArr([JStr("question"), JStr("answer")]))
    ensures forall f :: f in {"question", "answer"} ==>
      Member(Member(Member(Some(QuestionAnswerSchema), "properties"), f), "type") == Some(JStr("STRING"))
  {
  }

  // ---------------------------------------------------------------------
  // Model and configuration
  // ---------------------------------------------------------------------

  const ProModel: string := "models/gemini-2.5-pro"
  const FlashModel: string := "models/gemini-2.5-flash"
  const FlashLiteModel: string := "models/gemini-2.5-flash-lite"

  /** `getModelForContentType`: the pro model for cases, the lite model for
      mnemonics, the balanced model for questions and explanations. */
  function ModelFor(t: ContentType): (m: string)
    ensures m in {ProModel, FlashModel, FlashLiteModel}
    ensures m == ProModel <==> t == Case
    ensures m == FlashLiteModel <==> t == Mnemonic
  {
    match t
    case Case => ProModel
    case Mnemonic => FlashLiteModel
    case Question => FlashModel
    case Explain => FlashModel
  }

  /** The generation settings of `getModelConfig` apart from the system
      instruction; `temperature` is in thousandths (`0.15` is 150). */
  datatype Generation = Generation(
    maxOutputTokens: nat,
    temperature: int,
    responseMimeType: Option<string>,
    responseSchema: Option<Json>,
    thinkingBudget: Option<int>)

  /** The config object: the system prompt of the type and its settings. */
  datatype Config = Config(systemInstruction: string, generation: Generation)

  const BaseMaxOutputTokens: nat := 2048

  /** The settings `getModelConfig` gives a type: JSON output against the
      schema exactly for the types with an answer, twice the token budget
      for cases, unlimited thinking for questions and explanations and none
      for mnemonics. */
  function GenerationFor(t: ContentType): (g: Generation)
    ensures g.maxOutputTokens == if t == Case then 4096 else 2048
    ensures g.responseMimeType.Some? <==> HasAnswer(t)
    ensures g.responseSchema.Some? <==> HasAnswer(t)
    ensures HasAnswer(t) ==> g.responseMimeType == Some("application/json") && g.responseSchema == Some(QuestionAnswerSchema)
    ensures g.thinkingBudget.None? <==> t == Case
    ensures g.thinkingBudget == Some(0) <==> t == Mnemonic
    ensures g.thinkingBudget == Some(-1) <==> t == Question || t == Explain
  {
    var base := Generation(BaseMaxOutputTokens, 0, None, None, None);
    match t
    case Case =>
      base.(temperature := 100, responseMimeType := Some("application/json"),
            responseSchema := Some(QuestionAnswerSchema), maxOutputTokens := 4096)
    case Question =>
      base.(temperature := 150, responseMimeType := Some("application/json"),
            responseSchema := Some(QuestionAnswerSchema), thinkingBudget := Some(-1))
    case Explain =>
      base.(temperature := 200, thinkingBudget := Some(-1))
    case Mnemonic =>
      base.(temperature := 750, thinkingBudget := Some(0))
  }

  /** `getModelConfig`. */
  function ConfigFor(t: ContentType): Config {
    Config(SystemPrompt(t), GenerationFor(t))
  }

  /** The rank of a type by how much creativity its content needs. */
  function CreativityRank(t: ContentType): nat {
    match t
    case Case => 0
    case Question => 1
    case Explain => 2
    case Mnemonic => 3
  }

  /** Temperatures are 0.1, 0.15, 0.2 and 0.75 and rise strictly with the
      rank case < question < explain < mnemonic. */
  lemma TemperaturesRise(t: ContentType, u: ContentType)
    ensures CreativityRank(t) < CreativityRank(u) <==> GenerationFor(t).temperature < GenerationFor(u).temperature
    ensures GenerationFor(t).temperature in {100, 150, 200, 750}
  {
  }

  // ---------------------------------------------------------------------
  // The bounded retry loop
  // ---------------------------------------------------------------------

  const MaxRetries: nat := 3

  function Pow2(n: nat): (r: nat)
    ensures r >= 1
  {
    if n == 0 then 1 else 2 * Pow2(n - 1)
  }

  /** The request `generateContent` sends on every attempt. */
  datatype GenRequest = GenRequest(model: string, config: Config, prompt: string)

  /** The request for a type, a section and its topics. */
  function RequestFor(t: ContentType, section: string, topics: string): GenRequest {
    GenRequest(ModelFor(t), ConfigFor(t), UserPrompt(t, section, topics))
  }

  /** The request goes to the type's model with its settings, and its
      prompt quotes the section and lists the topics. */
  lemma RequestForMentions(t: ContentType, section: string, topics: string)
    ensures var r := RequestFor(t, section, topics);
      && r.model == ModelFor(t) && r.config.generation == GenerationFor(t)
      && JsText.Includes(r.prompt, section) && JsText.Includes(r.prompt, topics)
  {
    UserPromptMentions(t, section, topics);
  }

  /** A thrown value: an `Error` with its message, or anything else. */
  datatype Thrown = ErrorObject(message: string) | OtherValue

  /** What the SDK response offers: `response.text`, and the text of the
      first part of the first candidate. */
  datatype ApiResponse = ApiResponse(text: Option<string>, firstPartText: Value)

  /** One attempt of the SDK call: it returns a response or throws. */
  datatype CallOutcome = Returned(response: ApiResponse) | Raised(error: Thrown)

  datatype Attempts = Succeeded(response: ApiResponse) | GaveUp(error: Thrown)

  /** The loop from attempt `i` on: the outcome, and the waits (in
      milliseconds) between attempts. `api(req, k)` is the result of the k-th
      attempt. */
  function RetryFrom(api: (GenRequest, nat) -> CallOutcome, req: GenRequest, i: nat): (Attempts, seq<nat>)
    requires i < MaxRetries
    decreases MaxRetries - i
  {
    match api(req, i)
    case Returned(resp) => (Succeeded(resp), [])
    case Raised(e) =>
      if i == MaxRetries - 1 then (GaveUp(e), [])
      else
        var (a, w) := RetryFrom(api, req, i + 1);
        (a, [1000 * Pow2(i)] + w)
  }

  /** At most three attempts: the waits double from 1000 ms, every attempt
      before the last one failed, and the outcome is the last attempt's
      response or, after the third attempt, its error. */
  lemma {:induction false} RetryFromFacts(api: (GenRequest, nat) -> CallOutcome, req: GenRequest, i: nat)
    requires i < MaxRetries
    ensures var r := RetryFrom(api, req, i);
      && |r.1| <= MaxRetries - 1 - i
      && (forall k :: 0 <= k < |r.1| ==> r.1[k] == 1000 * Pow2(i + k))
      && (forall k :: i <= k < i + |r.1| ==> api(req, k).Raised?)
      && (r.0.Succeeded? ==> api(req, i + |r.1|) == Returned(r.0.response))
      && (r.0.GaveUp? ==> i + |r.1| == MaxRetries - 1 && api(req, MaxRetries - 1) == Raised(r.0.error))
    decreases MaxRetries - i
  {
    if api(req, i).Raised? && i < MaxRetries - 1 {
      RetryFromFacts(api, req, i + 1);
      var w := RetryFrom(api, req, i + 1).1;
      var r := RetryFrom(api, req, i);
      assert r.1 == [1000 * Pow2(i)] + w;
      forall k | 0 <= k < |r.1| ensures r.1[k] == 1000 * Pow2(i + k) {
        if k > 0 { assert r.1[k] == w[k - 1]; }
      }
    }
  }

  /** Three failed attempts end the loop with the third error, whatever a
      fourth attempt would have returned. */
  lemma ThreeFailuresGiveUp(api: (GenRequest, nat) -> CallOutcome, req: GenRequest)
    requires api(req, 0).Raised? && api(req, 1).Raised? && api(req, 2).Raised?
    ensures RetryFrom(api, req, 0) == (GaveUp(api(req, 2).error), [1000, 2000])
  {
    var e := api(req, 2).error;
    assert RetryFrom(api, req, 2) == (GaveUp(e), []);
    assert Pow2(1) == 2;
    assert [1000 * Pow2(1)] + [] == [2000];
    assert RetryFrom(api, req, 1) == (GaveUp(e), [2000]);
    assert [1000 * Pow2(0)] + [2000] == [1000, 2000];
  }

  /** The loop never looks at what an error is: two call sequences that
      succeed and fail on the same attempts, with the same responses, give
      the same outcome up to the error value and the same waits. */
  lemma {:induction false} RetryIgnoresErrorKind(api1: (GenRequest, nat) -> CallOutcome,
                                                 api2: (GenRequest, nat) -> CallOutcome,
                                                 req: GenRequest, i: nat)
    requires i < MaxRetries
    requires forall k :: i <= k < MaxRetries ==>
      (api1(req, k).Returned? <==> api2(req, k).Returned?) &&
      (api1(req, k).Returned? ==> api1(req, k) == api2(req, k))
    ensures RetryFrom(api1, req, i).1 == RetryFrom(api2, req, i).1
    ensures RetryFrom(api1, req, i).0.Succeeded? == RetryFrom(api2, req, i).0.Succeeded?
    ensures RetryFrom(api1, req, i).0.Succeeded? ==> RetryFrom(api1, req, i).0 == RetryFrom(api2, req, i).0
    decreases MaxRetries - i
  {
    if api1(req, i).Raised? && i < MaxRetries - 1 {
      RetryIgnoresErrorKind(api1, api2, req, i + 1);
    }
  }

  // ---------------------------------------------------------------------
  // Normalising the response
  // ---------------------------------------------------------------------

  datatype GeminiResponse = GeminiResponse(question: string, answer: Option<string>)

  const Delimiter: string := "---RESPUESTA---"
  const QuestionMissing: string := "Error: Fallback Question Missing"
  const AnswerMissing: string := "Error: Fallback Answer Missing"
  const UnparsedAnswer: string :=
    "No se pudo parsear la respuesta correcta " +
      "de este tipo de contenido. La salida " +
      "original está en el campo \"question\"."
  const NoContent: string := "No content generated"

  /** `parts[i]?.trim() || placeholder`. */
  function PieceOr(parts: seq<string>, i: nat, placeholder: string): (r: string)
    requires JsText.Unpadded(placeholder)
    ensures JsText.Unpadded(r)
    ensures i < |parts| && JsText.Trim(parts[i]) != "" ==> r == JsText.Trim(parts[i])
    ensures (i >= |parts| || JsText.Trim(parts[i]) == "") ==> r == placeholder
  {
    if i < |parts| && JsText.Trim(parts[i]) != "" then JsText.Trim(parts[i]) else placeholder
  }

  /** The delimiter fallback: the first two pieces of a case-insensitive
      split, trimmed, each replaced by its placeholder when empty. */
  function Fallback(text: string): (r: GeminiResponse)
    ensures r.answer.Some? && r.question != "" && r.answer.value != ""
    ensures JsText.Unpadded(r.question) && JsText.Unpadded(r.answer.value)
  {
    var parts := JsText.SplitIgnoreCase(text, Delimiter);
    GeminiResponse(PieceOr(parts, 0, QuestionMissing), Some(PieceOr(parts, 1, AnswerMissing)))
  }

  /** Text without the delimiter gives the whole trimmed text (or its
      placeholder) as the question and the answer placeholder. */
  lemma FallbackWithoutDelimiter(text: string)
    requires forall k: nat :: !JsText.MatchesAt(text, Delimiter, k)
    ensures Fallback(text) ==
      GeminiResponse(if JsText.Trim(text) == "" then QuestionMissing else JsText.Trim(text), Some(AnswerMissing))
  {
    JsText.SplitHead(text, Delimiter);
  }

  /** With a first delimiter at `k`, the question is what precedes it and
      the answer is what follows it up to the next delimiter. */
  lemma FallbackAtFirstDelimiter(text: string, k: nat)
    requires JsText.MatchesAt(text, Delimiter, k)
    requires forall j: nat :: j < k ==> !JsText.MatchesAt(text, Delimiter, j)
    ensures var parts := JsText.SplitIgnoreCase(text, Delimiter);
      Fallback(text) == GeminiResponse(PieceOr([text[..k]], 0, QuestionMissing),
                                       Some(PieceOr(JsText.SplitIgnoreCase(text[k + |Delimiter|..], Delimiter), 0, AnswerMissing)))
  {
    JsText.SplitHead(text, Delimiter);
    var f := JsText.FindFrom(text, Delimiter, 0);
    assert f == Some(k);
  }

  /** `JSON.parse(text)` when it yields an object whose `question` and
      `answer` are strings; the fallback split otherwise (a parse error,
      `null`, a non-object or a field of another type all land there). */
  function ParseOrSplit(text: string, parse: string -> Option<Json>): (r: GeminiResponse)
    ensures r.answer.Some?
    ensures JsText.Unpadded(r.question) && JsText.Unpadded(r.answer.value)
  {
    var parsed := parse(text);
    var q := Member(parsed, "question");
    var a := Member(parsed, "answer");
    if q.Some? && q.value.JStr? && a.Some? && a.value.JStr?
    then GeminiResponse(JsText.Trim(q.value.s), Some(JsText.Trim(a.value.s)))
    else Fallback(text)
  }

  /** A result of the normaliser: a response, or the error it throws. */
  datatype Normalized = Normal(response: GeminiResponse) | Throws(error: Thrown)

  /** The part of `generateContent` after a successful call. */
  function Normalize(t: ContentType, resp: ApiResponse, parse: string -> Option<Json>): (r: Normalized)
    ensures r.Throws? <==> resp.text.None? || resp.text.value == ""
    ensures r.Throws? ==> r.error == ErrorObject(NoContent)
    ensures r.Normal? ==> (r.response.answer.Some? <==> HasAnswer(t))
    ensures r.Normal? ==> JsText.Unpadded(r.response.question)
    ensures r.Normal? && r.response.answer.Some? ==> JsText.Unpadded(r.response.answer.value)
  {
    if resp.text.None? || resp.text.value == "" then Throws(ErrorObject(NoContent))
    else
      var text := resp.text.value;
      if HasAnswer(t) then
        if Truthy(resp.firstPartText) then Normal(ParseOrSplit(text, parse))
        else Normal(GeminiResponse(JsText.Trim(text), Some(UnparsedAnswer)))
      else Normal(GeminiResponse(JsText.Trim(text), None))
  }

  /** The structured path: a parsed object with two string fields gives both trimmed. */
  lemma NormalizeStructured(t: ContentType, resp: ApiResponse, parse: string -> Option<Json>, q: string, a: string)
    requires HasAnswer(t) && resp.text.Some? && resp.text.value != "" && Truthy(resp.firstPartText)
    requires ParsesTo(parse, resp.text.value, q, a)
    ensures Normalize(t, resp, parse) == Normal(GeminiResponse(JsText.Trim(q), Some(JsText.Trim(a))))
  {
    ParseOrSplitStructured(resp.text.value, parse, q, a);
  }

  /** A question or case whose response has no first-part text is not parsed:
      the question is the whole trimmed text and the answer a fixed notice. */
  lemma NormalizeUnparsed(t: ContentType, resp: ApiResponse, parse: string -> Option<Json>)
    requires HasAnswer(t) && resp.text.Some? && resp.text.value != "" && !Truthy(resp.firstPartText)
    ensures Normalize(t, resp, parse) == Normal(GeminiResponse(JsText.Trim(resp.text.value), Some(UnparsedAnswer)))
  {
  }

  /** A question or case whose response has first-part text goes through the
      parse-or-split path on the whole response text. */
  lemma NormalizeParsesCandidate(t: ContentType, resp: ApiResponse, parse: string -> Option<Json>)
    requires HasAnswer(t) && resp.text.Some? && resp.text.value != "" && Truthy(resp.firstPartText)
    ensures Normalize(t, resp, parse) == Normal(ParseOrSplit(resp.text.value, parse))
  {
  }

  /** `parse(text)` is an object whose `question` is `q` and whose `answer` is `a`. */
  predicate ParsesTo(parse: string -> Option<Json>, text: string, q: string, a: string) {
    var p := parse(text);
    p.Some? && p.value.JObj? && "question" in p.value.fields && "answer" in p.value.fields
    && p.value.fields["question"] == JStr(q) && p.value.fields["answer"] == JStr(a)
  }

  lemma ParseOrSplitStructured(text: string, parse: string -> Option<Json>, q: string, a: string)
    requires ParsesTo(parse, text, q, a)
    ensures ParseOrSplit(text, parse) == GeminiResponse(JsText.Trim(q), Some(JsText.Trim(a)))
  {
    assert Member(parse(text), "question") == Some(JStr(q));
    assert Member(parse(text), "answer") == Some(JStr(a));
  }

  /** Explanations and mnemonics give only the trimmed text. */
  lemma NormalizeFreeText(t: ContentType, resp: ApiResponse, parse: string -> Option<Json>)
    requires !HasAnswer(t) && resp.text.Some? && resp.text.value != ""
    ensures Normalize(t, resp, parse) == Normal(GeminiResponse(JsText.Trim(resp.text.value), None))
  {
  }

  // ---------------------------------------------------------------------
  // The closed set of error messages
  // ---------------------------------------------------------------------

  const QuotaMessage: string := "Se ha excedido el límite de uso de " +
    "la API. Intenta de nuevo más tarde."
  const SafetyMessage: string :=
    "El contenido fue bloqueado por las " +
      "políticas de seguridad o el formato " +
      "fue incorrecto. Intenta con temas " +
      "diferentes."
  const NetworkMessage: string := "Error de conexión. Verifica tu conexión " +
    "a internet e intenta de nuevo."
  const GenericMessage: string := "No se pudo generar el contenido. Intenta " +
    "de nuevo más tarde."

  /** The outer `catch`: the first matching group of words decides the message. */
  function ErrorMessage(e: Thrown): (m: string)
    ensures m in {QuotaMessage, SafetyMessage, NetworkMessage, GenericMessage}
  {
    match e
    case OtherValue => GenericMessage
    case ErrorObject(msg) =>
      if JsText.Includes(msg, "quota") || JsText.Includes(msg, "429") then QuotaMessage
      else if JsText.Includes(msg, "safety") || JsText.Includes(msg, "400") then SafetyMessage
      else if JsText.Includes(msg, "network") || JsText.Includes(msg, "fetch") then NetworkMessage
      else GenericMessage
  }

  /** An error mentioning a rate limit gets the quota message even when it
      also mentions a safety block or the network; the generic message is
      for values that are not errors and errors mentioning none of the six
      words. */
  lemma ErrorMessageOrder(e: Thrown)
    ensures Mentions(e, "quota") || Mentions(e, "429") ==> ErrorMessage(e) == QuotaMessage
    ensures ErrorMessage(e) == SafetyMessage <==>
      !(Mentions(e, "quota") || Mentions(e, "429")) && (Mentions(e, "safety") || Mentions(e, "400"))
    ensures ErrorMessage(e) == GenericMessage <==>
      !Mentions(e, "quota") && !Mentions(e, "429") && !Mentions(e, "safety") && !Mentions(e, "400")
      && !Mentions(e, "network") && !Mentions(e, "fetch")
  {
  }

  /** `error.message.includes(w)` for an `Error`; never for another thrown value. */
  predicate Mentions(e: Thrown, w: string) {
    e.ErrorObject? && JsText.Includes(e.message, w)
  }

  // ---------------------------------------------------------------------
  // The whole call
  // ---------------------------------------------------------------------

  datatype Generated = Generated(response: GeminiResponse) | Failed(message: string)

  /** `generateContent` on values, for the request `req` it sends on every
      attempt: the result and the waits between attempts. */
  function GenerateSpec(t: ContentType, req: GenRequest, api: (GenRequest, nat) -> CallOutcome,
                        parse: string -> Option<Json>): (Generated, seq<nat>)
  {
    var (a, waits) := RetryFrom(api, req, 0);
    match a
    case GaveUp(e) => (Failed(ErrorMessage(e)), waits)
    case Succeeded(resp) =>
      match Normalize(t, resp, parse)
      case Normal(g) => (Generated(g), waits)
      case Throws(e) => (Failed(ErrorMessage(e)), waits)
  }

  /** Every failure of `generateContent` is one of the four fixed messages,
      and at most three attempts (two waits) happen. */
  lemma GenerateFailuresAreFixed(t: ContentType, req: GenRequest, api: (GenRequest, nat) -> CallOutcome,
                                 parse: string -> Option<Json>)
    ensures var (g, waits) := GenerateSpec(t, req, api, parse);
      && |waits| < MaxRetries
      && (g.Failed? ==> g.message in {QuotaMessage, SafetyMessage, NetworkMessage, GenericMessage})
  {
  }

  /** A result carries an answer exactly when its type was asked for JSON. */
  lemma JsonConfigMatchesAnswer(t: ContentType, req: GenRequest, api: (GenRequest, nat) -> CallOutcome,
                                parse: string -> Option<Json>)
    ensures var g := GenerateSpec(t, req, api, parse).0;
      g.Generated? ==> (g.response.answer.Some? <==> GenerationFor(t).responseMimeType == Some("application/json"))
  {
  }

  /** The retry loop of `generateContent`: up to three attempts, waiting
      1000·2^i milliseconds after the failed attempt i when another follows. */
  method Attempt(req: GenRequest, api: (GenRequest, nat) -> CallOutcome) returns (a: Attempts, waits: seq<nat>)
    ensures (a, waits) == RetryFrom(api, req, 0)
  {
    waits := [];
    var i := 0;
    assert waits + RetryFrom(api, req, 0).1 == RetryFrom(api, req, 0).1;
    while i < MaxRetries
      invariant i < MaxRetries && |waits| == i
      invariant RetryFrom(api, req, 0) == (RetryFrom(api, req, i).0, waits + RetryFrom(api, req, i).1)
    {
      var outcome := api(req, i);
      if outcome.Returned? {
        assert waits + [] == waits;
        return Succeeded(outcome.response), waits;
      }
      if i == MaxRetries - 1 {
        assert waits + [] == waits;
        return GaveUp(outcome.error), waits;
      }
      assert waits + RetryFrom(api, req, i).1 == (waits + [1000 * Pow2(i)]) + RetryFrom(api, req, i + 1).1;
      waits := waits + [1000 * Pow2(i)];
      i := i + 1;
    }
    // the loop only ends by returning
    assert false;
  }

  /** `generateContent`: the retry loop, then the normaliser, then the message mapping. */
  method GenerateContent(t: ContentType, section: string, topics: string,
                         api: (GenRequest, nat) -> CallOutcome, parse: string -> Option<Json>)
    returns (result: Generated, waits: seq<nat>)
    ensures (result, waits) == GenerateSpec(t, RequestFor(t, section, topics), api, parse)
  {
    var req := RequestFor(t, section, topics);
    var attempts;
    attempts, waits := Attempt(req, api);
    if attempts.GaveUp? {
      return Failed(ErrorMessage(attempts.error)), waits;
    }
    var normalized := Normalize(t, attempts.response, parse);
    if normalized.Throws? {
      return Failed(ErrorMessage(normalized.error)), waits;
    }
    return Generated(normalized.response), waits;
  }

  // ---------------------------------------------------------------------
  // Titles and model information
  // ---------------------------------------------------------------------

  function TitleLabel(t: ContentType): string {
    match t
    case Question => "Pregunta: "
    case Case => "Caso Clínico: "
    case Explain => "Explicación Sencilla: "
    case Mnemonic => "Mnemotecnia: "
  }

  /** `getContentTitle`: the type's label followed by the section. */
  function ContentTitle(t: ContentType, section: string): (r: string)
    ensures |r| > |section| && r[|r| - |section|..] == section
  {
    TitleLabel(t) + section
  }

  /** Different types or different sections never share a title. */
  lemma ContentTitleInjective(t: ContentType, s: string, u: ContentType, v: string)
    requires ContentTitle(t, s) == ContentTitle(u, v)
    ensures t == u && s == v
  {
    assert ContentTitle(t, s)[0] == TitleLabel(t)[0];
    assert ContentTitle(u, v)[0] == TitleLabel(u)[0];
    var n := |TitleLabel(t)|;
    assert s == ContentTitle(t, s)[n..];
  }

  datatype ModelInfo = ModelInfo(model: string, name: string, description: string, cost: string, speed: string, quality: string)

  const ProDescription: string :=
    "Modelo más avanzado para razonamiento " +
    "complejo y casos clínicos (Alta Precisión)"
  const FlashDescription: string :=
    "Modelo balanceado y rápido para uso " +
    "general (Precisión Media-Alta)"
  const FlashLiteDescription: string :=
    "Modelo económico y rápido para tareas " +
    "simples (Bajo Costo/Velocidad Máxima)"

  /** The information table, keyed by model name. */
  function InfoFor(model: string): Option<ModelInfo> {
    if model == ProModel then
      Some(ModelInfo(model, "Gemini 2.5 Pro",
        ProDescription, "Alto", "Lento", "Excelente"))
    else if model == FlashModel then
      Some(ModelInfo(model, "Gemini 2.5 Flash",
        FlashDescription, "Medio", "Rápido", "Muy bueno"))
    else if model == FlashLiteModel then
      Some(ModelInfo(model, "Gemini 2.5 Flash Lite",
        FlashLiteDescription, "Bajo", "Muy rápido", "Bueno"))
    else None
  }

  /** `getModelInfo`: every model a type can select has an entry, and the
      cost is high for cases, low for mnemonics and medium otherwise. */
  function GetModelInfo(t: ContentType): (r: ModelInfo)
    ensures r.model == ModelFor(t)
    ensures r.cost == (if t == Case then "Alto" else if t == Mnemonic then "Bajo" else "Medio")
  {
    var info := InfoFor(ModelFor(t));
    if info.Some? then info.value else assert false; ModelInfo(ModelFor(t), "", "", "", "", "")
  }
}
