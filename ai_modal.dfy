/**
 * The AI practice modal: six fields updated by four transitions (the start
 * of `openModal`, its completion, `closeModal` and `revealAnswer`), and the
 * retry loop `fetchWithExponentialBackoff` that sits between the start and
 * the completion. A completion that arrives after a close is the sequence
 * of steps start, close, completion.
 */
module AIModal {
  import opened Wrappers
  import opened Json
  import JsText
  import opened ContentTypes
  import Gemini

  // ---------------------------------------------------------------------
  // Prompts, titles and the request
  // ---------------------------------------------------------------------

  const QuestionSystemPrompt: string :=
    "Actúas como un experto creador " +
    "de preguntas para el examen " +
    "de reválida de psicología en " +
    "Puerto Rico, siguiendo el estilo " +
    "del manual de la Junta Examinadora. " +
    "Eres preciso, claro y enfocado " +
    "en la aplicación del conocimiento."

  const CaseSystemPrompt: string :=
    "Actúas como un supervisor clínico " +
    "de psicología en Puerto Rico. " +
    "Creas viñetas clínicas realistas " +
    "y culturalmente relevantes para " +
    "entrenar a futuros psicólogos."

  const ExplainSystemPrompt: string :=
    "Actúas como un tutor de psicología " +
    "amigable y paciente, experto " +
    "en simplificar conceptos complejos. " +
    "Usas analogías y lenguaje sencillo " +
    "y claro."

  const MnemonicSystemPrompt: string :=
    "Eres un creativo experto en " +
    "técnicas de memorización. Tu " +
    "especialidad es crear mnemotecnias " +
    "efectivas y memorables en español."


  /** `systemPrompts[type]`. */
  function SystemPrompt(t: ContentType): string {
    match t
    case Question => QuestionSystemPrompt
    case Case => CaseSystemPrompt
    case Explain => ExplainSystemPrompt
    case Mnemonic => MnemonicSystemPrompt
  }

  const QuestionPromptLead: string :=
    "Basado en los siguientes temas " +
    "del área de '"

  const QuestionPromptAfterSection: string := "': "

  const QuestionPromptAfterTopics: string :=
    ". Genera UNA pregunta de práctica " +
    "de selección múltiple. La pregunta " +
    "debe ser un escenario o requerir " +
    "la aplicación de conocimiento. " +
    "Después del enunciado de la " +
    "pregunta, presenta cuatro opciones " +
    "de respuesta etiquetadas como " +
    "a, b, c, y d. Importante: Cada " +
    "opción de respuesta debe estar " +
    "en una nueva línea para facilitar " +
    "la lectura. Después de las cuatro " +
    "opciones, incluye el delimitador " +
    "'---RESPUESTA---'. Finalmente, " +
    "provee la letra de la respuesta " +
    "correcta y una explicación concisa " +
    "y clara de por qué es correcta " +
    "y por qué las otras son incorrectas."

  const CasePromptLead: string :=
    "Crea un breve caso de estudio " +
    "(viñeta clínica) relevante al " +
    "área de '"

  const CasePromptAfterSection: string := "' y los temas: "

  const CasePromptAfterTopics: string :=
    ". El caso debe involucrar a " +
    "un paciente ficticio y presentar " +
    "un dilema o una pregunta diagnóstica/éti" +
    "ca/de tratamiento. Incluye detalles " +
    "socioculturales de Puerto Rico. " +
    "Después del caso, plantea una " +
    "pregunta clara para el estudiante. " +
    "Luego, incluye el delimitador " +
    "'---RESPUESTA---'. Finalmente, " +
    "provee una discusión detallada " +
    "de cómo un psicólogo licenciado " +
    "abordaría la pregunta, aplicando " +
    "los conceptos relevantes."

  const ExplainPromptLead: string :=
    "Explica los siguientes conceptos " +
    "del área '"

  const ExplainPromptAfterSection: string := "' como si yo fuera un principiante: "

  const ExplainPromptAfterTopics: string :=
    ". Usa un lenguaje muy sencillo, " +
    "viñetas (bullet points) y analogías " +
    "para que sea fácil de entender. " +
    "Formatea la respuesta en Markdown."

  const MnemonicPromptLead: string :=
    "Crea una mnemotecnia original " +
    "y útil en español para recordar " +
    "los siguientes conceptos clave " +
    "del área '"

  const MnemonicPromptAfterSection: string := "': "

  const MnemonicPromptAfterTopics: string :=
    ". Presenta la mnemotecnia en " +
    "negrita y luego explica brevemente " +
    "cómo funciona cada parte. Formatea " +
    "la respuesta en Markdown."

  /** The three fixed pieces of `userPrompts[type]`. */
  function UserPromptPieces(t: ContentType): (string, string, string) {
    match t
    case Question => (QuestionPromptLead, QuestionPromptAfterSection, QuestionPromptAfterTopics)
    case Case => (CasePromptLead, CasePromptAfterSection, CasePromptAfterTopics)
    case Explain => (ExplainPromptLead, ExplainPromptAfterSection, ExplainPromptAfterTopics)
    case Mnemonic => (MnemonicPromptLead, MnemonicPromptAfterSection, MnemonicPromptAfterTopics)
  }

  /** `userPrompts[type](section, topics)`. */
  function UserPrompt(t: ContentType, section: string, topics: string): string {
    var (lead, afterSection, afterTopics) := UserPromptPieces(t);
    lead + section + afterSection + topics + afterTopics
  }

  /** Every user prompt of the modal quotes the section and lists the topics. */
  lemma UserPromptMentions(t: ContentType, section: string, topics: string)
    ensures JsText.Includes(UserPrompt(t, section, topics), section)
    ensures JsText.Includes(UserPrompt(t, section, topics), topics)
  {
    var (a, b, c) := UserPromptPieces(t);
    Gemini.TemplateMentions(a, section, b, topics, c);
  }

  /** `titles[type](section)`. */
  function Title(t: ContentType, section: string): string {
    match t
    case Question => "Pregunta: " + section
    case Case => "Caso Clínico: " + section
    case Explain => "Explicación Sencilla: " + section
    case Mnemonic => "Mnemotecnia: " + section
  }

  /** The modal titles agree with the titles of the request rules. */
  lemma TitleAgreesWithContentTitle(t: ContentType, section: string)
    ensures Title(t, section) == Gemini.ContentTitle(t, section)
  {
  }

  const ApiUrlPrefix: string :=
    "https://generativelanguage.googleapis.com/" +
    "v1beta/models/gemini-2.5-flash-preview-05-20" +
    ":generateContent?key="

  /** The POST the modal sends: the URL with the key, the user prompt and
      the system instruction. */
  datatype Request = Request(url: string, userText: string, systemText: string)

  function RequestFor(t: ContentType, section: string, topics: string, apiKey: string): Request {
    Request(ApiUrlPrefix + apiKey, UserPrompt(t, section, topics), SystemPrompt(t))
  }

  // ---------------------------------------------------------------------
  // fetchWithExponentialBackoff
  // ---------------------------------------------------------------------

  /** What one `fetch` gives: a network failure, or a response with its
      status and its body as `response.json()` reads it (`None` when that
      promise rejects). */
  datatype FetchOutcome = NetworkFailure | Response(status: int, json: Option<Json>)

  /** The errors the loop can end with. */
  datatype FetchError =
    | NetworkError                // `fetch` itself rejected
    | HttpError(status: int)      // `HTTP error! status: N`
    | RequestFailed(status: int)  // `API request failed with status N`
    | InvalidJson                 // the returned `response.json()` rejected

  /** `response.ok`. */
  predicate Ok(status: int) {
    200 <= status <= 299
  }

  /** One attempt inside the `try`: the response passes, or the attempt throws. */
  datatype Attempt = Passed(json: Option<Json>) | Threw(error: FetchError)

  function Classify(o: FetchOutcome): (a: Attempt)
    ensures a.Passed? <==> o.Response? && Ok(o.status)
    ensures o.Response? && (o.status == 429 || o.status >= 500) ==> a == Threw(HttpError(o.status))
  {
    match o
    case NetworkFailure => Threw(NetworkError)
    case Response(status, json) =>
      if status == 429 || status >= 500 then Threw(HttpError(status))
      else if !Ok(status) then Threw(RequestFailed(status))
      else Passed(json)
  }

  /** The promise `fetchWithExponentialBackoff` returns, as `await` sees it. */
  datatype Fetched = Resolved(value: Value) | Rejected(error: FetchError)

  /** The loop from attempt `i` on, with the current `delay`: the result and
      the waits. `fetch(req, k)` is the outcome of the k-th request. */
  function BackoffFrom(fetch: (Request, nat) -> FetchOutcome, req: Request, retries: nat, i: nat, delay: nat)
    : (Fetched, seq<nat>)
    requires i <= retries
    decreases retries - i
  {
    if i == retries then (Resolved(None), [])
    else
      match Classify(fetch(req, i))
      case Passed(json) => (if json.Some? then Resolved(json) else Rejected(InvalidJson), [])
      case Threw(e) =>
        if i < retries - 1 then
          var (a, w) := BackoffFrom(fetch, req, retries, i + 1, delay * 2);
          (a, [delay] + w)
        else (Rejected(e), [])
  }

  /** Fewer waits than attempts left, the delay doubles from wait to wait,
      and every attempt that was waited after failed. */
  lemma {:induction false} BackoffFromFacts(fetch: (Request, nat) -> FetchOutcome, req: Request, retries: nat, i: nat, delay: nat)
    requires i <= retries
    ensures var w := BackoffFrom(fetch, req, retries, i, delay).1;
      && |w| <= retries - i && (i < retries ==> |w| < retries - i)
      && (forall k :: 0 <= k < |w| ==> w[k] == delay * Gemini.Pow2(k))
      && (forall k :: i <= k < i + |w| ==> Classify(fetch(req, k)).Threw?)
    decreases retries - i
  {
    if i < retries - 1 && Classify(fetch(req, i)).Threw? {
      BackoffFromFacts(fetch, req, retries, i + 1, delay * 2);
      var rest := BackoffFrom(fetch, req, retries, i + 1, delay * 2).1;
      var w := BackoffFrom(fetch, req, retries, i, delay).1;
      assert w == [delay] + rest;
      forall k | 0 <= k < |w| ensures w[k] == delay * Gemini.Pow2(k) {
        if k > 0 {
          assert w[k] == rest[k - 1];
          DoubleDelay(delay, k - 1);
        }
      }
    }
  }

  lemma DoubleDelay(delay: nat, k: nat)
    ensures delay * 2 * Gemini.Pow2(k) == delay * Gemini.Pow2(k + 1)
  {
  }

  /** How the loop ends: `undefined` exactly when no attempt is allowed; a
      value from the first attempt that passes; otherwise the rejection of
      its body or the error of the last allowed attempt. */
  lemma {:induction false} BackoffEnds(fetch: (Request, nat) -> FetchOutcome, req: Request, retries: nat, i: nat, delay: nat)
    requires i <= retries
    ensures var (r, w) := BackoffFrom(fetch, req, retries, i, delay);
      && (r == Resolved(None) <==> i == retries)
      && (r.Resolved? && r.value.Some? ==>
            var o := fetch(req, i + |w|); o.Response? && Ok(o.status) && o.json == r.value)
      && (r.Rejected? ==>
            var o := fetch(req, i + |w|);
            || (r.error == InvalidJson && o.Response? && Ok(o.status) && o.json.None?)
            || (i + |w| == retries - 1 && Classify(o) == Threw(r.error)))
    decreases retries - i
  {
    if i < retries && Classify(fetch(req, i)).Threw? && i < retries - 1 {
      BackoffEnds(fetch, req, retries, i + 1, delay * 2);
    }
  }

  /** Every status outside 200-299 (429, 5xx and the rest alike) and every
      network failure is retried while attempts remain. */
  lemma FailuresAreRetried(fetch: (Request, nat) -> FetchOutcome, req: Request, retries: nat, i: nat, delay: nat)
    requires i < retries - 1
    requires fetch(req, i).NetworkFailure? || !Ok(fetch(req, i).status)
    ensures BackoffFrom(fetch, req, retries, i, delay) ==
      (BackoffFrom(fetch, req, retries, i + 1, delay * 2).0, [delay] + BackoffFrom(fetch, req, retries, i + 1, delay * 2).1)
  {
  }

  /** A body that fails to parse is not retried: `return response.json()`
      hands the rejection to the caller outside the `try`. */
  lemma JsonRejectionIsNotRetried(fetch: (Request, nat) -> FetchOutcome, req: Request, retries: nat, i: nat, delay: nat)
    requires i < retries
    requires fetch(req, i).Response? && Ok(fetch(req, i).status) && fetch(req, i).json.None?
    ensures BackoffFrom(fetch, req, retries, i, delay) == (Rejected(InvalidJson), [])
  {
  }

  /** With the default five attempts, five failures wait 1, 2, 4 and 8
      seconds and end with the last error. */
  lemma FiveFailuresGiveUp(fetch: (Request, nat) -> FetchOutcome, req: Request)
    requires forall k :: 0 <= k < 5 ==> Classify(fetch(req, k)).Threw?
    ensures BackoffFrom(fetch, req, 5, 0, 1000) == (Rejected(Classify(fetch(req, 4)).error), [1000, 2000, 4000, 8000])
  {
    var e := Classify(fetch(req, 4)).error;
    assert Classify(fetch(req, 3)).Threw? && Classify(fetch(req, 2)).Threw?;
    assert Classify(fetch(req, 1)).Threw? && Classify(fetch(req, 0)).Threw?;
    assert BackoffFrom(fetch, req, 5, 4, 16000) == (Rejected(e), []);
    assert [8000] + [] == [8000];
    assert BackoffFrom(fetch, req, 5, 3, 8000) == (Rejected(e), [8000]);
    assert [4000] + [8000] == [4000, 8000];
    assert BackoffFrom(fetch, req, 5, 2, 4000) == (Rejected(e), [4000, 8000]);
    assert [2000] + [4000, 8000] == [2000, 4000, 8000];
    assert BackoffFrom(fetch, req, 5, 1, 2000) == (Rejected(e), [2000, 4000, 8000]);
    assert [1000] + [2000, 4000, 8000] == [1000, 2000, 4000, 8000];
  }

  /** `fetchWithExponentialBackoff(apiUrl, payload, retries)` with the initial delay of one second. */
  method FetchWithBackoff(req: Request, fetch: (Request, nat) -> FetchOutcome, retries: nat)
    returns (r: Fetched, waits: seq<nat>)
    ensures (r, waits) == BackoffFrom(fetch, req, retries, 0, 1000)
  {
    var delay := 1000;
    waits := [];
    var i := 0;
    assert waits + BackoffFrom(fetch, req, retries, 0, 1000).1 == BackoffFrom(fetch, req, retries, 0, 1000).1;
    while i < retries
      invariant i <= retries
      invariant BackoffFrom(fetch, req, retries, 0, 1000) ==
        (BackoffFrom(fetch, req, retries, i, delay).0, waits + BackoffFrom(fetch, req, retries, i, delay).1)
    {
      var attempt := Classify(fetch(req, i));
      if attempt.Passed? {
        assert waits + [] == waits;
        if attempt.json.Some? {
          return Resolved(attempt.json), waits;
        }
        return Rejected(InvalidJson), waits;
      }
      if i < retries - 1 {
        ghost var rest := BackoffFrom(fetch, req, retries, i + 1, delay * 2);
        assert waits + ([delay] + rest.1) == (waits + [delay]) + rest.1;
        waits := waits + [delay];
        delay := delay * 2;
      } else {
        assert waits + [] == waits;
        return Rejected(attempt.error), waits;
      }
      i := i + 1;
    }
    assert waits + [] == waits;
    return Resolved(None), waits;
  }

  // ---------------------------------------------------------------------
  // The modal state and its transitions on values
  // ---------------------------------------------------------------------

  datatype ModalState = ModalState(
    isOpen: bool,
    loading: bool,
    modalTitle: string,
    questionContent: string,
    answerContent: string,
    showAnswer: bool)

  const InitialTitle: string := "Práctica Generada por IA"
  const Initial: ModalState := ModalState(false, false, InitialTitle, "", "", false)

  const FallbackText: string := "No se pudo generar contenido. " + "Inténtalo de nuevo."
  const ErrorHtml: string :=
    "<p class=\"text-red-500\">Hubo un error " +
    "al generar el contenido. Por favor, " +
    "intenta de nuevo más tarde.</p>"

  /** The first update of `openModal`. */
  function Started(s: ModalState, t: ContentType, section: string): ModalState {
    s.(isOpen := true, loading := true, modalTitle := Title(t, section),
       questionContent := "", answerContent := "", showAnswer := false)
  }

  /** The last update of `openModal`, with the two contents it computed. */
  function Completed(s: ModalState, question: string, answer: string): ModalState {
    s.(loading := false, questionContent := question, answerContent := answer)
  }

  function Closed(s: ModalState): ModalState {
    s.(isOpen := false, questionContent := "", answerContent := "", showAnswer := false)
  }

  function Revealed(s: ModalState): ModalState {
    s.(showAnswer := !s.showAnswer)
  }

  /** `result.candidates?.[0]?.content?.parts?.[0]?.text` for a result
      that is neither `null` nor `undefined`. */
  function CandidateText(result: Json): Value {
    Member(First(Member(Member(First(Member(Some(result), "candidates")), "content"), "parts")), "text")
  }

  /** The contents `openModal` writes once the fetch has settled, with
      `render` standing for `marked.parse`. Every throw inside the `try`
      (a rejected fetch, a result that is `null` or `undefined`, a text that
      is not a string) gives the error HTML. */
  function Contents(t: ContentType, fetched: Fetched, render: string -> string): (c: (string, string))
    ensures fetched.Rejected? ==> c == (ErrorHtml, "")
    ensures fetched == Resolved(None) || fetched == Resolved(Some(JNull)) ==> c == (ErrorHtml, "")
    ensures !HasAnswer(t) && c != (ErrorHtml, "") ==> c.1 == ""
  {
    match fetched
    case Rejected(_) => (ErrorHtml, "")
    case Resolved(result) =>
      if result.None? || result == Some(JNull) then (ErrorHtml, "")
      else
        var candidate := CandidateText(result.value);
        var text := if Truthy(candidate) then candidate.value else JStr(FallbackText);
        if !text.JStr? then (ErrorHtml, "") else TextContents(t, text.s, render)
  }

  /** The contents rendered from a string text: the first two pieces of the
      delimiter split for questions and cases, the whole text otherwise. */
  function TextContents(t: ContentType, text: string, render: string -> string): (string, string) {
    if HasAnswer(t) then
      var parts := JsText.SplitIgnoreCase(text, Gemini.Delimiter);
      (render(parts[0]), render(if |parts| > 1 then parts[1] else ""))
    else (render(text), "")
  }

  /** A question or case renders what precedes the first delimiter as the
      question and what follows it, up to the next one, as the answer;
      without a delimiter the answer renders `''`. Other types render the
      whole text and leave the answer empty. */
  lemma TextContentsSplit(t: ContentType, text: string, render: string -> string, k: nat)
    ensures HasAnswer(t) && JsText.MatchesAt(text, Gemini.Delimiter, k)
            && (forall j: nat :: j < k ==> !JsText.MatchesAt(text, Gemini.Delimiter, j)) ==>
      TextContents(t, text, render).0 == render(text[..k])
      && TextContents(t, text, render).1
         == render(JsText.SplitIgnoreCase(text[k + |Gemini.Delimiter|..], Gemini.Delimiter)[0])
    ensures HasAnswer(t) && (forall j: nat :: !JsText.MatchesAt(text, Gemini.Delimiter, j)) ==>
      TextContents(t, text, render) == (render(text), render(""))
    ensures !HasAnswer(t) ==> TextContents(t, text, render) == (render(text), "")
  {
    if HasAnswer(t) && JsText.MatchesAt(text, Gemini.Delimiter, k)
       && (forall j: nat :: j < k ==> !JsText.MatchesAt(text, Gemini.Delimiter, j))
    {
      TextContentsAtDelimiter(t, text, render, k);
    }
    if HasAnswer(t) && (forall j: nat :: !JsText.MatchesAt(text, Gemini.Delimiter, j)) {
      JsText.SplitHead(text, Gemini.Delimiter);
    }
  }

  /** Both pieces when the first delimiter starts at `k`. */
  lemma TextContentsAtDelimiter(t: ContentType, text: string, render: string -> string, k: nat)
    requires HasAnswer(t) && JsText.MatchesAt(text, Gemini.Delimiter, k)
    requires forall j: nat :: j < k ==> !JsText.MatchesAt(text, Gemini.Delimiter, j)
    ensures TextContents(t, text, render).0 == render(text[..k])
    ensures TextContents(t, text, render).1
            == render(JsText.SplitIgnoreCase(text[k + |Gemini.Delimiter|..], Gemini.Delimiter)[0])
  {
    var first := JsText.FindFrom(text, Gemini.Delimiter, 0);
    assert first.Some?;
    assert !(first.value < k) && !(k < first.value);
  }

  /** A string candidate text is rendered as it is; a result without
      candidate text (absent, `null`, `false`, `0` or `''`) is rendered as
      the fixed fallback text. */
  lemma ContentsOfText(t: ContentType, result: Json, render: string -> string)
    requires result != JNull
    ensures CandidateText(result).Some? && CandidateText(result).value.JStr? && Truthy(CandidateText(result)) ==>
      Contents(t, Resolved(Some(result)), render) == TextContents(t, CandidateText(result).value.s, render)
    ensures !Truthy(CandidateText(result)) ==>
      Contents(t, Resolved(Some(result)), render) == TextContents(t, FallbackText, render)
  {
  }

  /** A candidate text that is truthy but not a string (a number, `true`, an
      array or an object) makes `split` or `marked.parse` throw. */
  lemma NonStringTextIsError(t: ContentType, result: Json, render: string -> string)
    requires result != JNull && Truthy(CandidateText(result)) && !CandidateText(result).value.JStr?
    ensures Contents(t, Resolved(Some(result)), render) == (ErrorHtml, "")
  {
  }

  /** The open-start step opens the modal in the loading state with the
      type's title, both contents cleared and the answer hidden. */
  lemma StartedOpensLoading(s: ModalState, t: ContentType, section: string)
    ensures var n := Started(s, t, section);
      n.isOpen && n.loading && !n.showAnswer && n.questionContent == "" && n.answerContent == ""
      && n.modalTitle == Gemini.ContentTitle(t, section)
  {
  }

  /** A completion clears `loading` and writes only the two contents. */
  lemma CompletionWritesOnlyContents(s: ModalState, question: string, answer: string)
    ensures var n := Completed(s, question, answer);
      !n.loading && n.questionContent == question && n.answerContent == answer
      && n.(loading := s.loading, questionContent := s.questionContent, answerContent := s.answerContent) == s
  {
  }

  /** A completion arriving after `closeModal` leaves the modal closed, the
      answer hidden and the title of the interrupted request. */
  lemma CloseDuringLoad(s: ModalState, t: ContentType, section: string, question: string, answer: string)
    ensures var n := Completed(Closed(Started(s, t, section)), question, answer);
      !n.isOpen && !n.loading && !n.showAnswer && n.modalTitle == Title(t, section)
  {
  }

  /** `closeModal` closes, clears both contents and hides the answer, and
      leaves `loading` and the title as they were. */
  lemma CloseKeepsLoadingAndTitle(s: ModalState)
    ensures var n := Closed(s);
      !n.isOpen && !n.showAnswer && n.questionContent == "" && n.answerContent == ""
      && n.loading == s.loading && n.modalTitle == s.modalTitle
  {
  }

  /** `revealAnswer` toggles only `showAnswer`, so applying it twice restores the state. */
  lemma RevealTwiceRestores(s: ModalState)
    ensures Revealed(s).showAnswer != s.showAnswer
    ensures Revealed(s).(showAnswer := s.showAnswer) == s
    ensures Revealed(Revealed(s)) == s
  {
  }

  // ---------------------------------------------------------------------
  // The provider as a class
  // ---------------------------------------------------------------------

  /** `AIModalProvider`'s `modalState`, field by field. */
  class AIModalProvider {
    var isOpen: bool
    var loading: bool
    var modalTitle: string
    var questionContent: string
    var answerContent: string
    var showAnswer: bool

    function State(): ModalState
      reads this
    {
      ModalState(isOpen, loading, modalTitle, questionContent, answerContent, showAnswer)
    }

    constructor ()
      ensures State() == Initial
    {
      isOpen := false;
      loading := false;
      modalTitle := InitialTitle;
      questionContent := "";
      answerContent := "";
      showAnswer := false;
    }

    /** The first `setModalState` of `openModal`. */
    method OpenStart(t: ContentType, section: string)
      modifies this
      ensures State() == Started(old(State()), t, section)
    {
      isOpen := true;
      loading := true;
      modalTitle := Title(t, section);
      questionContent := "";
      answerContent := "";
      showAnswer := false;
    }

    /** The last `setModalState` of `openModal`, on either path. */
    method OpenComplete(t: ContentType, fetched: Fetched, render: string -> string)
      modifies this
      ensures State() == Completed(old(State()), Contents(t, fetched, render).0, Contents(t, fetched, render).1)
    {
      var contents := Contents(t, fetched, render);
      loading := false;
      questionContent := contents.0;
      answerContent := contents.1;
    }

    /** `openModal` run without interruption: start, fetch, complete. */
    method OpenModal(t: ContentType, section: string, topics: string, apiKey: string,
                     fetch: (Request, nat) -> FetchOutcome, render: string -> string)
      returns (waits: seq<nat>)
      modifies this
      ensures var (fetched, w) := BackoffFrom(fetch, RequestFor(t, section, topics, apiKey), 5, 0, 1000);
        && waits == w
        && State() == Completed(Started(old(State()), t, section),
                                Contents(t, fetched, render).0, Contents(t, fetched, render).1)
    {
      OpenStart(t, section);
      var fetched;
      fetched, waits := FetchWithBackoff(RequestFor(t, section, topics, apiKey), fetch, 5);
      OpenComplete(t, fetched, render);
    }

    method CloseModal()
      modifies this
      ensures State() == Closed(old(State()))
    {
      isOpen := false;
      questionContent := "";
      answerContent := "";
      showAnswer := false;
    }

    method RevealAnswer()
      modifies this
      ensures State() == Revealed(old(State()))
    {
      showAnswer := !showAnswer;
    }
  }
}
