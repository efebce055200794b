/**
 * The constant table of study sections behind the static study guide, and
 * the structural facts it keeps: ids in order, a subtitle made from the
 * weight, weights that agree with the exam-weight chart, four cards per
 * section, and buttons whose label and colours follow from their type.
 */
module StudySections {
  import opened ContentTypes
  import JsText

  /** A card of a section; only its title is kept (see the README). */
  datatype Card = Card(title: string)

  /** A generation button: its content type, label (`caption`, as `label` is a Dafny keyword), colours and the
      section name it passes to the modal. */
  datatype Button = Button(kind: ContentType, caption: string, bgColor: string, textColor: string, section: string)

  /** `StudySectionData`. */
  datatype StudySection = StudySection(
    id: nat,
    title: string,
    subtitle: string,
    weight: string,
    cards: seq<Card>,
    buttons: seq<Button>)

  /** Section 1. */
  const Section1: StudySection := StudySection(
    1,
    "El Fundamento Ético y Legal",
    "Peso: 15%",
    "15%",
    [
      Card("Límites de la Confidencialidad"),
      Card("Leyes Clave de PR"),
      Card("Relaciones Múltiples"),
      Card("Manejo de Expedientes")
    ],
    [
      Button(Question, "✨ Generar Pregunta", "bg-brand-main", "text-white", "Asuntos Éticos, Legales y Profesionales"),
      Button(Case, "✨ Generar Caso Clínico", "bg-brand-accent-1", "text-white", "Asuntos Éticos, Legales y Profesionales"),
      Button(Explain, "✨ Explícamelo Fácil", "bg-brand-accent-2", "text-brand-dark", "Asuntos Éticos, Legales y Profesionales")
    ])

  /** Section 2. */
  const Section2: StudySection := StudySection(
    2,
    "La Lupa Clínica: Evaluación y Diagnóstico",
    "Peso: 14%",
    "14%",
    [
      Card("Psicometría: Validez vs. Confiabilidad"),
      Card("Instrumentos y Clasificación"),
      Card("Trastornos de Personalidad"),
      Card("Conceptos Clave")
    ],
    [
      Button(Question, "✨ Generar Pregunta", "bg-brand-main", "text-white", "Evaluación y Diagnóstico"),
      Button(Case, "✨ Generar Caso Clínico", "bg-brand-accent-1", "text-white", "Evaluación y Diagnóstico"),
      Button(Explain, "✨ Explícamelo Fácil", "bg-brand-accent-2", "text-brand-dark", "Evaluación y Diagnóstico")
    ])

  /** Section 3. */
  const Section3: StudySection := StudySection(
    3,
    "El Arte de la Intervención",
    "Peso: 14%",
    "14%",
    [
      Card("Enfoques Terapéuticos"),
      Card("Técnica ↔ Trastorno"),
      Card("Terapia Humanista y Existencial"),
      Card("Niveles de Prevención")
    ],
    [
      Button(Question, "✨ Generar Pregunta", "bg-brand-main", "text-white", "Tratamiento, Intervención y Prevención"),
      Button(Case, "✨ Generar Caso Clínico", "bg-brand-accent-1", "text-white", "Tratamiento, Intervención y Prevención"),
      Button(Mnemonic, "✨ Crear Mnemotecnia", "bg-brand-accent-2", "text-brand-dark", "Tratamiento, Intervención y Prevención")
    ])

  /** Section 4. */
  const Section4: StudySection := StudySection(
    4,
    "Bases Cognitivas-Afectivas",
    "Peso: 13%",
    "13%",
    [
      Card("Procesos Cognitivos"),
      Card("Aprendizaje"),
      Card("Motivación y Modelos"),
      Card("Teorías de la Emoción")
    ],
    [
      Button(Question, "✨ Generar Pregunta", "bg-brand-main", "text-white", "Bases Cognitivas-Afectivas"),
      Button(Explain, "✨ Explícamelo Fácil", "bg-brand-accent-2", "text-brand-dark", "Bases Cognitivas-Afectivas")
    ])

  /** Section 5. */
  const Section5: StudySection := StudySection(
    5,
    "Bases Biológicas",
    "Peso: 12%",
    "12%",
    [
      Card("Neuroanatomía Funcional"),
      Card("Psicofarmacología Clave"),
      Card("Neurotransmisores y Trastornos"),
      Card("Métodos de Evaluación")
    ],
    [
      Button(Question, "✨ Generar Pregunta", "bg-brand-main", "text-white", "Bases Biológicas"),
      Button(Mnemonic, "✨ Crear Mnemotecnia", "bg-brand-accent-2", "text-brand-dark", "Bases Biológicas")
    ])

  /** Section 6. */
  const Section6: StudySection := StudySection(
    6,
    "Bases Sociales y Multiculturales",
    "Peso: 12%",
    "12%",
    [
      Card("Cognición Social"),
      Card("Influencia Social"),
      Card("Prejuicio y Discrimen"),
      Card("Competencia Multicultural")
    ],
    [
      Button(Question, "✨ Generar Pregunta", "bg-brand-main", "text-white", "Bases Sociales y Multiculturales"),
      Button(Explain, "✨ Explícamelo Fácil", "bg-brand-accent-2", "text-brand-dark", "Bases Sociales y Multiculturales")
    ])

  /** Section 7. */
  const Section7: StudySection := StudySection(
    7,
    "Crecimiento y Desarrollo",
    "Peso: 12%",
    "12%",
    [
      Card("Desarrollo Cognitivo (Piaget)"),
      Card("Desarrollo Psicosocial (Erikson)"),
      Card("Apego y Crianza"),
      Card("Identidad (Marcia)")
    ],
    [
      Button(Question, "✨ Generar Pregunta", "bg-brand-main", "text-white", "Crecimiento y Desarrollo"),
      Button(Mnemonic, "✨ Crear Mnemotecnia", "bg-brand-accent-2", "text-brand-dark", "Crecimiento y Desarrollo")
    ])

  /** Section 8. */
  const Section8: StudySection := StudySection(
    8,
    "Métodos de Investigación",
    "Peso: 8%",
    "8%",
    [
      Card("Diseños de Investigación"),
      Card("Variables y Validez"),
      Card("Estadísticas Paramétricas vs. No Paramétricas"),
      Card("Conceptos Estadísticos Clave")
    ],
    [
      Button(Question, "✨ Generar Pregunta", "bg-brand-main", "text-white", "Métodos de Investigación"),
      Button(Explain, "✨ Explícamelo Fácil", "bg-brand-accent-2", "text-brand-dark", "Métodos de Investigación")
    ])

  /** `studySections`. */
  const Sections: seq<StudySection> := [Section1, Section2, Section3, Section4, Section5, Section6, Section7, Section8]

  /** The data of the exam-weight chart, in its order. */
  const ChartData: seq<nat> := [15, 14, 14, 13, 12, 12, 12, 8]

  /** The label a button of each type carries. */
  function Label(t: ContentType): string {
    match t
    case Question => "✨ Generar Pregunta"
    case Case => "✨ Generar Caso Clínico"
    case Explain => "✨ Explícamelo Fácil"
    case Mnemonic => "✨ Crear Mnemotecnia"
  }

  /** The background colour of each type. */
  function BgColor(t: ContentType): string {
    match t
    case Question => "bg-brand-main"
    case Case => "bg-brand-accent-1"
    case Explain => "bg-brand-accent-2"
    case Mnemonic => "bg-brand-accent-2"
  }

  /** The text colour of each type. */
  function TextColor(t: ContentType): string {
    match t
    case Question => "text-white"
    case Case => "text-white"
    case Explain => "text-brand-dark"
    case Mnemonic => "text-brand-dark"
  }

  /** A weight read as an integer percentage: `n` followed by `%`. */
  predicate IsPercent(w: string, n: nat) {
    w == JsText.Decimal(n) + "%"
  }

  /** The buttons of a section: the first asks for a question, no type
      repeats, label and colours follow from the type, and all of them
      carry the same section name. */
  predicate ButtonsWellFormed(s: StudySection) {
    && |s.buttons| > 0
    && s.buttons[0].kind == Question
    && (forall i, j :: 0 <= i < j < |s.buttons| ==> s.buttons[i].kind != s.buttons[j].kind)
    && (forall i :: 0 <= i < |s.buttons| ==>
          s.buttons[i].caption == Label(s.buttons[i].kind)
          && s.buttons[i].bgColor == BgColor(s.buttons[i].kind)
          && s.buttons[i].textColor == TextColor(s.buttons[i].kind)
          && s.buttons[i].section == s.buttons[0].section)
  }

  /** The section at position `k`: id `k + 1`, subtitle `Peso: ` and the
      weight, the weight being the chart's `k`-th value as a percentage,
      four cards and well-formed buttons. */
  predicate SectionWellFormed(s: StudySection, k: nat)
    requires k < |ChartData|
  {
    && s.id == k + 1
    && s.subtitle == "Peso: " + s.weight
    && IsPercent(s.weight, ChartData[k])
    && |s.cards| == 4
    && ButtonsWellFormed(s)
  }

  lemma Decimal15() ensures JsText.Decimal(15) == "15" { JsText.DecimalStep(1, 5, "1"); }
  lemma Decimal14() ensures JsText.Decimal(14) == "14" { JsText.DecimalStep(1, 4, "1"); }
  lemma Decimal13() ensures JsText.Decimal(13) == "13" { JsText.DecimalStep(1, 3, "1"); }
  lemma Decimal12() ensures JsText.Decimal(12) == "12" { JsText.DecimalStep(1, 2, "1"); }

  lemma Section1WellFormed() ensures SectionWellFormed(Section1, 0) { Decimal15(); }
  lemma Section2WellFormed() ensures SectionWellFormed(Section2, 1) { Decimal14(); }
  lemma Section3WellFormed() ensures SectionWellFormed(Section3, 2) { Decimal14(); }
  lemma Section4WellFormed() ensures SectionWellFormed(Section4, 3) { Decimal13(); }
  lemma Section5WellFormed() ensures SectionWellFormed(Section5, 4) { Decimal12(); }
  lemma Section6WellFormed() ensures SectionWellFormed(Section6, 5) { Decimal12(); }
  lemma Section7WellFormed() ensures SectionWellFormed(Section7, 6) { Decimal12(); }
  lemma Section8WellFormed() ensures SectionWellFormed(Section8, 7) { }

  /** Every section of the table is well formed: eight sections with ids 1
      to 8 in order, each agreeing with the chart. */
  lemma TableWellFormed()
    ensures |Sections| == |ChartData| == 8
    ensures forall k :: 0 <= k < 8 ==> SectionWellFormed(Sections[k], k)
  {
    Section1WellFormed(); Section2WellFormed(); Section3WellFormed(); Section4WellFormed();
    Section5WellFormed(); Section6WellFormed(); Section7WellFormed(); Section8WellFormed();
  }

  function Sum(xs: seq<nat>): nat
    decreases |xs|
  {
    if xs == [] then 0 else xs[0] + Sum(xs[1..])
  }

  /** The chart's weights never increase along the table and add up to 100. */
  lemma ChartWeights()
    ensures forall i, j :: 0 <= i < j < |ChartData| ==> ChartData[i] >= ChartData[j]
    ensures Sum(ChartData) == 100
  {
    assert Sum(ChartData[7..]) == 8;
    assert Sum(ChartData[6..]) == 20;
    assert Sum(ChartData[5..]) == 32;
    assert Sum(ChartData[4..]) == 44;
    assert Sum(ChartData[3..]) == 57;
    assert Sum(ChartData[2..]) == 71;
    assert Sum(ChartData[1..]) == 85;
  }
}
