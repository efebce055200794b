/** The four kinds of generated study content, shared by the request rules,
    the AI modal and the button table. */
module ContentTypes {

  datatype ContentType = Question | Case | Explain | Mnemonic

  /** The name used for the type in the source (`'question'`, `'case'`, ...). */
  function Name(t: ContentType): string {
    match t
    case Question => "question"
    case Case => "case"
    case Explain => "explain"
    case Mnemonic => "mnemonic"
  }

  /** Distinct types have distinct names. */
  lemma NameInjective(t: ContentType, u: ContentType)
    requires Name(t) == Name(u)
    ensures t == u
  {
  }

  /** The types whose answer is delimited from the question. */
  predicate HasAnswer(t: ContentType) {
    t == Question || t == Case
  }
}
