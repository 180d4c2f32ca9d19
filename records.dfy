/**
 * The records the application keeps in local storage: the diagnostic
 * answers (filled in one question at a time, so every field may still be
 * missing), the three scores, a saved tool run and a chat message.
 */
module Records {
  import opened Wrappers

  /** The ten questions of the diagnostic, one per field of the answers. */
  datatype Field =
    | Activite | Objectif | Blocage | TempsDisponible | Energie
    | Urgence | TypeClients | OffreActuelle | CanalPrincipal | Vision30Jours
  {
    /** The two fields answered on a 1..5 slider hold numbers; the others hold text. */
    predicate IsNumeric() {
      this == Energie || this == Urgence
    }
  }

  /** A value entered for a question: text for text and choice questions, a number for sliders. */
  datatype AnswerValue = Text(text: string) | Number(number: int)

  /** Whether `v` is of the kind field `f` holds. */
  predicate Fits(f: Field, v: AnswerValue) {
    v.Number? <==> f.IsNumeric()
  }

  /** The diagnostic answers as a (possibly partial) record. */
  datatype DiagnosticAnswers = DiagnosticAnswers(
    activite: Option<string>,
    objectif: Option<string>,
    blocage: Option<string>,
    tempsDisponible: Option<string>,
    energie: Option<int>,
    urgence: Option<int>,
    typeClients: Option<string>,
    offreActuelle: Option<string>,
    canalPrincipal: Option<string>,
    vision30Jours: Option<string>)

  /** The empty record `{}` the diagnostic starts from. */
  const NoAnswers := DiagnosticAnswers(None, None, None, None, None, None, None, None, None, None)

  function TextOf(o: Option<string>): Option<AnswerValue> {
    if o.Some? then Some(Text(o.value)) else None
  }

  function NumberOf(o: Option<int>): Option<AnswerValue> {
    if o.Some? then Some(Number(o.value)) else None
  }

  /** `answers[f]` */
  function Get(a: DiagnosticAnswers, f: Field): (r: Option<AnswerValue>)
    ensures r.Some? ==> Fits(f, r.value)
  {
    match f
    case Activite => TextOf(a.activite)
    case Objectif => TextOf(a.objectif)
    case Blocage => TextOf(a.blocage)
    case TempsDisponible => TextOf(a.tempsDisponible)
    case Energie => NumberOf(a.energie)
    case Urgence => NumberOf(a.urgence)
    case TypeClients => TextOf(a.typeClients)
    case OffreActuelle => TextOf(a.offreActuelle)
    case CanalPrincipal => TextOf(a.canalPrincipal)
    case Vision30Jours => TextOf(a.vision30Jours)
  }

  /** `{ ...answers, [f]: v }` */
  function Set(a: DiagnosticAnswers, f: Field, v: AnswerValue): DiagnosticAnswers
    requires Fits(f, v)
  {
    match f
    case Activite => a.(activite := Some(v.text))
    case Objectif => a.(objectif := Some(v.text))
    case Blocage => a.(blocage := Some(v.text))
    case TempsDisponible => a.(tempsDisponible := Some(v.text))
    case Energie => a.(energie := Some(v.number))
    case Urgence => a.(urgence := Some(v.number))
    case TypeClients => a.(typeClients := Some(v.text))
    case OffreActuelle => a.(offreActuelle := Some(v.text))
    case CanalPrincipal => a.(canalPrincipal := Some(v.text))
    case Vision30Jours => a.(vision30Jours := Some(v.text))
  }

  /** Setting a field stores the value there and leaves every other field as it was. */
  lemma GetSet(a: DiagnosticAnswers, f: Field, v: AnswerValue, g: Field)
    requires Fits(f, v)
    ensures Get(Set(a, f, v), g) == if g == f then Some(v) else Get(a, g)
  {
  }

  /** The three scores, each meant to lie in 0..100. */
  datatype Scores = Scores(clarte: int, systeme: int, chargeMentale: int)

  /** A saved run of a tool; `id` and `date` are supplied when it is saved. */
  datatype ToolRun = ToolRun(id: string, tool: string, date: string, inputs: map<string, string>, output: string)

  datatype Role = User | Assistant

  /** A message of the persisted chat history. */
  datatype ChatMessage = ChatMessage(id: string, role: Role, content: string, timestamp: string)
}
