/**
 * The storage helpers over `localStorage`: the persona, the diagnostic
 * answers and scores, and the list of saved tool runs (newest first,
 * at most fifty), plus the fixed description of each persona.
 */
module Storage {
  import opened Wrappers
  import opened Records
  import opened Browser

  const PersonaKey := "parlios_persona"
  const AnswersKey := "parlios_diagnostic_answers"
  const ScoresKey := "parlios_diagnostic_scores"
  const ToolRunsKey := "parlios_tool_runs"

  /** At most this many tool runs are kept. */
  const MaxToolRuns := 50

  /** The four personas a visitor can pick. */
  datatype Persona = Starter | Temps | Scale | Sales {
    /** The key naming the persona, as stored and as used in `personaData`. */
    function Key(): string {
      match this
      case Starter => "starter"
      case Temps => "temps"
      case Scale => "scale"
      case Sales => "sales"
    }
  }

  /** The persona named by a key, if any: the inverse of `Key`. */
  function PersonaNamed(key: string): (p: Option<Persona>)
    ensures p.Some? ==> p.value.Key() == key
  {
    if key == "starter" then Some(Starter)
    else if key == "temps" then Some(Temps)
    else if key == "scale" then Some(Scale)
    else if key == "sales" then Some(Sales)
    else None
  }

  /** Distinct personas have distinct keys, and each key names its persona back. */
  lemma PersonaKeyRoundTrip(p: Persona, q: Persona)
    ensures PersonaNamed(p.Key()) == Some(p)
    ensures p != q ==> p.Key() != q.Key()
  {
  }

  // ---- getters and setters ----------------------------------------------

  /** `getPersona`: the stored text, returned as it is (it is not checked to be a persona key). */
  function GetPersona(ls: LocalStorage): (r: Option<string>)
    reads ls
    ensures PersonaKey !in ls.items ==> r.None?
  {
    match ls.GetItem(PersonaKey)
    case Some(Raw(s)) => Some(s)
    case _ => None
  }

  method SetPersona(ls: LocalStorage, p: Persona)
    modifies ls
    ensures ls.items == old(ls.items)[PersonaKey := Raw(p.Key())]
    ensures GetPersona(ls) == Some(p.Key())
  {
    ls.SetItem(PersonaKey, Raw(p.Key()));
  }

  /** `getDiagnosticAnswers`: `null` when nothing was saved. */
  function GetDiagnosticAnswers(ls: LocalStorage): (r: Option<DiagnosticAnswers>)
    reads ls
    ensures AnswersKey !in ls.items ==> r.None?
  {
    match ls.GetItem(AnswersKey)
    case Some(AnswersJson(a)) => Some(a)
    case _ => None
  }

  method SetDiagnosticAnswers(ls: LocalStorage, a: DiagnosticAnswers)
    modifies ls
    ensures ls.items == old(ls.items)[AnswersKey := AnswersJson(a)]
    ensures GetDiagnosticAnswers(ls) == Some(a)
  {
    ls.SetItem(AnswersKey, AnswersJson(a));
  }

  /** `getDiagnosticScores`: `null` when nothing was saved. */
  function GetDiagnosticScores(ls: LocalStorage): (r: Option<Scores>)
    reads ls
    ensures ScoresKey !in ls.items ==> r.None?
  {
    match ls.GetItem(ScoresKey)
    case Some(ScoresJson(s)) => Some(s)
    case _ => None
  }

  method SetDiagnosticScores(ls: LocalStorage, s: Scores)
    modifies ls
    ensures ls.items == old(ls.items)[ScoresKey := ScoresJson(s)]
    ensures GetDiagnosticScores(ls) == Some(s)
  {
    ls.SetItem(ScoresKey, ScoresJson(s));
  }

  /** `getToolRuns`: the empty list when nothing was saved. */
  function GetToolRuns(ls: LocalStorage): (r: seq<ToolRun>)
    reads ls
    ensures ToolRunsKey !in ls.items ==> r == []
  {
    match ls.GetItem(ToolRunsKey)
    case Some(ToolRunsJson(runs)) => runs
    case _ => []
  }

  /**
   * The list `addToolRun` stores: `run` put in front of `runs`, then the
   * first fifty kept.
   */
  function PrependCapped(runs: seq<ToolRun>, run: ToolRun): (r: seq<ToolRun>)
    ensures 1 <= |r| <= MaxToolRuns
    ensures r[0] == run
    ensures r[1..] == runs[..if |runs| < MaxToolRuns then |runs| else MaxToolRuns - 1]
  {
    var all := [run] + runs;
    all[..if |all| < MaxToolRuns then |all| else MaxToolRuns]
  }

  /**
   * Whatever the stored list held beyond its first fifty entries makes no
   * difference: the list kept is the newest fifty runs.
   */
  lemma PrependCappedIgnoresOld(runs: seq<ToolRun>, run: ToolRun)
    ensures PrependCapped(runs, run)
         == PrependCapped(runs[..if |runs| < MaxToolRuns then |runs| else MaxToolRuns], run)
  {
  }

  /** Two runs added one after the other sit newest first in front of the older ones. */
  lemma PrependCappedTwice(runs: seq<ToolRun>, a: ToolRun, b: ToolRun)
    ensures PrependCapped(PrependCapped(runs, a), b)
         == ([b, a] + runs)[..if |runs| + 2 < MaxToolRuns then |runs| + 2 else MaxToolRuns]
  {
  }

  /**
   * `addToolRun`: the run, given a fresh id and the current date (both
   * passed in), is put at the front of the stored list, which is then cut
   * to fifty entries and written back.
   */
  method AddToolRun(ls: LocalStorage, tool: string, inputs: map<string, string>, output: string,
                    id: string, date: string)
    modifies ls
    ensures ls.items == old(ls.items)[ToolRunsKey := ToolRunsJson(PrependCapped(old(GetToolRuns(ls)), ToolRun(id, tool, date, inputs, output)))]
    ensures var runs := GetToolRuns(ls);
      && |runs| <= MaxToolRuns
      && runs[0] == ToolRun(id, tool, date, inputs, output)
      && runs[1..] == old(GetToolRuns(ls))[..if |old(GetToolRuns(ls))| < MaxToolRuns then |old(GetToolRuns(ls))| else MaxToolRuns - 1]
  {
    var runs := GetToolRuns(ls);
    var newRun := ToolRun(id, tool, date, inputs, output);
    runs := [newRun] + runs;
    ls.SetItem(ToolRunsKey, ToolRunsJson(runs[..if |runs| < MaxToolRuns then |runs| else MaxToolRuns]));
  }

  // ---- persona descriptions ---------------------------------------------

  datatype PersonaInfo = PersonaInfo(title: string, subtitle: string, icon: string, bullets: seq<string>, cta: string)

  /** `personaData[p]` */
  function PersonaData(p: Persona): (info: PersonaInfo)
    ensures |info.bullets| == 3
    ensures info.title != "" && info.cta != ""
  {
    match p
    case Starter => PersonaInfo("Starter", "Tu démarres ton activité", "🚀",
        ["Clarifier ton offre et tes premiers clients", "Mettre en place tes fondations",
         "Lancer ta première action commerciale"],
        "Je veux démarrer clair")
    case Temps => PersonaInfo("Temps", "Tu manques de temps", "⏰",
        ["Automatiser les tâches répétitives", "Prioriser ce qui a vraiment un impact",
         "Retrouver 2h par semaine minimum"],
        "Je veux récupérer du temps")
    case Scale => PersonaInfo("Scale", "Tu veux structurer pour grandir", "📈",
        ["Systématiser tes process gagnants", "Déléguer sans perdre en qualité",
         "Passer de freelance à business"],
        "Je veux scaler")
    case Sales => PersonaInfo("Sales", "Tu veux vendre plus", "💰",
        ["Multiplier tes opportunités", "Améliorer ton closing",
         "Créer un flux régulier de clients"],
        "Je veux plus de clients")
  }

  /** The table has one entry per persona, and their titles tell them apart. */
  lemma PersonaTitlesDistinct(p: Persona, q: Persona)
    ensures p != q ==> PersonaData(p).title != PersonaData(q).title
  {
  }
}
