/**
 * The seven-day plan derived from the persona, the diagnostic answers and
 * the scores, its plain-text export, and the colour given to each score.
 */
module Plan {
  import opened Wrappers
  import opened Strings
  import opened Records
  import opened Browser
  import Storage
  import Scoring

  /** The three kinds of action of a day, listed in this order. */
  datatype ActionKind = Easy | Impact | System {
    /** The label shown in front of the task. */
    function Label(): string {
      match this
      case Easy => "Facile"
      case Impact => "Impact"
      case System => "Système"
    }
  }

  /**
   * The tasks a plan can propose. The plan is built from these names; `Text`
   * gives the wording shown to the visitor.
   */
  datatype Task =
    | TakeDiagnostic | FindBlocker | StrategyDoc
    | SayWhatYouDo | IdealClients | RereadMission | MonthlyTarget | GoalsFile
    | DeepWork | TimeSinks | RecurringTemplate
    | TenWordOffer | FiveProblems | ServicesPage | ProposalTemplate
    | LinkedInBio | LinkedInConnect | LinkedInHooks
    | CleanList | ValueEmail | WelcomeSequence
    | TenContacts | ThreeMessages | SimpleCrm
    | WarmProspects | UseRelanceTool | FollowUpReminders
    | ClientProblemPost | ShareTestimonial | DocumentProcess | HowIDoX
    | LearningPost | ShareJourney | PlanPosts
    | ThreeWins | WhatWorked | PlanWeekTwo
  {
    function Text(): string {
      match this
      case TakeDiagnostic => "Fais le diagnostic Parlios"
      case FindBlocker => "Identifie ton plus gros blocage"
      case StrategyDoc => "Crée un document 'Ma stratégie'"
      case SayWhatYouDo => "Écris en 1 phrase ce que tu fais"
      case IdealClients => "Identifie tes 3 types de clients idéaux"
      case RereadMission => "Relis ta mission et ajuste si besoin"
      case MonthlyTarget => "Définis 1 objectif chiffré pour ce mois"
      case GoalsFile => "Crée un fichier 'Mes objectifs Q1'"
      case DeepWork => "Bloque 2h de deep work dans ton agenda"
      case TimeSinks => "Identifie les 3 tâches qui prennent trop de temps"
      case RecurringTemplate => "Crée un template pour tes tâches récurrentes"
      case TenWordOffer => "Simplifie ta description d'offre en 10 mots"
      case FiveProblems => "Liste 5 problèmes que tu résous"
      case ServicesPage => "Crée une page 'Mes services' simple"
      case ProposalTemplate => "Prépare 1 template de proposition commerciale"
      case LinkedInBio => "Optimise ta bio LinkedIn en 1 phrase"
      case LinkedInConnect => "Connecte-toi à 10 prospects qualifiés"
      case LinkedInHooks => "Prépare 3 messages d'accroche type"
      case CleanList => "Nettoie ta liste email (désinscrits, bounces)"
      case ValueEmail => "Envoie 1 email de valeur à ta liste"
      case WelcomeSequence => "Crée 1 séquence de bienvenue automatique"
      case TenContacts => "Liste 10 personnes à recontacter"
      case ThreeMessages => "Envoie 3 messages personnalisés"
      case SimpleCrm => "Crée un CRM simple (Notion ou Excel)"
      case WarmProspects => "Identifie 5 prospects 'tièdes' à relancer"
      case UseRelanceTool => "Utilise l'outil Relance Parlios pour chaque"
      case FollowUpReminders => "Planifie des rappels de suivi automatiques"
      case ClientProblemPost => "Écris 1 post sur un problème client"
      case ShareTestimonial => "Partage 1 témoignage client"
      case DocumentProcess => "Documente 1 process que tu maîtrises"
      case HowIDoX => "Crée 1 contenu 'comment je fais X'"
      case LearningPost => "Écris 1 post sur ce que tu apprends"
      case ShareJourney => "Partage ton parcours et tes défis"
      case PlanPosts => "Planifie 3 posts pour la semaine prochaine"
      case ThreeWins => "Note tes 3 wins de la semaine"
      case WhatWorked => "Identifie ce qui a le mieux marché"
      case PlanWeekTwo => "Planifie ta semaine 2 avec 3 priorités max"
    }
  }

  /** The theme of a day; `Name` is its heading. */
  datatype Theme = Clarte | Organisation | Offre | Prospection | Relance | Contenu | Bilan | Clarification {
    function Name(): string {
      match this
      case Clarte => "Clarté"
      case Organisation => "Organisation"
      case Offre => "Offre"
      case Prospection => "Prospection"
      case Relance => "Relance"
      case Contenu => "Contenu"
      case Bilan => "Bilan & Next Steps"
      case Clarification => "Clarification"
    }
  }

  /** One action: its kind (which gives its label) and its task. */
  datatype Action = Action(kind: ActionKind, task: Task)

  datatype DayPlan = DayPlan(day: nat, theme: Theme, actions: seq<Action>)

  /** Three actions: an easy one, an impact one and a system one, in that order. */
  predicate WellFormed(d: DayPlan) {
    |d.actions| == 3 && d.actions[0].kind == Easy && d.actions[1].kind == Impact && d.actions[2].kind == System
  }

  /** The tasks of a list of actions, in order. */
  function Tasks(actions: seq<Action>): seq<Task> {
    seq(|actions|, k requires 0 <= k < |actions| => actions[k].task)
  }

  /** The themes of the seven days, in order. */
  const Themes := [Clarte, Organisation, Offre, Prospection, Relance, Contenu, Bilan]

  // The channel and persona values the plan branches on.
  const LinkedInChannel := "LinkedIn"
  const EmailChannel := "Email / newsletter"
  const SalesPersona := "sales"
  const ScalePersona := "scale"

  /** Day 1 takes the low-clarity tasks only when scores exist and clarity is below 60. */
  predicate LowClarity(scores: Option<Scores>) {
    scores.Some? && scores.value.clarte < 60
  }

  /** Day 3's easy task: the offer is present and longer than 20 characters. */
  predicate DetailedOffer(a: DiagnosticAnswers) {
    a.offreActuelle.Some? && |a.offreActuelle.value| > 20
  }

  // ---- the plan as a decision table, one entry per day ------------------

  /** Three tasks as an easy, an impact and a system action. */
  function Triple(easy: Task, impact: Task, system: Task): seq<Action> {
    [Action(Easy, easy), Action(Impact, impact), Action(System, system)]
  }

  function ClarteDay(scores: Option<Scores>): DayPlan {
    if LowClarity(scores) then DayPlan(1, Clarte, Triple(SayWhatYouDo, IdealClients, GoalsFile))
    else DayPlan(1, Clarte, Triple(RereadMission, MonthlyTarget, GoalsFile))
  }

  const OrganisationDay := DayPlan(2, Organisation, Triple(DeepWork, TimeSinks, RecurringTemplate))

  function OffreDay(a: DiagnosticAnswers): DayPlan {
    DayPlan(3, Offre, Triple(if DetailedOffer(a) then TenWordOffer else FiveProblems, ServicesPage, ProposalTemplate))
  }

  function ProspectionDay(a: DiagnosticAnswers): DayPlan {
    if a.canalPrincipal == Some(LinkedInChannel) then DayPlan(4, Prospection, Triple(LinkedInBio, LinkedInConnect, LinkedInHooks))
    else if a.canalPrincipal == Some(EmailChannel) then DayPlan(4, Prospection, Triple(CleanList, ValueEmail, WelcomeSequence))
    else DayPlan(4, Prospection, Triple(TenContacts, ThreeMessages, SimpleCrm))
  }

  const RelanceDay := DayPlan(5, Relance, Triple(WarmProspects, UseRelanceTool, FollowUpReminders))

  function ContenuDay(persona: Option<string>): DayPlan {
    if persona == Some(SalesPersona) then DayPlan(6, Contenu, Triple(ClientProblemPost, ShareTestimonial, PlanPosts))
    else if persona == Some(ScalePersona) then DayPlan(6, Contenu, Triple(DocumentProcess, HowIDoX, PlanPosts))
    else DayPlan(6, Contenu, Triple(LearningPost, ShareJourney, PlanPosts))
  }

  const BilanDay := DayPlan(7, Bilan, Triple(ThreeWins, WhatWorked, PlanWeekTwo))

  /** The plan shown before the diagnostic has been taken. */
  const DefaultPlan := [DayPlan(1, Clarification, Triple(TakeDiagnostic, FindBlocker, StrategyDoc))]

  /** The week: each day chosen by its own rule. */
  function WeekPlan(persona: Option<string>, a: DiagnosticAnswers, scores: Option<Scores>): seq<DayPlan> {
    [ClarteDay(scores), OrganisationDay, OffreDay(a), ProspectionDay(a), RelanceDay, ContenuDay(persona), BilanDay]
  }

  // ---- generatePlan, pushing one action and one day at a time -----------

  /** Day 1's actions: the low-clarity tasks when the scores call for them. */
  method ClarteActions(scores: Option<Scores>) returns (actions: seq<Action>)
    ensures DayPlan(1, Clarte, actions) == ClarteDay(scores)
  {
    actions := [];
    if scores.Some? && scores.value.clarte < 60 {
      actions := actions + [Action(Easy, SayWhatYouDo)];
      actions := actions + [Action(Impact, IdealClients)];
    } else {
      actions := actions + [Action(Easy, RereadMission)];
      actions := actions + [Action(Impact, MonthlyTarget)];
    }
    actions := actions + [Action(System, GoalsFile)];
  }

  /** Day 3's actions: the easy task depends on how detailed the offer is. */
  method OffreActions(a: DiagnosticAnswers) returns (actions: seq<Action>)
    ensures DayPlan(3, Offre, actions) == OffreDay(a)
  {
    actions := [];
    if a.offreActuelle.Some? && |a.offreActuelle.value| > 20 {
      actions := actions + [Action(Easy, TenWordOffer)];
    } else {
      actions := actions + [Action(Easy, FiveProblems)];
    }
    actions := actions + [Action(Impact, ServicesPage)];
    actions := actions + [Action(System, ProposalTemplate)];
  }

  /** Day 4's actions, by main channel. */
  method ProspectionActions(a: DiagnosticAnswers) returns (actions: seq<Action>)
    ensures DayPlan(4, Prospection, actions) == ProspectionDay(a)
  {
    actions := [];
    if a.canalPrincipal == Some(LinkedInChannel) {
      actions := actions + [Action(Easy, LinkedInBio)];
      actions := actions + [Action(Impact, LinkedInConnect)];
      actions := actions + [Action(System, LinkedInHooks)];
    } else if a.canalPrincipal == Some(EmailChannel) {
      actions := actions + [Action(Easy, CleanList)];
      actions := actions + [Action(Impact, ValueEmail)];
      actions := actions + [Action(System, WelcomeSequence)];
    } else {
      actions := actions + [Action(Easy, TenContacts)];
      actions := actions + [Action(Impact, ThreeMessages)];
      actions := actions + [Action(System, SimpleCrm)];
    }
  }

  /** Day 6's actions, by persona. */
  method ContenuActions(persona: Option<string>) returns (actions: seq<Action>)
    ensures DayPlan(6, Contenu, actions) == ContenuDay(persona)
  {
    actions := [];
    if persona == Some(SalesPersona) {
      actions := actions + [Action(Easy, ClientProblemPost)];
      actions := actions + [Action(Impact, ShareTestimonial)];
    } else if persona == Some(ScalePersona) {
      actions := actions + [Action(Easy, DocumentProcess)];
      actions := actions + [Action(Impact, HowIDoX)];
    } else {
      actions := actions + [Action(Easy, LearningPost)];
      actions := actions + [Action(Impact, ShareJourney)];
    }
    actions := actions + [Action(System, PlanPosts)];
  }

  /**
   * `generatePlan`: without answers, the one-day default plan; otherwise the
   * seven days of the decision table, pushed one day at a time.
   */
  method GeneratePlan(persona: Option<string>, answers: Option<DiagnosticAnswers>, scores: Option<Scores>)
    returns (plans: seq<DayPlan>)
    ensures plans == if answers.None? then DefaultPlan else WeekPlan(persona, answers.value, scores)
  {
    if answers.None? {
      return [DayPlan(1, Clarification, [
        Action(Easy, TakeDiagnostic), Action(Impact, FindBlocker), Action(System, StrategyDoc)])];
    }
    var a := answers.value;
    plans := [];
    var clarteActions := ClarteActions(scores);
    plans := plans + [DayPlan(1, Clarte, clarteActions)];
    plans := plans + [DayPlan(2, Organisation, [
      Action(Easy, DeepWork), Action(Impact, TimeSinks), Action(System, RecurringTemplate)])];
    var offreActions := OffreActions(a);
    plans := plans + [DayPlan(3, Offre, offreActions)];
    var prospectActions := ProspectionActions(a);
    plans := plans + [DayPlan(4, Prospection, prospectActions)];
    plans := plans + [DayPlan(5, Relance, [
      Action(Easy, WarmProspects), Action(Impact, UseRelanceTool), Action(System, FollowUpReminders)])];
    var contenuActions := ContenuActions(persona);
    plans := plans + [DayPlan(6, Contenu, contenuActions)];
    plans := plans + [DayPlan(7, Bilan, [
      Action(Easy, ThreeWins), Action(Impact, WhatWorked), Action(System, PlanWeekTwo)])];
  }

  /** Reading storage on page load and building the plan from what was saved. */
  method PlanFromStorage(ls: LocalStorage) returns (plans: seq<DayPlan>)
    ensures Storage.GetDiagnosticAnswers(ls).None? ==> plans == DefaultPlan
    ensures Storage.GetDiagnosticAnswers(ls).Some? ==>
      plans == WeekPlan(Storage.GetPersona(ls), Storage.GetDiagnosticAnswers(ls).value, Storage.GetDiagnosticScores(ls))
  {
    var persona := Storage.GetPersona(ls);
    var answers := Storage.GetDiagnosticAnswers(ls);
    var scores := Storage.GetDiagnosticScores(ls);
    plans := GeneratePlan(persona, answers, scores);
  }

  // ---- properties of the decision table ----------------------------------

  /** The week has seven days, numbered 1 to 7, with the fixed themes, each a well-formed triple. */
  lemma WeekPlanShape(persona: Option<string>, a: DiagnosticAnswers, scores: Option<Scores>)
    ensures |WeekPlan(persona, a, scores)| == 7
    ensures forall i :: 0 <= i < 7 ==>
      WeekPlan(persona, a, scores)[i].day == i + 1
      && WeekPlan(persona, a, scores)[i].theme == Themes[i]
      && WellFormed(WeekPlan(persona, a, scores)[i])
  {
  }

  /** Without answers the plan is the single day 1 "Clarification", whatever the persona and scores. */
  lemma DefaultPlanShape()
    ensures |DefaultPlan| == 1 && DefaultPlan[0].day == 1 && DefaultPlan[0].theme == Clarification
    ensures WellFormed(DefaultPlan[0])
    ensures Tasks(DefaultPlan[0].actions) == [TakeDiagnostic, FindBlocker, StrategyDoc]
  {
  }

  /**
   * Day 1 opens with the one-sentence exercise exactly when scores were saved and
   * clarity is below 60; missing scores count as clear enough. The system task never changes.
   */
  lemma ClarteDayRule(scores: Option<Scores>)
    ensures ClarteDay(scores).actions[0].task == SayWhatYouDo <==> (scores.Some? && scores.value.clarte < 60)
    ensures ClarteDay(None).actions[0].task == RereadMission
    ensures ClarteDay(scores).actions[2].task == GoalsFile
  {
  }

  /**
   * Day 3 depends on the answers only through whether the offer is detailed,
   * and only in its easy task: the impact and system tasks never change.
   */
  lemma OffreDayRule(a: DiagnosticAnswers, b: DiagnosticAnswers)
    ensures DetailedOffer(a) == DetailedOffer(b) ==> OffreDay(a) == OffreDay(b)
    ensures OffreDay(a).actions[0].task == TenWordOffer <==> DetailedOffer(a)
    ensures OffreDay(a).actions[1..] == OffreDay(b).actions[1..]
    ensures OffreDay(a).actions[1].task == ServicesPage && OffreDay(a).actions[2].task == ProposalTemplate
  {
  }

  /**
   * Day 4 has three distinct versions: LinkedIn, email, and everything else
   * (including no answer), which all share the generic one.
   */
  lemma ProspectionDayRule(a: DiagnosticAnswers, b: DiagnosticAnswers)
    ensures ProspectionDay(a).actions[0].task == LinkedInBio <==> a.canalPrincipal == Some(LinkedInChannel)
    ensures ProspectionDay(a).actions[0].task == CleanList <==> a.canalPrincipal == Some(EmailChannel)
    ensures (a.canalPrincipal != Some(LinkedInChannel) && a.canalPrincipal != Some(EmailChannel)
      && b.canalPrincipal != Some(LinkedInChannel) && b.canalPrincipal != Some(EmailChannel))
      ==> ProspectionDay(a) == ProspectionDay(b)
  {
    assert LinkedInChannel != EmailChannel by {
      assert |LinkedInChannel| != |EmailChannel|;
    }
  }

  /**
   * Day 6 has a version for "sales", one for "scale", and one shared by every
   * other stored value (including "starter", "temps" and no persona at all).
   */
  lemma ContenuDayRule(persona: Option<string>)
    ensures persona != Some(SalesPersona) && persona != Some(ScalePersona)
      ==> ContenuDay(persona) == ContenuDay(None)
    ensures ContenuDay(persona).actions[0].task == ClientProblemPost <==> persona == Some(SalesPersona)
    ensures ContenuDay(persona).actions[0].task == DocumentProcess <==> persona == Some(ScalePersona)
    ensures ContenuDay(persona).actions[2].task == PlanPosts
  {
    assert SalesPersona != ScalePersona by {
      assert SalesPersona[1] != ScalePersona[1];
    }
  }

  // ---- the text copied to the clipboard ----------------------------------

  // The pieces of text the export is made of.
  const Indent := "  ["
  const LabelEnd := "] "
  const DayWord := "Jour "
  const ThemeSeparator := ": "
  const LineBreak := "\n"
  const BlankLine := "\n\n"

  /** One action as a line of the copied text. */
  function ActionLine(x: Action): string {
    Indent + x.kind.Label() + LabelEnd + x.task.Text()
  }

  function ActionLines(actions: seq<Action>): (r: seq<string>)
    ensures |r| == |actions|
    ensures forall k :: 0 <= k < |actions| ==> r[k] == ActionLine(actions[k])
  {
    seq(|actions|, k requires 0 <= k < |actions| => ActionLine(actions[k]))
  }

  /** A day's heading line: its number and its theme. */
  function DayHeading(d: DayPlan): string {
    DayWord + DecimalString(d.day) + ThemeSeparator + d.theme.Name() + LineBreak
  }

  /** A day's heading followed by its actions, one per line. */
  function DayText(d: DayPlan): string {
    DayHeading(d) + Join(LineBreak, ActionLines(d.actions))
  }

  function DayTexts(plan: seq<DayPlan>): (r: seq<string>)
    ensures |r| == |plan|
    ensures forall i :: 0 <= i < |plan| ==> r[i] == DayText(plan[i])
  {
    seq(|plan|, i requires 0 <= i < |plan| => DayText(plan[i]))
  }

  /** `copyPlan`'s text: the days separated by blank lines. */
  function PlanText(plan: seq<DayPlan>): string {
    Join(BlankLine, DayTexts(plan))
  }

  /** Each action's line sits inside its day's text. */
  lemma DayTextKeepsAction(d: DayPlan, k: nat)
    requires k < |d.actions|
    ensures Contains(DayText(d), ActionLine(d.actions[k]))
  {
    var lines := ActionLines(d.actions);
    JoinContainsEach(LineBreak, lines, k);
    var c, e :| Join(LineBreak, lines) == c + lines[k] + e;
    ContainsInfix(c, lines[k], e);
    ContainsInSuffix(DayHeading(d), Join(LineBreak, lines), lines[k]);
  }

  /** Each day's text sits inside the copied text. */
  lemma PlanTextKeepsDay(plan: seq<DayPlan>, i: nat)
    requires i < |plan|
    ensures Contains(PlanText(plan), DayText(plan[i]))
  {
    var texts := DayTexts(plan);
    JoinContainsEach(BlankLine, texts, i);
    var a, b :| Join(BlankLine, texts) == a + texts[i] + b;
    ContainsInfix(a, texts[i], b);
  }

  /** Every action of every day, label and task, appears in the copied text. */
  lemma ExportKeepsEveryAction(plan: seq<DayPlan>, i: nat, k: nat)
    requires i < |plan| && k < |plan[i].actions|
    ensures Contains(PlanText(plan), ActionLine(plan[i].actions[k]))
  {
    PlanTextKeepsDay(plan, i);
    DayTextKeepsAction(plan[i], k);
    ContainsTransitive(PlanText(plan), DayText(plan[i]), ActionLine(plan[i].actions[k]));
  }

  /** The copied text opens with the first day's heading. */
  lemma ExportStartsWithFirstHeading(plan: seq<DayPlan>)
    requires plan != []
    ensures |PlanText(plan)| >= |DayHeading(plan[0])|
    ensures PlanText(plan)[..|DayHeading(plan[0])|] == DayHeading(plan[0])
  {
    var texts := DayTexts(plan);
    JoinFrame(BlankLine, texts);
    var h := DayHeading(plan[0]);
    assert texts[0] == h + Join(LineBreak, ActionLines(plan[0].actions));
    assert texts[0][..|h|] == h;
    assert PlanText(plan)[..|h|] == texts[0][..|texts[0]|][..|h|];
  }

  // ---- the score cards ----------------------------------------------------

  /** One score card: its label and the value it shows. */
  datatype ScoreCard = ScoreCard(labelText: string, value: int)

  const ClarteLabel := "Clarté"
  const SystemeLabel := "Système"
  const ChargeLabel := "Charge mentale"

  /** The fallback shown for a missing score, and for a score of 0. */
  const ShownByDefault := 50

  /** `v || 50` on a score that may be missing. */
  function OrDefault(present: bool, v: int): (r: int)
    ensures r == ShownByDefault <==> (!present || v == 0 || v == ShownByDefault)
    ensures r != ShownByDefault ==> r == v
  {
    if present && v != 0 then v else ShownByDefault
  }

  /** `scoreData`: the three cards, with 50 for a missing or zero score. */
  function ScoreData(scores: Option<Scores>): (r: seq<ScoreCard>)
    ensures |r| == 3
    ensures r[0].labelText == ClarteLabel && r[1].labelText == SystemeLabel && r[2].labelText == ChargeLabel
    ensures scores.None? ==> forall k :: 0 <= k < 3 ==> r[k].value == ShownByDefault
    ensures scores.Some? && scores.value.clarte != 0 ==> r[0].value == scores.value.clarte
    ensures scores.Some? && scores.value.systeme != 0 ==> r[1].value == scores.value.systeme
    ensures scores.Some? && scores.value.chargeMentale != 0 ==> r[2].value == scores.value.chargeMentale
    ensures scores.Some? && scores.value.clarte == 0 ==> r[0].value == ShownByDefault
    ensures scores.Some? && scores.value.systeme == 0 ==> r[1].value == ShownByDefault
    ensures scores.Some? && scores.value.chargeMentale == 0 ==> r[2].value == ShownByDefault
  {
    [ScoreCard(ClarteLabel, OrDefault(scores.Some?, if scores.Some? then scores.value.clarte else 0)),
     ScoreCard(SystemeLabel, OrDefault(scores.Some?, if scores.Some? then scores.value.systeme else 0)),
     ScoreCard(ChargeLabel, OrDefault(scores.Some?, if scores.Some? then scores.value.chargeMentale else 0))]
  }

  /** For scores computed by the diagnostic, every card shows a value from 1 to 100. */
  lemma ScoreDataOfDiagnostic(a: DiagnosticAnswers)
    ensures forall k :: 0 <= k < 3 ==> 1 <= ScoreData(Some(Scoring.CalculateScores(a)))[k].value <= 100
  {
  }

  /** The three colours a score can be shown in. */
  datatype Tone = Success | Primary | Destructive {
    function ClassName(): string {
      match this
      case Success => "text-parlios-success"
      case Primary => "text-primary"
      case Destructive => "text-destructive"
    }

    /** Worst to best. */
    function Rank(): nat {
      match this
      case Destructive => 0
      case Primary => 1
      case Success => 2
    }
  }

  /** `getScoreColor`: success from 70, primary from 40, destructive below. */
  function ScoreColor(value: int): (r: Tone)
    ensures r == Success <==> value >= 70
    ensures r == Primary <==> 40 <= value < 70
    ensures r == Destructive <==> value < 40
  {
    if value >= 70 then Success
    else if value >= 40 then Primary
    else Destructive
  }

  /** A higher score never gets a worse colour. */
  lemma ScoreColorMonotone(v: int, w: int)
    requires v <= w
    ensures ScoreColor(v).Rank() <= ScoreColor(w).Rank()
  {
  }

  /** `getScoreColor`'s class names: each is returned for exactly its band of scores. */
  lemma ScoreColorClassName(v: int)
    ensures ScoreColor(v).ClassName() == "text-parlios-success" <==> v >= 70
    ensures ScoreColor(v).ClassName() == "text-primary" <==> 40 <= v < 70
    ensures ScoreColor(v).ClassName() == "text-destructive" <==> v < 40
  {
    assert |Success.ClassName()| != |Primary.ClassName()| && |Primary.ClassName()| != |Destructive.ClassName()|;
    assert |Success.ClassName()| != |Destructive.ClassName()|;
  }

  /** A saved score of 0, like a missing one, is shown as 50 in the primary colour, on every card. */
  lemma ZeroScoreShownAsPrimary(s: Scores)
    ensures s.clarte == 0 ==> ScoreData(Some(s))[0].value == ShownByDefault && ScoreColor(ScoreData(Some(s))[0].value) == Primary
    ensures s.systeme == 0 ==> ScoreData(Some(s))[1].value == ShownByDefault && ScoreColor(ScoreData(Some(s))[1].value) == Primary
    ensures s.chargeMentale == 0 ==> ScoreData(Some(s))[2].value == ShownByDefault && ScoreColor(ScoreData(Some(s))[2].value) == Primary
    ensures forall k :: 0 <= k < 3 ==> ScoreColor(ScoreData(None)[k].value) == Primary
  {
  }
}
