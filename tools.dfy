/**
 * The follow-up message tool ("Relance Email / LinkedIn"): the message built
 * from the form's five fields, and the page that saves every generated
 * message in the tool-run history and can load a past run back into the form.
 */
module Tools {
  import opened Wrappers
  import opened Strings
  import opened Records
  import opened Browser
  import opened KeywordMatch
  import Storage

  // The values the form's option buttons set.
  const EmailCanal := "email"
  const LinkedInCanal := "linkedin"
  const ProTon := "pro"
  const WarmTon := "chaleureux"
  const DirectTon := "direct"
  const ShortLength := "court"
  const MediumLength := "moyen"
  const LongLength := "long"

  /** The tool name saved with each run. */
  const RelanceTool := "relance"

  // ---- the five parts of a message ----------------------------------------

  datatype Greeting = Bonjour | BonjourPrenom | Hey | SalutPrenom | SalutWave {
    function Text(): string {
      match this
      case Bonjour => "Bonjour,"
      case BonjourPrenom => "Bonjour [Prénom],"
      case Hey => "Hey !"
      case SalutPrenom => "Salut [Prénom],"
      case SalutWave => "Salut \U{1F44B}"
    }
  }

  /**
   * The greeting, computed as the page does: a default by channel, replaced
   * for a professional e-mail, and replaced again for the warm tone.
   */
  function GreetingFor(isEmail: bool, isPro: bool, isChaleureux: bool): Greeting {
    var byChannel := if isEmail then Bonjour else Hey;
    var forPro := if isPro && isEmail then BonjourPrenom else byChannel;
    if isChaleureux then (if isEmail then SalutPrenom else SalutWave) else forPro
  }

  /** The register a tone selects: "pro", "chaleureux", or anything else. */
  datatype Register = Formal | Warm | Plain

  function RegisterOf(ton: string): (r: Register)
    ensures r == Formal <==> ton == ProTon
    ensures r == Warm <==> ton == WarmTon
  {
    if ton == ProTon then Formal
    else if ton == WarmTon then Warm
    else Plain
  }

  /** The greeting as a table by channel and register. */
  function GreetingTable(isEmail: bool, register: Register): Greeting {
    match register
    case Formal => if isEmail then BonjourPrenom else Hey
    case Warm => if isEmail then SalutPrenom else SalutWave
    case Plain => if isEmail then Bonjour else Hey
  }

  /** The overwriting computation agrees with the table; in particular a professional LinkedIn message opens with "Hey !". */
  lemma GreetingByTable(canal: string, ton: string)
    ensures GreetingFor(canal == EmailCanal, ton == ProTon, ton == WarmTon) == GreetingTable(canal == EmailCanal, RegisterOf(ton))
    ensures GreetingFor(false, true, false) == Hey
  {
  }

  datatype Opening = FollowingUp | HopeAllGood | QuickNote {
    function Text(): string {
      match this
      case FollowingUp => "Je me permets de revenir vers vous suite à notre dernier échange."
      case HopeAllGood => "J'espère que tout roule de ton côté !"
      case QuickNote => "Je reviens vers toi rapidement."
    }
  }

  function OpeningFor(isPro: bool, isChaleureux: bool): (o: Opening)
    ensures o == FollowingUp <==> isPro
    ensures o == HopeAllGood <==> !isPro && isChaleureux
  {
    if isPro then FollowingUp
    else if isChaleureux then HopeAllGood
    else QuickNote
  }

  /** The sentence about the context; the fallback quotes a context longer than ten characters. */
  datatype ContextLine = AfterCall | AfterMessage | AboutProposal | Reminder(contexte: string) | CheckIn {
    function Text(): string {
      match this
      case AfterCall => "Suite à notre appel, je voulais faire un point."
      case AfterMessage => "Je fais suite à mon précédent message."
      case AboutProposal => "Je reviens vers toi concernant la proposition que je t'avais envoyée."
      case Reminder(c) => ReminderPrefix + c
      case CheckIn => "Je voulais prendre de tes nouvelles."
    }
  }

  const ReminderPrefix := "Pour rappel : "

  /**
   * `if (text.includes(k0) || text.includes(k1)) … else if …`: three
   * keyword pairs tried in order, then a fallback.
   */
  function PairChain<T>(text: string, k0: string, k1: string, r0: T, k2: string, k3: string, r1: T,
                        k4: string, k5: string, r2: T, fallback: T): T {
    if Contains(text, k0) || Contains(text, k1) then r0
    else if Contains(text, k2) || Contains(text, k3) then r1
    else if Contains(text, k4) || Contains(text, k5) then r2
    else fallback
  }

  /** The context sentence, by the first keyword pair found in the lower-cased context. */
  function ContextLineFor(contexte: string): ContextLine {
    PairChain(Lower(contexte), "appel", "call", AfterCall, "mail", "email", AfterMessage,
              "proposition", "devis", AboutProposal,
              if |contexte| > 10 then Reminder(contexte) else CheckIn)
  }

  /** The same rules as an ordered keyword table. */
  const ContextTable := [
    Entry(["appel", "call"], AfterCall),
    Entry(["mail", "email"], AfterMessage),
    Entry(["proposition", "devis"], AboutProposal)]

  /** The sentence about the objective; the fallback quotes an objective longer than five characters. */
  datatype ObjectiveLine = AskReflection | AskMeeting | AskProgress | StateGoal(objectif: string) | AskNews {
    function Text(): string {
      match this
      case AskReflection => "As-tu eu le temps d'y réfléchir ?"
      case AskMeeting => "Serais-tu dispo cette semaine pour qu'on en discute ?"
      case AskProgress => "Où en es-tu de ton côté pour avancer ?"
      case StateGoal(o) => GoalPrefix + o + GoalSuffix
      case AskNews => "Des news ?"
    }
  }

  const GoalPrefix := "Mon objectif : "
  const GoalSuffix := ". Qu'en penses-tu ?"

  function ObjectiveLineFor(objectif: string): ObjectiveLine {
    PairChain(Lower(objectif), "réponse", "retour", AskReflection, "rdv", "appel", AskMeeting,
              "sign", "valider", AskProgress,
              if |objectif| > 5 then StateGoal(objectif) else AskNews)
  }

  const ObjectiveTable := [
    Entry(["réponse", "retour"], AskReflection),
    Entry(["rdv", "appel"], AskMeeting),
    Entry(["sign", "valider"], AskProgress)]

  /** What a keyword table picks, or the fallback when no row matches. */
  function Lookup<T>(table: seq<Entry<T>>, text: string, fallback: T): T {
    match FirstMatch(table, text)
    case Some(e) => e.response
    case None => fallback
  }

  /** A table of three keyword pairs is the `if … else if …` chain over them. */
  lemma LookupThreePairs<T>(k0: string, k1: string, r0: T, k2: string, k3: string, r1: T,
                                               k4: string, k5: string, r2: T, text: string, fallback: T)
    ensures Lookup([Entry([k0, k1], r0), Entry([k2, k3], r1), Entry([k4, k5], r2)], text, fallback)
         == PairChain(text, k0, k1, r0, k2, k3, r1, k4, k5, r2, fallback)
  {
    var table := [Entry([k0, k1], r0), Entry([k2, k3], r1), Entry([k4, k5], r2)];
    AnyKeywordPair([k0, k1], text);
    AnyKeywordPair([k2, k3], text);
    AnyKeywordPair([k4, k5], text);
    if AnyKeyword([k0, k1], text) {
      FirstMatchAt(table, text, 0);
    } else if AnyKeyword([k2, k3], text) {
      FirstMatchAt(table, text, 1);
    } else if AnyKeyword([k4, k5], text) {
      FirstMatchAt(table, text, 2);
    } else {
      FirstMatchSpec(table, text);
    }
  }

  /** The context sentence is the first matching row of the context table. */
  lemma ContextLineByTable(contexte: string)
    ensures ContextLineFor(contexte) ==
      Lookup(ContextTable, Lower(contexte), if |contexte| > 10 then Reminder(contexte) else CheckIn)
  {
    LookupThreePairs("appel", "call", AfterCall, "mail", "email", AfterMessage, "proposition", "devis", AboutProposal,
                     Lower(contexte), if |contexte| > 10 then Reminder(contexte) else CheckIn);
  }

  /** The objective sentence is the first matching row of the objective table. */
  lemma ObjectiveLineByTable(objectif: string)
    ensures ObjectiveLineFor(objectif) ==
      Lookup(ObjectiveTable, Lower(objectif), if |objectif| > 5 then StateGoal(objectif) else AskNews)
  {
    LookupThreePairs("réponse", "retour", AskReflection, "rdv", "appel", AskMeeting, "sign", "valider", AskProgress,
                     Lower(objectif), if |objectif| > 5 then StateGoal(objectif) else AskNews);
  }

  datatype Closing = FormalEmail | FormalChat | WarmEmail | WarmChat | PlainEmail | PlainChat {
    function Text(): string {
      match this
      case FormalEmail => "Je reste à votre disposition pour en discuter.\n\nBien cordialement,"
      case FormalChat => "Dis-moi si ça te parle !"
      case WarmEmail => "Hâte d'avoir de tes nouvelles ! \U{1F60A}\n\nÀ très vite,"
      case WarmChat => "À très vite ! \U{1F64C}"
      case PlainEmail => "Tiens-moi au courant.\n\nÀ bientôt,"
      case PlainChat => "Tiens-moi au jus !"
    }
  }

  /** The closing: chosen by register, in its e-mail form exactly for an e-mail. */
  function ClosingFor(isEmail: bool, isPro: bool, isChaleureux: bool): (r: Closing)
    ensures (r == FormalEmail || r == WarmEmail || r == PlainEmail) <==> isEmail
    ensures (r == FormalEmail || r == FormalChat) <==> isPro
    ensures (r == WarmEmail || r == WarmChat) <==> !isPro && isChaleureux
  {
    if isPro then (if isEmail then FormalEmail else FormalChat)
    else if isChaleureux then (if isEmail then WarmEmail else WarmChat)
    else if isEmail then PlainEmail else PlainChat
  }

  /** The five parts chosen for a set of form values. */
  datatype Parts = Parts(greeting: Greeting, opening: Opening, context: ContextLine, objective: ObjectiveLine, closing: Closing)

  function PartsFor(contexte: string, objectif: string, canal: string, ton: string): Parts {
    var isEmail := canal == EmailCanal;
    var isPro := ton == ProTon;
    var isChaleureux := ton == WarmTon;
    Parts(GreetingFor(isEmail, isPro, isChaleureux), OpeningFor(isPro, isChaleureux),
          ContextLineFor(contexte), ObjectiveLineFor(objectif), ClosingFor(isEmail, isPro, isChaleureux))
  }

  // ---- the message ---------------------------------------------------------

  const ParagraphBreak := "\n\n"
  const BusyNote := "Je sais que tu as beaucoup de choses en cours, mais je pense vraiment que ça pourrait t'aider."
  const CallOffer := "Si tu préfères, on peut aussi faire un rapide call de 10 min pour clarifier."

  /** The message's template for the chosen length: short, medium, or anything else as long. */
  function Render(longueur: string, p: Parts): string {
    Template(longueur, p.greeting.Text(), p.opening.Text(), p.context.Text(), p.objective.Text(), p.closing.Text())
  }

  /** The template over the five sentences of a message. */
  function Template(longueur: string, g: string, o: string, c: string, obj: string, cl: string): string {
    if longueur == ShortLength then
      g + ParagraphBreak + c + " " + obj + ParagraphBreak + cl
    else if longueur == MediumLength then
      g + ParagraphBreak + o + ParagraphBreak + c + ParagraphBreak + obj + ParagraphBreak + cl
    else
      g + ParagraphBreak + o + ParagraphBreak + c + ParagraphBreak + BusyNote + ParagraphBreak
        + obj + ParagraphBreak + CallOffer + ParagraphBreak + cl
  }

  /** `generateRelanceMessage` */
  function GenerateRelanceMessage(contexte: string, objectif: string, canal: string, ton: string, longueur: string): string {
    Render(longueur, PartsFor(contexte, objectif, canal, ton))
  }

  /** The paragraphs of a message, in order: three for short, five for medium, seven for long. */
  function Paragraphs(longueur: string, p: Parts): (r: seq<string>)
    ensures |r| == if longueur == ShortLength then 3 else if longueur == MediumLength then 5 else 7
    ensures r[0] == p.greeting.Text() && r[|r| - 1] == p.closing.Text()
  {
    Layout(longueur, p.greeting.Text(), p.opening.Text(), p.context.Text(), p.objective.Text(), p.closing.Text())
  }

  /** The paragraph layout of each length, over the five sentences of a message. */
  function Layout(longueur: string, g: string, o: string, c: string, obj: string, cl: string): (r: seq<string>)
    ensures |r| == if longueur == ShortLength then 3 else if longueur == MediumLength then 5 else 7
    ensures r[0] == g && r[|r| - 1] == cl
    ensures longueur == ShortLength ==> r[1] == c + " " + obj
    ensures longueur != ShortLength ==> r[2] == c
  {
    if longueur == ShortLength then [g, c + " " + obj, cl]
    else if longueur == MediumLength then [g, o, c, obj, cl]
    else [g, o, c, BusyNote, obj, CallOffer, cl]
  }

  /** Every template is its paragraphs separated by blank lines. */
  lemma RenderIsParagraphs(longueur: string, p: Parts)
    ensures Render(longueur, p) == Join(ParagraphBreak, Paragraphs(longueur, p))
  {
    TemplateIsLayout(longueur, p.greeting.Text(), p.opening.Text(), p.context.Text(), p.objective.Text(), p.closing.Text());
  }

  lemma TemplateIsLayout(longueur: string, g: string, o: string, c: string, obj: string, cl: string)
    ensures Template(longueur, g, o, c, obj, cl) == Join(ParagraphBreak, Layout(longueur, g, o, c, obj, cl))
  {
    if longueur == ShortLength {
      JoinThree(ParagraphBreak, g, c + " " + obj, cl);
    } else if longueur == MediumLength {
      JoinFive(ParagraphBreak, g, o, c, obj, cl);
    } else {
      JoinSeven(ParagraphBreak, g, o, c, BusyNote, obj, CallOffer, cl);
    }
  }

  /** Every message opens with its greeting and ends with its closing. */
  lemma MessageFrame(contexte: string, objectif: string, canal: string, ton: string, longueur: string)
    ensures var m := GenerateRelanceMessage(contexte, objectif, canal, ton, longueur);
      var p := PartsFor(contexte, objectif, canal, ton);
      |m| >= |p.greeting.Text()| && |m| >= |p.closing.Text()|
      && m[..|p.greeting.Text()|] == p.greeting.Text()
      && m[|m| - |p.closing.Text()|..] == p.closing.Text()
  {
    var p := PartsFor(contexte, objectif, canal, ton);
    RenderIsParagraphs(longueur, p);
    JoinFrame(ParagraphBreak, Paragraphs(longueur, p));
  }

  /** A message quotes whatever its context sentence quotes. */
  lemma RenderQuotesReminder(longueur: string, p: Parts, c: string)
    requires p.context == Reminder(c)
    ensures Contains(Render(longueur, p), c)
  {
    RenderIsParagraphs(longueur, p);
    LayoutQuotes(longueur, p.greeting.Text(), p.opening.Text(), ReminderPrefix, c, p.objective.Text(), p.closing.Text());
  }

  /** Whatever the length, the context sentence is one paragraph or the head of one. */
  lemma LayoutQuotes(longueur: string, g: string, o: string, pre: string, x: string, obj: string, cl: string)
    ensures Contains(Join(ParagraphBreak, Layout(longueur, g, o, pre + x, obj, cl)), x)
  {
    var ps := Layout(longueur, g, o, pre + x, obj, cl);
    if longueur == ShortLength {
      assert ps[1] == pre + x + (" " + obj);
      JoinKeepsInfix(ParagraphBreak, ps, 1, pre, x, " " + obj);
    } else {
      assert ps[2] == pre + x + "";
      JoinKeepsInfix(ParagraphBreak, ps, 2, pre, x, "");
    }
  }

  /**
   * When the context matches none of the context keywords and is longer than
   * ten characters, the message quotes it, whatever the other fields.
   */
  lemma MessageQuotesLongContext(contexte: string, objectif: string, canal: string, ton: string, longueur: string)
    requires ContextLineFor(contexte).Reminder?
    ensures Contains(GenerateRelanceMessage(contexte, objectif, canal, ton, longueur), contexte)
  {
    RenderQuotesReminder(longueur, PartsFor(contexte, objectif, canal, ton), contexte);
  }

  /** Any channel other than e-mail gives the LinkedIn message. */
  lemma OtherChannelIsLinkedIn(contexte: string, objectif: string, canal: string, ton: string, longueur: string)
    requires canal != EmailCanal
    ensures GenerateRelanceMessage(contexte, objectif, canal, ton, longueur)
         == GenerateRelanceMessage(contexte, objectif, LinkedInCanal, ton, longueur)
  {
    assert LinkedInCanal != EmailCanal by { assert |LinkedInCanal| != |EmailCanal|; }
  }

  /** Any tone other than "pro" and "chaleureux" gives the direct message. */
  lemma OtherToneIsDirect(contexte: string, objectif: string, canal: string, ton: string, longueur: string)
    requires ton != ProTon && ton != WarmTon
    ensures GenerateRelanceMessage(contexte, objectif, canal, ton, longueur)
         == GenerateRelanceMessage(contexte, objectif, canal, DirectTon, longueur)
  {
    assert DirectTon != ProTon && DirectTon != WarmTon by {
      assert |DirectTon| != |ProTon| && |DirectTon| != |WarmTon|;
    }
  }

  /** Any length other than "court" and "moyen" gives the long message. */
  lemma OtherLengthIsLong(contexte: string, objectif: string, canal: string, ton: string, longueur: string)
    requires longueur != ShortLength && longueur != MediumLength
    ensures GenerateRelanceMessage(contexte, objectif, canal, ton, longueur)
         == GenerateRelanceMessage(contexte, objectif, canal, ton, LongLength)
  {
    assert LongLength != ShortLength && LongLength != MediumLength by {
      assert |LongLength| != |ShortLength| && |LongLength| != |MediumLength|;
    }
  }

  // ---- the saved inputs ----------------------------------------------------

  const ContexteKey := "contexte"
  const ObjectifKey := "objectif"
  const CanalKey := "canal"
  const TonKey := "ton"
  const LongueurKey := "longueur"

  /** The `inputs` object saved with a run. */
  function RunInputs(contexte: string, objectif: string, canal: string, ton: string, longueur: string): map<string, string> {
    map[ContexteKey := contexte, ObjectifKey := objectif, CanalKey := canal, TonKey := ton, LongueurKey := longueur]
  }

  /** `inputs[key] || fallback`: a missing or empty input gives the fallback. */
  function InputOr(inputs: map<string, string>, key: string, fallback: string): (r: string)
    ensures key in inputs && inputs[key] != "" ==> r == inputs[key]
    ensures (key !in inputs || inputs[key] == "") ==> r == fallback
  {
    if key in inputs && inputs[key] != "" then inputs[key] else fallback
  }

  /**
   * Loading saved inputs gives back the values they were saved from, as long
   * as the three option fields were set (the option buttons never set them empty).
   */
  lemma InputsRoundTrip(contexte: string, objectif: string, canal: string, ton: string, longueur: string)
    requires canal != "" && ton != "" && longueur != ""
    ensures var inputs := RunInputs(contexte, objectif, canal, ton, longueur);
      InputOr(inputs, ContexteKey, "") == contexte
      && InputOr(inputs, ObjectifKey, "") == objectif
      && InputOr(inputs, CanalKey, EmailCanal) == canal
      && InputOr(inputs, TonKey, WarmTon) == ton
      && InputOr(inputs, LongueurKey, MediumLength) == longueur
  {
  }

  // ---- the page ------------------------------------------------------------

  /** The follow-up tool's form, its last output and the history shown beside it. */
  class ToolsPage {
    var contexte: string
    var objectif: string
    var canal: string
    var ton: string
    var longueur: string
    var output: string
    var history: seq<ToolRun>
    var showHistory: bool
    const store: LocalStorage

    /** The form's defaults; on mount the history is read from storage. */
    constructor (store: LocalStorage)
      ensures this.store == store
      ensures contexte == "" && objectif == "" && canal == EmailCanal && ton == WarmTon && longueur == MediumLength
      ensures output == "" && !showHistory
      ensures history == Storage.GetToolRuns(store)
    {
      this.store := store;
      contexte, objectif, canal, ton, longueur := "", "", EmailCanal, WarmTon, MediumLength;
      output := "";
      showHistory := false;
      history := Storage.GetToolRuns(store);
    }

    /**
     * `handleGenerate`: the message is shown and saved, with the form's
     * inputs, at the front of the stored history, which is then read back.
     * The run's id and date are supplied by the caller.
     */
    method HandleGenerate(id: string, date: string)
      modifies this, store
      ensures output == GenerateRelanceMessage(contexte, objectif, canal, ton, longueur)
      ensures contexte == old(contexte) && objectif == old(objectif) && canal == old(canal)
      ensures ton == old(ton) && longueur == old(longueur) && showHistory == old(showHistory)
      ensures store.items == old(store.items)[Storage.ToolRunsKey := ToolRunsJson(Storage.PrependCapped(
        old(Storage.GetToolRuns(store)), ToolRun(id, RelanceTool, date, RunInputs(contexte, objectif, canal, ton, longueur), output)))]
      ensures history == Storage.GetToolRuns(store)
      ensures |history| <= Storage.MaxToolRuns
      ensures history[0] == ToolRun(id, RelanceTool, date, RunInputs(contexte, objectif, canal, ton, longueur), output)
    {
      var message := GenerateRelanceMessage(contexte, objectif, canal, ton, longueur);
      output := message;
      Storage.AddToolRun(store, RelanceTool, RunInputs(contexte, objectif, canal, ton, longueur), message, id, date);
      history := Storage.GetToolRuns(store);
    }

    /** `loadFromHistory`: a follow-up run refills the form and the output and closes the history. */
    method LoadFromHistory(run: ToolRun)
      modifies this
      ensures run.tool == RelanceTool ==>
        contexte == InputOr(run.inputs, ContexteKey, "")
        && objectif == InputOr(run.inputs, ObjectifKey, "")
        && canal == InputOr(run.inputs, CanalKey, EmailCanal)
        && ton == InputOr(run.inputs, TonKey, WarmTon)
        && longueur == InputOr(run.inputs, LongueurKey, MediumLength)
        && output == run.output && !showHistory
      ensures run.tool != RelanceTool ==>
        contexte == old(contexte) && objectif == old(objectif) && canal == old(canal)
        && ton == old(ton) && longueur == old(longueur) && output == old(output) && showHistory == old(showHistory)
      ensures history == old(history)
    {
      if run.tool == RelanceTool {
        contexte := InputOr(run.inputs, ContexteKey, "");
        objectif := InputOr(run.inputs, ObjectifKey, "");
        canal := InputOr(run.inputs, CanalKey, EmailCanal);
        ton := InputOr(run.inputs, TonKey, WarmTon);
        longueur := InputOr(run.inputs, LongueurKey, MediumLength);
        output := run.output;
        showHistory := false;
      }
    }
  }
}
