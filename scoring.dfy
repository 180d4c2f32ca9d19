/**
 * `calculateScores`: the three diagnostic scores. Clarity and system each
 * start at 50, take every adjustment whose condition holds, and are clamped
 * to 0..100 once at the end; mental load is `50 + 10·energie − 8·urgence`,
 * clamped as well.
 */
module Scoring {
  import opened Wrappers
  import opened Records

  const Baseline := 50

  /** `Math.max(0, Math.min(100, x))` */
  function Clamp(x: int): (r: int)
    ensures 0 <= r <= 100
    ensures 0 <= x <= 100 ==> r == x
    ensures x < 0 ==> r == 0
    ensures x > 100 ==> r == 100
  {
    if x < 0 then 0 else if x > 100 then 100 else x
  }

  /** `s === value` for an optional text field. */
  predicate Is(s: Option<string>, value: string) {
    s == Some(value)
  }

  /** `s && s.length > n`: present and strictly longer than `n` characters. */
  predicate LongerThan(s: Option<string>, n: nat) {
    s.Some? && |s.value| > n
  }

  /** `(x as number) || 3`: a missing or zero slider counts as 3. */
  function SliderOr3(x: Option<int>): (r: int)
    ensures r != 0
    ensures x.Some? && x.value != 0 ==> r == x.value
    ensures !(x.Some? && x.value != 0) ==> r == 3
  {
    if x.Some? && x.value != 0 then x.value else 3
  }

  function Clarte(a: DiagnosticAnswers): int {
    var c0 := Baseline;
    var c1 := if Is(a.objectif, "Lancer mon activité") then c0 - 10 else c0;
    var c2 := if Is(a.objectif, "Structurer ce que j'ai déjà") then c1 + 10 else c1;
    var c3 := if Is(a.blocage, "Manque de clarté") then c2 - 20 else c2;
    var c4 := if Is(a.blocage, "Passage à l'action") then c3 + 10 else c3;
    var c5 := if LongerThan(a.vision30Jours, 50) then c4 + 15 else c4;
    Clamp(c5)
  }

  function Systeme(a: DiagnosticAnswers): int {
    var s0 := Baseline;
    var s1 := if Is(a.tempsDisponible, "Moins de 2h") then s0 - 15 else s0;
    var s2 := if Is(a.tempsDisponible, "Plus de 10h") then s1 + 15 else s1;
    var s3 := if LongerThan(a.offreActuelle, 30) then s2 + 15 else s2;
    var s4 := if Is(a.canalPrincipal, "Réseau / bouche-à-oreille") then s3 - 10 else s3;
    var s5 := if Is(a.canalPrincipal, "LinkedIn") || Is(a.canalPrincipal, "Email / newsletter") then s4 + 10 else s4;
    Clamp(s5)
  }

  function ChargeMentale(a: DiagnosticAnswers): int {
    var energie := SliderOr3(a.energie);
    var urgence := SliderOr3(a.urgence);
    Clamp(Baseline + energie * 10 - urgence * 8)
  }

  /** `calculateScores` */
  function CalculateScores(a: DiagnosticAnswers): (s: Scores)
    ensures 0 <= s.clarte <= 100 && 0 <= s.systeme <= 100 && 0 <= s.chargeMentale <= 100
  {
    Scores(Clarte(a), Systeme(a), ChargeMentale(a))
  }

  // ---- the adjustments as a rule table ----------------------------------

  /** A condition on the answers under which an adjustment applies. */
  datatype Condition =
    | ObjectifIs(objectif: string)
    | BlocageIs(blocage: string)
    | TempsIs(temps: string)
    | CanalIs(canal: string)
    | VisionLongerThan(visionLength: nat)
    | OffreLongerThan(offreLength: nat)

  predicate Holds(c: Condition, a: DiagnosticAnswers) {
    match c
    case ObjectifIs(o) => Is(a.objectif, o)
    case BlocageIs(b) => Is(a.blocage, b)
    case TempsIs(t) => Is(a.tempsDisponible, t)
    case CanalIs(k) => Is(a.canalPrincipal, k)
    case VisionLongerThan(n) => LongerThan(a.vision30Jours, n)
    case OffreLongerThan(n) => LongerThan(a.offreActuelle, n)
  }

  datatype Rule = Rule(condition: Condition, delta: int)

  /** The sum of the deltas of the rules whose condition holds. */
  function MatchingDeltas(rules: seq<Rule>, a: DiagnosticAnswers): int {
    if rules == [] then 0
    else (if Holds(rules[0].condition, a) then rules[0].delta else 0) + MatchingDeltas(rules[1..], a)
  }

  const ClarteRules := [
    Rule(ObjectifIs("Lancer mon activité"), -10),
    Rule(ObjectifIs("Structurer ce que j'ai déjà"), 10),
    Rule(BlocageIs("Manque de clarté"), -20),
    Rule(BlocageIs("Passage à l'action"), 10),
    Rule(VisionLongerThan(50), 15)]

  const SystemeRules := [
    Rule(TempsIs("Moins de 2h"), -15),
    Rule(TempsIs("Plus de 10h"), 15),
    Rule(OffreLongerThan(30), 15),
    Rule(CanalIs("Réseau / bouche-à-oreille"), -10),
    Rule(CanalIs("LinkedIn"), 10),
    Rule(CanalIs("Email / newsletter"), 10)]

  /** The deltas matched by a table's suffix starting at `i`, peeled one rule at a time. */
  lemma MatchingDeltasFrom(rules: seq<Rule>, a: DiagnosticAnswers, i: nat)
    requires i < |rules|
    ensures MatchingDeltas(rules[i..], a)
         == (if Holds(rules[i].condition, a) then rules[i].delta else 0) + MatchingDeltas(rules[i + 1..], a)
  {
    assert rules[i..][1..] == rules[i + 1..];
  }

  /** Clarity is 50 plus every matching clarity delta, clamped once. */
  lemma ClarteIsRuleSum(a: DiagnosticAnswers)
    ensures Clarte(a) == Clamp(Baseline + MatchingDeltas(ClarteRules, a))
  {
    var r := ClarteRules;
    assert r[5..] == [];
    MatchingDeltasFrom(r, a, 4);
    MatchingDeltasFrom(r, a, 3);
    MatchingDeltasFrom(r, a, 2);
    MatchingDeltasFrom(r, a, 1);
    MatchingDeltasFrom(r, a, 0);
    assert r[0..] == r;
  }

  /** System is 50 plus every matching system delta, clamped once. */
  lemma SystemeIsRuleSum(a: DiagnosticAnswers)
    ensures Systeme(a) == Clamp(Baseline + MatchingDeltas(SystemeRules, a))
  {
    var r := SystemeRules;
    assert r[6..] == [];
    MatchingDeltasFrom(r, a, 5);
    MatchingDeltasFrom(r, a, 4);
    MatchingDeltasFrom(r, a, 3);
    MatchingDeltasFrom(r, a, 2);
    MatchingDeltasFrom(r, a, 1);
    MatchingDeltasFrom(r, a, 0);
    assert r[0..] == r;
  }

  /** Clarity depends on the objective, the blocker and the 30-day vision only. */
  lemma ClarteDependsOn(a: DiagnosticAnswers, b: DiagnosticAnswers)
    requires a.objectif == b.objectif && a.blocage == b.blocage && a.vision30Jours == b.vision30Jours
    ensures Clarte(a) == Clarte(b)
  {
  }

  /** System depends on the weekly time, the offer and the channel only. */
  lemma SystemeDependsOn(a: DiagnosticAnswers, b: DiagnosticAnswers)
    requires a.tempsDisponible == b.tempsDisponible && a.offreActuelle == b.offreActuelle
    requires a.canalPrincipal == b.canalPrincipal
    ensures Systeme(a) == Systeme(b)
  {
  }

  /**
   * Clamping never binds for clarity and system: the raw sums stay within
   * 20..85 and 25..90, and the scores are those sums.
   */
  lemma ClampNeverBinds(a: DiagnosticAnswers)
    ensures 20 <= Clarte(a) <= 85 && Clarte(a) == Baseline + MatchingDeltas(ClarteRules, a)
    ensures 25 <= Systeme(a) <= 90 && Systeme(a) == Baseline + MatchingDeltas(SystemeRules, a)
  {
    ClarteIsRuleSum(a);
    SystemeIsRuleSum(a);
  }

  /**
   * The vision bonus is strict: a vision of exactly 50 characters earns
   * nothing, one of 51 or more earns 15, whatever the other answers.
   */
  lemma VisionBonus(a: DiagnosticAnswers, vision: string)
    ensures Clarte(a.(vision30Jours := Some(vision)))
         == Clarte(a.(vision30Jours := None)) + (if |vision| > 50 then 15 else 0)
  {
  }

  /** The offer bonus is strict: exactly 30 characters earn nothing. */
  lemma OffreBonus(a: DiagnosticAnswers, offre: string)
    ensures Systeme(a.(offreActuelle := Some(offre)))
         == Systeme(a.(offreActuelle := None)) + (if |offre| > 30 then 15 else 0)
  {
  }

  /**
   * For sliders in 1..5 (or left unanswered) mental load is the unclamped
   * formula and lies in 20..92.
   */
  lemma ChargeMentaleRange(a: DiagnosticAnswers)
    requires a.energie.Some? ==> 1 <= a.energie.value <= 5
    requires a.urgence.Some? ==> 1 <= a.urgence.value <= 5
    ensures ChargeMentale(a) == Baseline + 10 * SliderOr3(a.energie) - 8 * SliderOr3(a.urgence)
    ensures 20 <= ChargeMentale(a) <= 92
  {
  }

  /** A missing or zero slider scores as the middle value 3. */
  lemma MissingSliderIsThree(a: DiagnosticAnswers)
    requires a.energie.None? || a.energie == Some(0)
    requires a.urgence.None? || a.urgence == Some(0)
    ensures ChargeMentale(a) == 56
  {
  }

  /** Worked values: the best and worst clarity, and the slider extremes. */
  lemma ExampleScores(a: DiagnosticAnswers)
    ensures (Is(a.objectif, "Structurer ce que j'ai déjà") && Is(a.blocage, "Passage à l'action")
             && LongerThan(a.vision30Jours, 50)) ==> Clarte(a) == 85
    ensures (Is(a.objectif, "Lancer mon activité") && Is(a.blocage, "Manque de clarté")
             && !LongerThan(a.vision30Jours, 50)) ==> Clarte(a) == 20
    ensures a.energie == Some(5) && a.urgence == Some(1) ==> ChargeMentale(a) == 92
    ensures a.energie == Some(1) && a.urgence == Some(5) ==> ChargeMentale(a) == 20
    ensures a.energie == Some(3) && a.urgence == Some(3) ==> ChargeMentale(a) == 56
  {
  }
}
