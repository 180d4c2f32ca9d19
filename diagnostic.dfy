/**
 * The diagnostic questionnaire: ten questions shown one at a time. The
 * form keeps the current step and the answers entered so far; "next" moves
 * forward only once the current question is answered (sliders always are),
 * and on the last question it scores the answers and saves answers and
 * scores to storage.
 */
module Diagnostic {
  import opened Wrappers
  import opened Strings
  import opened Records
  import opened Scoring
  import opened Browser
  import Storage

  datatype QuestionKind = TextInput | TextArea | Choice | Slider

  datatype Question = Question(id: Field, kind: QuestionKind, options: seq<string>)

  const ObjectifOptions := ["Lancer mon activité", "Structurer ce que j'ai déjà", "Vendre plus", "Récupérer du temps"]
  const BlocageOptions := ["Manque de clarté", "Manque d'organisation", "Vente / prospection", "Passage à l'action"]
  const TempsOptions := ["Moins de 2h", "2-5h", "5-10h", "Plus de 10h"]
  const CanalOptions := ["Réseau / bouche-à-oreille", "LinkedIn", "Email / newsletter", "Ads / pub", "Autre"]

  /** The questions, in the order they are asked. */
  const Questions: seq<Question> := [
    Question(Activite, TextInput, []),
    Question(Objectif, Choice, ObjectifOptions),
    Question(Blocage, Choice, BlocageOptions),
    Question(TempsDisponible, Choice, TempsOptions),
    Question(Energie, Slider, []),
    Question(Urgence, Slider, []),
    Question(TypeClients, TextInput, []),
    Question(OffreActuelle, TextArea, []),
    Question(CanalPrincipal, Choice, CanalOptions),
    Question(Vision30Jours, TextArea, [])]

  const TotalSteps := |Questions|

  /** Exactly the slider questions ask for a number. */
  lemma SlidersAskForNumbers(i: nat)
    requires i < TotalSteps
    ensures Questions[i].kind == Slider <==> Questions[i].id.IsNumeric()
  {
  }

  /** Each question asks for its own field. */
  lemma QuestionFieldsDistinct(i: nat, j: nat)
    requires i < j < TotalSteps
    ensures Questions[i].id != Questions[j].id
  {
  }

  /**
   * Every answer the scoring rules look for is one of the choices the
   * question offers, so each rule can fire.
   */
  lemma ScoringRulesUseOfferedChoices()
    ensures ClarteRules[0].condition == ObjectifIs(ObjectifOptions[0])
    ensures ClarteRules[1].condition == ObjectifIs(ObjectifOptions[1])
    ensures ClarteRules[2].condition == BlocageIs(BlocageOptions[0])
    ensures ClarteRules[3].condition == BlocageIs(BlocageOptions[3])
    ensures SystemeRules[0].condition == TempsIs(TempsOptions[0])
    ensures SystemeRules[1].condition == TempsIs(TempsOptions[3])
    ensures SystemeRules[3].condition == CanalIs(CanalOptions[0])
    ensures SystemeRules[4].condition == CanalIs(CanalOptions[1])
    ensures SystemeRules[5].condition == CanalIs(CanalOptions[2])
  {
  }

  // ---- per-question views of the answers ------------------------------

  /** `getCurrentValue`: the value to display; an unanswered slider reads as 3, other questions as "". */
  function CurrentValue(a: DiagnosticAnswers, q: Question): (v: AnswerValue)
    ensures q.kind == Slider ==> v.Number? && v.number != 0
    ensures q.kind != Slider ==> v.Text?
    ensures Get(a, q.id).None? ==> v == if q.kind == Slider then Number(3) else Text("")
  {
    var value := Get(a, q.id);
    if q.kind == Slider then
      Number(if value.Some? && value.value.Number? && value.value.number != 0 then value.value.number else 3)
    else
      Text(if value.Some? && value.value.Text? then value.value.text else "")
  }

  /** `canProceed`: sliders always; other questions once their text is not blank. */
  predicate Answered(a: DiagnosticAnswers, q: Question) {
    q.kind == Slider || (Get(a, q.id).Some? && Get(a, q.id).value.Text? && Trim(Get(a, q.id).value.text) != "")
  }

  /**
   * The stated form of `canProceed`: a slider can always be passed, whatever
   * the answers; any other question once its text is not only white space.
   */
  lemma AnsweredIff(a: DiagnosticAnswers, q: Question)
    ensures q.kind == Slider ==> Answered(a, q)
    ensures q.kind != Slider ==>
      (Answered(a, q) <==> Get(a, q.id).Some? && Get(a, q.id).value.Text? && !IsBlank(Get(a, q.id).value.text))
  {
    if Get(a, q.id).Some? && Get(a, q.id).value.Text? {
      TrimEmptyIffBlank(Get(a, q.id).value.text);
    }
  }

  /** What was last entered for a question is what the question displays (a slider at 0 aside). */
  lemma DisplaysWhatWasEntered(a: DiagnosticAnswers, i: nat, v: AnswerValue)
    requires i < TotalSteps && Fits(Questions[i].id, v)
    requires v != Number(0)
    ensures CurrentValue(Set(a, Questions[i].id, v), Questions[i]) == v
  {
    GetSet(a, Questions[i].id, v, Questions[i].id);
  }

  /** Every question is answered: what is saved when the last step is passed. */
  ghost predicate Complete(a: DiagnosticAnswers) {
    forall i :: 0 <= i < TotalSteps ==> Answered(a, Questions[i])
  }

  /** The form state. */
  class DiagnosticForm {
    var currentStep: nat
    var answers: DiagnosticAnswers
    var showResults: bool
    const store: LocalStorage

    /** The step is a valid question index and every earlier question is answered. */
    ghost predicate Valid()
      reads this
    {
      currentStep < TotalSteps
      && forall i :: 0 <= i < currentStep ==> Answered(answers, Questions[i])
    }

    constructor (store: LocalStorage)
      ensures Valid()
      ensures currentStep == 0 && answers == NoAnswers && !showResults && this.store == store
    {
      currentStep := 0;
      answers := NoAnswers;
      showResults := false;
      this.store := store;
    }

    function CurrentQuestion(): Question
      reads this
      requires Valid()
    {
      Questions[currentStep]
    }

    /** `getCurrentValue` */
    function GetCurrentValue(): AnswerValue
      reads this
      requires Valid()
    {
      CurrentValue(answers, CurrentQuestion())
    }

    /** `canProceed` */
    predicate CanProceed()
      reads this
      requires Valid()
    {
      Answered(answers, CurrentQuestion())
    }

    /** `updateAnswer`: records `value` for the current question and nothing else. */
    method UpdateAnswer(value: AnswerValue)
      requires Valid() && Fits(CurrentQuestion().id, value)
      modifies this
      ensures Valid()
      ensures answers == Set(old(answers), old(CurrentQuestion()).id, value)
      ensures forall f :: f != old(CurrentQuestion()).id ==> Get(answers, f) == Get(old(answers), f)
      ensures currentStep == old(currentStep) && showResults == old(showResults)
    {
      var id := Questions[currentStep].id;
      ghost var before := answers;
      answers := Set(answers, id, value);
      forall f | f != id ensures Get(answers, f) == Get(before, f) {
        GetSet(before, id, value, f);
      }
      forall i | 0 <= i < currentStep ensures Answered(answers, Questions[i]) {
        QuestionFieldsDistinct(i, currentStep);
        GetSet(before, id, value, Questions[i].id);
      }
    }

    /**
     * `handleNext` (its button is disabled unless the question is answered):
     * moves to the next question, or on the last one saves answers and scores.
     */
    method HandleNext()
      requires Valid() && CanProceed()
      modifies this, store
      ensures Valid() && answers == old(answers)
      ensures old(currentStep) < TotalSteps - 1 ==>
        currentStep == old(currentStep) + 1 && showResults == old(showResults) && store.items == old(store.items)
      ensures old(currentStep) == TotalSteps - 1 ==>
        && currentStep == old(currentStep) && showResults
        && Complete(answers)
        && store.items == old(store.items)[Storage.AnswersKey := AnswersJson(answers)]
                                          [Storage.ScoresKey := ScoresJson(CalculateScores(answers))]
    {
      if currentStep < TotalSteps - 1 {
        currentStep := currentStep + 1;
      } else {
        CalculateAndSave();
      }
    }

    /** `handlePrevious`: back one question, nothing at the first. */
    method HandlePrevious()
      requires Valid()
      modifies this
      ensures Valid()
      ensures currentStep == if old(currentStep) > 0 then old(currentStep) - 1 else 0
      ensures answers == old(answers) && showResults == old(showResults)
    {
      if currentStep > 0 {
        currentStep := currentStep - 1;
      }
    }

    /** `calculateAndSave`: saves the answers and their scores, then shows the results. */
    method CalculateAndSave()
      requires Valid()
      modifies this, store
      ensures Valid() && showResults
      ensures currentStep == old(currentStep) && answers == old(answers)
      ensures store.items == old(store.items)[Storage.AnswersKey := AnswersJson(answers)]
                                             [Storage.ScoresKey := ScoresJson(CalculateScores(answers))]
      ensures Storage.GetDiagnosticAnswers(store) == Some(answers)
      ensures Storage.GetDiagnosticScores(store) == Some(CalculateScores(answers))
    {
      var scores := CalculateScores(answers);
      Storage.SetDiagnosticAnswers(store, answers);
      Storage.SetDiagnosticScores(store, scores);
      showResults := true;
    }
  }
}
