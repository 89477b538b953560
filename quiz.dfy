/** The fragrance quiz (src/components/QuizModal.tsx): three questions
    answered one after the other, and a submission that is sent only once
    every question has an answer. What the recommender makes of the answers
    is the store's business (Store.HandleQuizSubmit). */
module Quiz {
  import opened Wrappers

  datatype Key = Landscape | Sensation | TimeOfDay

  datatype Question = Question(key: Key, options: seq<string>)

  /** quizQuestions (src/components/QuizModal.tsx:15-31); the question texts
      are presentation only. */
  const Questions: seq<Question> := [
    Question(Landscape, ["Playa al atardecer", "Bosque frondoso y húmedo",
                         "Jardín floreciente en primavera", "Una metrópolis vibrante de noche"]),
    Question(Sensation, ["Frescura y energía revitalizante", "Calidez, confort y tranquilidad",
                         "Elegancia, misterio y sofisticación", "Aventura, libertad y audacia"]),
    Question(TimeOfDay, ["Una mañana radiante y soleada", "Una tarde relajada y serena",
                         "Una noche mágica y estrellada"])]

  /** QuizPreferences (src/types.ts:41-45). */
  datatype Preferences = Preferences(landscape: string, sensation: string, timeOfDay: string)

  const NoAnswers: Preferences := Preferences("", "", "")

  function Answer(p: Preferences, k: Key): string {
    match k
    case Landscape => p.landscape
    case Sensation => p.sensation
    case TimeOfDay => p.timeOfDay
  }

  /** `{ ...preferences, [key]: option }`. */
  function SetAnswer(p: Preferences, k: Key, v: string): Preferences {
    match k
    case Landscape => p.(landscape := v)
    case Sensation => p.(sensation := v)
    case TimeOfDay => p.(timeOfDay := v)
  }

  /** Setting an answer records it under its key and keeps the others. */
  lemma SetAnswerMeaning(p: Preferences, k: Key, v: string)
    ensures Answer(SetAnswer(p, k, v), k) == v
    ensures forall j :: j != k ==> Answer(SetAnswer(p, k, v), j) == Answer(p, j)
  {
  }

  /** isFormComplete (src/components/QuizModal.tsx:53): no answer is empty. */
  predicate IsFormComplete(p: Preferences) {
    p.landscape != "" && p.sensation != "" && p.timeOfDay != ""
  }

  lemma IsFormCompleteMeaning(p: Preferences)
    ensures IsFormComplete(p) <==> forall k :: Answer(p, k) != ""
  {
    assert Answer(p, Landscape) == p.landscape;
    assert Answer(p, Sensation) == p.sensation;
    assert Answer(p, TimeOfDay) == p.timeOfDay;
  }

  /** The question shown after an answer (src/components/QuizModal.tsx:46-50). */
  function NextIndex(i: nat): nat {
    if i < |Questions| - 1 then i + 1 else i
  }

  /** The index moves forward by one until the last question, where it stays;
      it never goes back and never leaves the questions. */
  lemma NextIndexMeaning(i: nat)
    requires i < |Questions|
    ensures i <= NextIndex(i) < |Questions|
    ensures i < |Questions| - 1 ==> NextIndex(i) == i + 1
    ensures i == |Questions| - 1 ==> NextIndex(i) == i
  {
  }

  /** An answer is either missing or one of its question's options. */
  predicate AnswersFromOptions(p: Preferences) {
    forall i :: 0 <= i < |Questions| ==>
      Answer(p, Questions[i].key) == "" || Answer(p, Questions[i].key) in Questions[i].options
  }

  /** No option of any question is empty. */
  lemma OptionsNotEmpty(i: nat, o: string)
    requires i < |Questions| && o in Questions[i].options
    ensures o != ""
  {
  }

  class QuizForm {
    var preferences: Preferences
    var currentQuestionIndex: nat

    ghost predicate Valid()
      reads this
    {
      currentQuestionIndex < |Questions| && AnswersFromOptions(preferences)
    }

    constructor ()
      ensures Valid() && preferences == NoAnswers && currentQuestionIndex == 0
    {
      preferences := NoAnswers;
      currentQuestionIndex := 0;
    }

    /** handleSelectOption (src/components/QuizModal.tsx:42-51), as the option
        buttons of the current question call it. */
    method HandleSelectOption(key: Key, option: string)
      requires Valid()
      requires key == Questions[currentQuestionIndex].key && option in Questions[currentQuestionIndex].options
      modifies this
      ensures Valid()
      ensures preferences == SetAnswer(old(preferences), key, option)
      ensures currentQuestionIndex == NextIndex(old(currentQuestionIndex))
      ensures Answer(preferences, key) != ""
      ensures IsFormComplete(old(preferences)) ==> IsFormComplete(preferences)
    {
      var newPreferences := SetAnswer(preferences, key, option);
      OptionsNotEmpty(currentQuestionIndex, option);
      SetAnswerMeaning(preferences, key, option);
      IsFormCompleteMeaning(preferences);
      IsFormCompleteMeaning(newPreferences);
      preferences := newPreferences;
      if currentQuestionIndex < |Questions| - 1 {
        currentQuestionIndex := currentQuestionIndex + 1;
      }
    }

    /** handleSubmit (src/components/QuizModal.tsx:55-60): the answers are
        sent only when the form is complete. */
    method HandleSubmit() returns (submitted: Option<Preferences>)
      ensures submitted.Some? <==> IsFormComplete(preferences)
      ensures submitted.Some? ==> submitted.value == preferences
    {
      if IsFormComplete(preferences) {
        submitted := Some(preferences);
      } else {
        submitted := None;
      }
    }
  }

  /** Answering the three questions in turn with their first options makes
      the form complete, so the submission goes out. */
  method AnswerAllAndSubmit() returns (submitted: Option<Preferences>)
    ensures submitted.Some?
  {
    var quiz := new QuizForm();
    quiz.HandleSelectOption(Landscape, Questions[0].options[0]);
    quiz.HandleSelectOption(Sensation, Questions[1].options[0]);
    assert quiz.currentQuestionIndex == 2;
    quiz.HandleSelectOption(TimeOfDay, Questions[2].options[0]);
    assert Answer(quiz.preferences, Landscape) != "" && Answer(quiz.preferences, Sensation) != "";
    submitted := quiz.HandleSubmit();
  }
}
