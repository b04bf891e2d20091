/**
 * `submitKBAAnswers`: the answers to the identity questions are collected
 * from the radio buttons `displayKBAQuestions` rendered, unanswered questions
 * are marked with the `error` class, and the outcome is decided. The answers
 * are never sent anywhere: in the sandbox flow only the presence of the
 * answer key returned with the questions matters.
 */
module Kba {
  import opened Wrappers
  import opened JsStrings

  /** One radio input: its `name`, its `value` (an option id) and whether it is checked. */
  datatype Radio = Radio(name: string, value: string, checked: bool)

  /** One `.question-container`, with its radio inputs in document order. */
  datatype QuestionView = QuestionView(radios: seq<Radio>)

  const NamePrefix := "question_"

  /** The `name` shared by the radios of question `id`. */
  function RadioName(id: string): string {
    NamePrefix + id
  }

  /** The question id read back from the first radio's name. */
  function QuestionId(q: QuestionView): string
    requires |q.radios| > 0
  {
    ReplaceFirst(q.radios[0].name, NamePrefix, "")
  }

  /** The value of the first checked radio of a question, if any. */
  function Selected(radios: seq<Radio>): (r: Option<string>)
    ensures r.Some? ==> CheckedWith(radios, r.value)
  {
    if radios == [] then None
    else if radios[0].checked then Some(radios[0].value)
    else Selected(radios[1..])
  }

  /** Some checked radio holds `value`. */
  predicate CheckedWith(radios: seq<Radio>, value: string) {
    exists j :: 0 <= j < |radios| && radios[j].checked && radios[j].value == value
  }

  /** Radio `j` is the first checked one. */
  predicate FirstChecked(radios: seq<Radio>, j: int) {
    0 <= j < |radios| && radios[j].checked && forall k :: 0 <= k < j ==> !radios[k].checked
  }

  /**
   * `querySelector('input[name=...]:checked')`: no choice exactly when no
   * radio is checked, and otherwise the value of the first checked radio.
   */
  lemma {:induction false} SelectedFirstChecked(radios: seq<Radio>)
    ensures Selected(radios).None? <==> forall j :: 0 <= j < |radios| ==> !radios[j].checked
    ensures Selected(radios).Some? ==>
      exists j :: FirstChecked(radios, j) && radios[j].value == Selected(radios).value
  {
    if radios == [] {
    } else if radios[0].checked {
      assert FirstChecked(radios, 0);
    } else {
      var rest := radios[1..];
      SelectedFirstChecked(rest);
      assert forall j :: 1 <= j < |radios| ==> radios[j] == rest[j - 1];
      if Selected(rest).Some? {
        var j :| FirstChecked(rest, j) && rest[j].value == Selected(rest).value;
        assert FirstChecked(radios, j + 1);
      }
    }
  }

  /**
   * How far the loop gets: the first question without any radio, whose
   * missing input makes the name lookup throw, or the number of questions.
   */
  function Reached(qs: seq<QuestionView>): (r: nat)
    ensures r <= |qs|
    ensures forall i :: 0 <= i < r ==> |qs[i].radios| > 0
    ensures r < |qs| ==> |qs[r].radios| == 0
  {
    if qs == [] || |qs[0].radios| == 0 then 0
    else
      var rest := Reached(qs[1..]);
      assert forall i :: 1 <= i < 1 + rest ==> qs[i] == qs[1..][i - 1];
      1 + rest
  }

  /** The `answers` object after the first `n` questions. */
  function AnswersOf(qs: seq<QuestionView>, n: nat): (r: map<string, string>)
    requires n <= Reached(qs)
  {
    if n == 0 then map[]
    else
      var prev := AnswersOf(qs, n - 1);
      match Selected(qs[n - 1].radios)
      case Some(v) => prev[QuestionId(qs[n - 1]) := v]
      case None => prev
  }

  /** Whether every one of the first `n` questions has a checked radio. */
  predicate AllAnswered(qs: seq<QuestionView>, n: nat)
    requires n <= |qs|
  {
    forall i :: 0 <= i < n ==> Selected(qs[i].radios).Some?
  }

  /** The result of the collection loop. */
  datatype Collection =
    | Collected(answers: map<string, string>, allAnswered: bool)
    /** Question `question` had no radio input, and the loop threw there. */
    | NoRadio(question: nat)

  /** The collection loop, stated over the whole list of questions. */
  function Collect(qs: seq<QuestionView>): (r: Collection)
    ensures r.NoRadio? ==> r.question < |qs| && |qs[r.question].radios| == 0
    ensures r.NoRadio? ==> forall i :: 0 <= i < r.question ==> |qs[i].radios| > 0
    ensures r.Collected? ==> forall i :: 0 <= i < |qs| ==> |qs[i].radios| > 0
    ensures r.Collected? ==> (r.allAnswered <==> forall i :: 0 <= i < |qs| ==> Selected(qs[i].radios).Some?)
  {
    if Reached(qs) < |qs| then NoRadio(Reached(qs))
    else Collected(AnswersOf(qs, |qs|), AllAnswered(qs, |qs|))
  }

  /**
   * The `questions.forEach` loop: answered questions add their choice to
   * `answers`, unanswered ones clear `allAnswered` and get the `error`
   * class. A question without radios stops the loop, and the marks already
   * added stay.
   */
  method CollectAnswers(qs: seq<QuestionView>, errorMarks: array<bool>) returns (c: Collection)
    requires errorMarks.Length == |qs|
    modifies errorMarks
    ensures c == Collect(qs)
    ensures forall i :: 0 <= i < |qs| ==>
      errorMarks[i] == (old(errorMarks[i]) || (i < Reached(qs) && Selected(qs[i].radios).None?))
  {
    var answers: map<string, string> := map[];
    var allAnswered := true;
    var r := Reached(qs);
    for i := 0 to |qs|
      invariant i <= r
      invariant answers == AnswersOf(qs, i) && allAnswered == AllAnswered(qs, i)
      invariant errorMarks[..] == Marked(old(errorMarks[..]), qs, i)
    {
      if |qs[i].radios| == 0 {
        assert Collect(qs) == NoRadio(i);
        return NoRadio(i);
      }
      ReachedPast(qs, i);
      MarkedStep(old(errorMarks[..]), qs, i);
      answers, allAnswered := CollectOne(qs, i, answers, allAnswered, errorMarks);
    }
    return Collected(answers, allAnswered);
  }

  /** The `error` marks after the first `n` questions, starting from `before`. */
  function Marked(before: seq<bool>, qs: seq<QuestionView>, n: nat): (r: seq<bool>)
    requires |before| == |qs|
    ensures |r| == |qs|
    ensures forall j :: 0 <= j < |qs| ==> r[j] == (before[j] || (j < n && Selected(qs[j].radios).None?))
  {
    seq(|qs|, j requires 0 <= j < |qs| => before[j] || (j < n && Selected(qs[j].radios).None?))
  }

  /** Question `i` adds at most its own mark. */
  lemma MarkedStep(before: seq<bool>, qs: seq<QuestionView>, i: nat)
    requires |before| == |qs| && i < |qs|
    ensures Marked(before, qs, i + 1) == Marked(before, qs, i)[i := before[i] || Selected(qs[i].radios).None?]
  {
  }

  /** The body of the loop for question `i`, which has radios. */
  method CollectOne(qs: seq<QuestionView>, i: nat, answers: map<string, string>, allAnswered: bool,
                    errorMarks: array<bool>)
    returns (answers': map<string, string>, allAnswered': bool)
    requires i < Reached(qs) && errorMarks.Length == |qs|
    requires answers == AnswersOf(qs, i) && allAnswered == AllAnswered(qs, i)
    modifies errorMarks
    ensures answers' == AnswersOf(qs, i + 1) && allAnswered' == AllAnswered(qs, i + 1)
    ensures errorMarks[..] == old(errorMarks[..])[i := old(errorMarks[i]) || Selected(qs[i].radios).None?]
  {
    var id := QuestionId(qs[i]);
    var selected := Selected(qs[i].radios);
    CollectStep(qs, i);
    answers', allAnswered' := answers, allAnswered;
    if selected.Some? {
      answers' := answers[id := selected.value];
    } else {
      allAnswered' := false;
      errorMarks[i] := true;
    }
  }

  /** A question with radios that the loop has come to is not where it stops. */
  lemma ReachedPast(qs: seq<QuestionView>, i: nat)
    requires i <= Reached(qs) && i < |qs| && |qs[i].radios| > 0
    ensures i < Reached(qs)
  {
  }

  /** One more question: its answer is added, or it clears the all-answered flag. */
  lemma CollectStep(qs: seq<QuestionView>, i: nat)
    requires i < Reached(qs)
    ensures Selected(qs[i].radios).Some? ==>
      AnswersOf(qs, i + 1) == AnswersOf(qs, i)[QuestionId(qs[i]) := Selected(qs[i].radios).value]
    ensures Selected(qs[i].radios).None? ==> AnswersOf(qs, i + 1) == AnswersOf(qs, i)
    ensures AllAnswered(qs, i + 1) == (AllAnswered(qs, i) && Selected(qs[i].radios).Some?)
  {
  }

  /** What the user sees after pressing the submit button. */
  datatype KbaOutcome =
    /** "Please answer all questions before submitting." */
    | AlertUnanswered
    /** The success message and the "Retrieve Credit Report" button. */
    | Verified
    /** "Verification data not found. Please try again." */
    | VerificationDataMissing
    /** "An error occurred while submitting your answers. Please try again." */
    | SubmitError

  /** The decision after collection; `haveAnswerKey` is whether the connection returned an answer key. */
  function Outcome(c: Collection, haveAnswerKey: bool): (r: KbaOutcome)
    ensures r == Verified <==> c.Collected? && c.allAnswered && haveAnswerKey
    ensures r == AlertUnanswered <==> c.Collected? && !c.allAnswered
    ensures r == SubmitError <==> c.NoRadio?
  {
    match c
    case NoRadio(_) => SubmitError
    case Collected(_, allAnswered) =>
      if !allAnswered then AlertUnanswered
      else if haveAnswerKey then Verified
      else VerificationDataMissing
  }

  /** `submitKBAAnswers`. */
  method SubmitKbaAnswers(qs: seq<QuestionView>, errorMarks: array<bool>, haveAnswerKey: bool)
    returns (outcome: KbaOutcome)
    requires errorMarks.Length == |qs|
    modifies errorMarks
    ensures outcome == Outcome(Collect(qs), haveAnswerKey)
    ensures forall i :: 0 <= i < |qs| ==>
      errorMarks[i] == (old(errorMarks[i]) || (i < Reached(qs) && Selected(qs[i].radios).None?))
  {
    var c := CollectAnswers(qs, errorMarks);
    outcome := Outcome(c, haveAnswerKey);
  }

  /** The radio name written when the questions are displayed reads back as the question id. */
  lemma QuestionIdOfRadioName(id: string, value: string, checked: bool, more: seq<Radio>)
    ensures QuestionId(QuestionView([Radio(RadioName(id), value, checked)] + more)) == id
  {
    ReplaceFirstPrefix(NamePrefix, id);
  }

  /** The answered questions are exactly the keys of `answers`. */
  lemma {:induction false} AnswersKeys(qs: seq<QuestionView>, n: nat, key: string)
    requires n <= Reached(qs)
    ensures key in AnswersOf(qs, n) <==> exists i :: 0 <= i < n && AnsweredAs(qs, i, key)
  {
    if n > 0 {
      AnswersKeys(qs, n - 1, key);
      if AnsweredAs(qs, n - 1, key) {
        AnswersOfLast(qs, n);
      } else {
        AnswersOfOther(qs, n, key);
        if exists i :: 0 <= i < n && AnsweredAs(qs, i, key) {
          var i :| 0 <= i < n && AnsweredAs(qs, i, key);
          assert i < n - 1;
        }
      }
    }
  }

  /** Question `i` has a checked radio and its id is `key`. */
  predicate AnsweredAs(qs: seq<QuestionView>, i: nat, key: string)
    requires i < Reached(qs)
  {
    Selected(qs[i].radios).Some? && QuestionId(qs[i]) == key
  }

  /**
   * When question ids are distinct, each answered question's entry is the
   * option that was checked.
   */
  lemma {:induction false} AnswersValues(qs: seq<QuestionView>, n: nat, i: nat)
    requires n <= Reached(qs) && i < n
    requires forall j, k :: 0 <= j < k < n ==> QuestionId(qs[j]) != QuestionId(qs[k])
    requires Selected(qs[i].radios).Some?
    ensures QuestionId(qs[i]) in AnswersOf(qs, n)
    ensures AnswersOf(qs, n)[QuestionId(qs[i])] == Selected(qs[i].radios).value
  {
    if i < n - 1 {
      AnswersValues(qs, n - 1, i);
      assert QuestionId(qs[i]) != QuestionId(qs[n - 1]);
      AnswersOfOther(qs, n, QuestionId(qs[i]));
    } else {
      AnswersOfLast(qs, n);
    }
  }

  /** The last question's answer, when it has one, is its entry. */
  lemma AnswersOfLast(qs: seq<QuestionView>, n: nat)
    requires 0 < n <= Reached(qs)
    requires Selected(qs[n - 1].radios).Some?
    ensures QuestionId(qs[n - 1]) in AnswersOf(qs, n)
    ensures AnswersOf(qs, n)[QuestionId(qs[n - 1])] == Selected(qs[n - 1].radios).value
  {
  }

  /** The last question leaves every other key's entry as it was, and every key when it is unanswered. */
  lemma AnswersOfOther(qs: seq<QuestionView>, n: nat, key: string)
    requires 0 < n <= Reached(qs)
    requires key != QuestionId(qs[n - 1]) || Selected(qs[n - 1].radios).None?
    ensures (key in AnswersOf(qs, n)) == (key in AnswersOf(qs, n - 1))
    ensures key in AnswersOf(qs, n) ==> AnswersOf(qs, n)[key] == AnswersOf(qs, n - 1)[key]
  {
  }

  /** The outcome never depends on which options were chosen, only on whether every question has one. */
  lemma OutcomeIgnoresChoices(qs: seq<QuestionView>, qs': seq<QuestionView>, haveAnswerKey: bool)
    requires |qs| == |qs'|
    requires forall i :: 0 <= i < |qs| ==> (|qs[i].radios| == 0 <==> |qs'[i].radios| == 0)
    requires forall i :: 0 <= i < |qs| ==>
      (Selected(qs[i].radios).Some? <==> Selected(qs'[i].radios).Some?)
    ensures Outcome(Collect(qs), haveAnswerKey) == Outcome(Collect(qs'), haveAnswerKey)
  {
    ReachedAgree(qs, qs');
  }

  lemma {:induction false} ReachedAgree(qs: seq<QuestionView>, qs': seq<QuestionView>)
    requires |qs| == |qs'|
    requires forall i :: 0 <= i < |qs| ==> (|qs[i].radios| == 0 <==> |qs'[i].radios| == 0)
    ensures Reached(qs) == Reached(qs')
  {
    if qs != [] && |qs[0].radios| > 0 {
      ReachedAgree(qs[1..], qs'[1..]);
    }
  }
}
