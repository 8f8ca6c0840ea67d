/** One question as a respondent answers it (src/components/SurveyQuestion.tsx):
    a text answer set by `handleChange`, and the checkbox toggle of
    `handleMultipleChoice`. */
module SurveyQuestion {

  import opened Seqs

  /** `selectedAnswer: string | string[]`; it starts as the empty string. */
  datatype Answer = Text(text: string) | Choices(choices: seq<string>)

  const INITIAL_ANSWER := Text("")

  /** What a handler stores with `setSelectedAnswer` and what it passes to
      `onAnswer`. */
  datatype Step = Step(stored: Answer, emitted: Answer)

  /** `selectedAnswer.filter(a => a !== value)` */
  function Without(xs: seq<string>, v: string): (r: seq<string>)
    ensures |r| <= |xs|
    ensures v !in r
    decreases |xs|
  {
    if |xs| == 0 then []
    else
      var init := Without(xs[..|xs| - 1], v);
      if xs[|xs| - 1] != v then init + [xs[|xs| - 1]] else init
  }

  /** The filter keeps the order of the other choices, keeps each of them as
      often as it occurred, and drops every occurrence of `v`. */
  lemma {:induction false} WithoutIsFilter(xs: seq<string>, v: string)
    ensures IsSubsequence(Without(xs, v), xs)
    ensures multiset(Without(xs, v)) == multiset(xs)[v := 0]
    ensures forall x :: x in Without(xs, v) <==> x in xs && x != v
    decreases |xs|
  {
    if |xs| > 0 {
      var init := xs[..|xs| - 1];
      var last := xs[|xs| - 1];
      WithoutIsFilter(init, v);
      var r := Without(xs, v);
      assert xs == init + [last];
      if last != v {
        assert r == Without(init, v) + [last];
        assert r[..|r| - 1] == Without(init, v);
      } else {
        assert r == Without(init, v);
      }
    }
  }

  /** Removing a choice that is not there changes nothing. */
  lemma {:induction false} WithoutAbsent(xs: seq<string>, v: string)
    requires v !in xs
    ensures Without(xs, v) == xs
    decreases |xs|
  {
    if |xs| > 0 {
      assert xs[|xs| - 1] != v;
      WithoutAbsent(xs[..|xs| - 1], v);
    }
  }

  /** The new answer of `handleMultipleChoice(value)`. */
  function Toggle(selected: Answer, v: string): (r: seq<string>)
    ensures v in r <==> !(selected.Choices? && v in selected.choices)
  {
    match selected
    case Text(_) => [v]
    case Choices(xs) => if v in xs then Without(xs, v) else xs + [v]
  }

  /** `handleMultipleChoice`: the toggled list is both stored and reported. */
  function HandleMultipleChoice(selected: Answer, v: string): (step: Step)
    ensures step.stored == step.emitted && step.stored.Choices?
    ensures step.stored.choices == Toggle(selected, v)
  {
    var newAnswer := Choices(Toggle(selected, v));
    Step(newAnswer, newAnswer)
  }

  /** `handleChange`: the input's value is both stored and reported. */
  function HandleChange(selected: Answer, value: string): (step: Step)
    ensures step.stored == step.emitted && step.stored == Text(value)
  {
    Step(Text(value), Text(value))
  }

  /** Toggling flips the membership of `v` and of nothing else; a text answer
      is replaced by the one choice `v`. */
  lemma ToggleMembership(selected: Answer, v: string)
    ensures selected.Text? ==> Toggle(selected, v) == [v]
    ensures selected.Choices? ==> (v in Toggle(selected, v) <==> v !in selected.choices)
    ensures selected.Choices? ==>
              forall x :: x != v ==> (x in Toggle(selected, v) <==> x in selected.choices)
  {
    if selected.Choices? {
      WithoutIsFilter(selected.choices, v);
    }
  }

  /** Toggling a present choice drops all its occurrences and keeps the other
      choices in order; toggling an absent one appends it and keeps the rest. */
  lemma ToggleShape(xs: seq<string>, v: string)
    ensures v in xs ==> IsSubsequence(Toggle(Choices(xs), v), xs)
                        && multiset(Toggle(Choices(xs), v)) == multiset(xs)[v := 0]
    ensures v !in xs ==> Toggle(Choices(xs), v)[..|xs|] == xs
                         && |Toggle(Choices(xs), v)| == |xs| + 1
                         && Toggle(Choices(xs), v)[|xs|] == v
  {
    if v in xs {
      WithoutIsFilter(xs, v);
    } else {
      assert (xs + [v])[..|xs|] == xs;
    }
  }

  /** Checking and unchecking a box that was unchecked restores the answer. */
  lemma ToggleTwiceRestores(xs: seq<string>, v: string)
    requires v !in xs
    ensures Toggle(Choices(Toggle(Choices(xs), v)), v) == xs
  {
    WithoutAbsent(xs, v);
    assert (xs + [v])[..|xs|] == xs;
  }

  /** Unchecking and checking a box that was checked moves it to the end and
      drops its duplicates. */
  lemma ToggleTwiceMovesToEnd(xs: seq<string>, v: string)
    requires v in xs
    ensures Toggle(Choices(Toggle(Choices(xs), v)), v) == Without(xs, v) + [v]
  {
  }

  /** An answer the toggle builds never lists a choice twice, as long as the
      answer it started from did not. */
  lemma ToggleKeepsDistinct(selected: Answer, v: string)
    requires selected.Choices? ==> forall x :: multiset(selected.choices)[x] <= 1
    ensures forall x :: multiset(Toggle(selected, v))[x] <= 1
  {
    if selected.Choices? {
      var xs := selected.choices;
      if v in xs {
        WithoutIsFilter(xs, v);
      } else {
        assert multiset(xs + [v]) == multiset(xs) + multiset{v};
      }
    }
  }
}
