/** The teacher's poll editor. Both clients keep the same four pieces of form
    state: the question text, the option texts, one "is it correct?" flag per
    option (a parallel array), and the timer chosen from a fixed list.
    app/page.tsx edits them with copy-and-map updaters (pure functions
    below); src/components/CreatePollForm.js copies an array and assigns one
    index (the class at the end). */
module PollForm {
  import opened Domain
  import opened Text

  datatype Form = Form(question: string, options: seq<string>, correctAnswers: seq<bool>, timer: int)

  /** The timer values the select box offers, in seconds. */
  const TimerChoices: set<int> := {30, 60, 90, 120}

  /** What both editors start from, and what app/page.tsx resets to after
      asking a question. */
  const InitialForm: Form := Form("", ["", ""], [false, false], 60)

  /** The invariant of the editor: one correctness flag per option, and a
      timer the select box offers. */
  predicate WellFormed(f: Form) {
    |f.options| == |f.correctAnswers| && f.timer in TimerChoices
  }

  lemma InitialFormWellFormed()
    ensures WellFormed(InitialForm) && |InitialForm.options| == 2
  {
  }

  /** "Add More option": one more empty option with the flag `false`. */
  function AddedOption(f: Form): (r: Form)
    ensures r.options == f.options + [""] && r.correctAnswers == f.correctAnswers + [false]
    ensures r.question == f.question && r.timer == f.timer
    ensures WellFormed(f) ==> WellFormed(r)
  {
    f.(options := f.options + [""], correctAnswers := f.correctAnswers + [false])
  }

  /** `options.map((opt, i) => i === index ? value : opt)`: only the entry at
      `index` changes; an index outside the list changes nothing. */
  function UpdatedOption(f: Form, index: int, value: string): (r: Form)
    ensures |r.options| == |f.options|
    ensures forall i :: 0 <= i < |f.options| && i != index ==> r.options[i] == f.options[i]
    ensures 0 <= index < |f.options| ==> r.options[index] == value
    ensures !(0 <= index < |f.options|) ==> r == f
    ensures r.question == f.question && r.correctAnswers == f.correctAnswers && r.timer == f.timer
    ensures WellFormed(f) ==> WellFormed(r)
  {
    f.(options := seq(|f.options|, i requires 0 <= i < |f.options| => if i == index then value else f.options[i]))
  }

  /** `correctAnswers.map((correct, i) => i === index ? isCorrect : correct)`. */
  function UpdatedCorrectAnswer(f: Form, index: int, isCorrect: bool): (r: Form)
    ensures |r.correctAnswers| == |f.correctAnswers|
    ensures forall i :: 0 <= i < |f.correctAnswers| && i != index ==> r.correctAnswers[i] == f.correctAnswers[i]
    ensures 0 <= index < |f.correctAnswers| ==> r.correctAnswers[index] == isCorrect
    ensures !(0 <= index < |f.correctAnswers|) ==> r == f
    ensures r.question == f.question && r.options == f.options && r.timer == f.timer
    ensures WellFormed(f) ==> WellFormed(r)
  {
    f.(correctAnswers := seq(|f.correctAnswers|, i requires 0 <= i < |f.correctAnswers| =>
                             if i == index then isCorrect else f.correctAnswers[i]))
  }

  /** The guard of "Ask Question" (and of its `disabled` flag): neither the
      question nor any option is blank. */
  predicate CanSubmit(f: Form)
    ensures CanSubmit(f) ==> !IsBlank(f.question) && forall i :: 0 <= i < |f.options| ==> Trim(f.options[i]) != []
    ensures IsBlank(f.question) ==> !CanSubmit(f)
    ensures (exists i :: 0 <= i < |f.options| && IsBlank(f.options[i])) ==> !CanSubmit(f)
  {
    !IsBlank(f.question) && forall i :: 0 <= i < |f.options| ==> !IsBlank(f.options[i])
  }

  /** The guard as the source writes it, `question.trim() &&
      options.every((opt) => opt.trim())`, is CanSubmit. */
  lemma CanSubmitIsTrimGuard(f: Form)
    ensures CanSubmit(f) <==> Trim(f.question) != [] && forall i :: 0 <= i < |f.options| ==> Trim(f.options[i]) != []
  {
    assert (forall i :: 0 <= i < |f.options| ==> Trim(f.options[i]) != [])
       <==> (forall i :: 0 <= i < |f.options| ==> !IsBlank(f.options[i]));
  }

  /** `options.filter((opt) => opt.trim())`: the options that are not
      blank, in their order. */
  function NonBlankOptions(options: seq<string>): (r: seq<string>)
    ensures |r| <= |options|
    ensures forall i :: 0 <= i < |r| ==> !IsBlank(r[i])
    ensures multiset(r) <= multiset(options)
  {
    if options == [] then []
    else
      var rest := NonBlankOptions(options[1..]);
      assert options == [options[0]] + options[1..];
      if !IsBlank(options[0]) then [options[0]] + rest else rest
  }

  /** When no option is blank the filter keeps every option, in order. */
  lemma {:induction false} FilterKeepsAll(options: seq<string>)
    requires forall i :: 0 <= i < |options| ==> !IsBlank(options[i])
    ensures NonBlankOptions(options) == options
    decreases |options|
  {
    if options != [] {
      var tail := options[1..];
      assert forall i :: 0 <= i < |tail| ==> tail[i] == options[i + 1];
      FilterKeepsAll(tail);
      assert [options[0]] + tail == options;
    }
  }

  /** The filter keeps exactly the options that are not blank. */
  lemma {:induction false} FilterMembership(options: seq<string>, o: string)
    ensures o in NonBlankOptions(options) <==> o in options && !IsBlank(o)
    decreases |options|
  {
    if options != [] {
      FilterMembership(options[1..], o);
      assert options == [options[0]] + options[1..];
    }
  }

  /** The `create-poll` payload both editors build from the form, or None when
      the guard fails. `id` stands for `Date.now().toString()`. */
  function Submit(f: Form, id: string): (r: Option<PollDraft>)
    ensures r.Some? <==> CanSubmit(f)
    ensures r.Some? ==> r.value.id == id && r.value.question == Trim(f.question) && r.value.options == f.options
                        && r.value.correctAnswers == f.correctAnswers && r.value.timer == f.timer
    ensures r.Some? && WellFormed(f) ==> |r.value.options| == |r.value.correctAnswers| && r.value.timer in TimerChoices
    ensures r.Some? ==> !IsBlank(r.value.question) && forall i :: 0 <= i < |r.value.options| ==> !IsBlank(r.value.options[i])
  {
    if CanSubmit(f) then
      FilterKeepsAll(f.options);
      Some(PollDraft(id, Trim(f.question), NonBlankOptions(f.options), f.correctAnswers, f.timer))
    else
      None
  }

  /** The editor of src/components/CreatePollForm.js, whose four `useState`
      fields are updated by its handlers. */
  class CreatePollForm {
    var question: string
    var options: seq<string>
    var correctAnswers: seq<bool>
    var timer: int

    function AsForm(): Form
      reads this
    {
      Form(question, options, correctAnswers, timer)
    }

    ghost predicate Valid()
      reads this
    {
      WellFormed(AsForm())
    }

    /** Question "", options ["", ""], flags [false, false], timer 60. */
    constructor ()
      ensures Valid() && AsForm() == InitialForm
    {
      question, options, correctAnswers, timer := "", ["", ""], [false, false], 60;
    }

    method SetQuestion(text: string)
      requires Valid()
      modifies this
      ensures Valid() && AsForm() == old(AsForm()).(question := text)
    {
      question := text;
    }

    /** `setTimer(Number(e.target.value))`: the select box offers only the
        values of TimerChoices. */
    method SetTimer(seconds: int)
      requires Valid() && seconds in TimerChoices
      modifies this
      ensures Valid() && AsForm() == old(AsForm()).(timer := seconds)
    {
      timer := seconds;
    }

    method AddOption()
      requires Valid()
      modifies this
      ensures Valid() && AsForm() == AddedOption(old(AsForm()))
    {
      options := options + [""];
      correctAnswers := correctAnswers + [false];
    }

    /** Copy the options, assign the one at `index`, store the copy. The index
        comes from the rendered option rows, so it is in range; the indexed
        write then agrees with the map-based updater of app/page.tsx. */
    method UpdateOption(index: nat, value: string)
      requires Valid() && index < |options|
      modifies this
      ensures Valid() && AsForm() == UpdatedOption(old(AsForm()), index, value)
    {
      var newOptions := options[index := value];
      options := newOptions;
    }

    method UpdateCorrectAnswer(index: nat, isCorrect: bool)
      requires Valid() && index < |correctAnswers|
      modifies this
      ensures Valid() && AsForm() == UpdatedCorrectAnswer(old(AsForm()), index, isCorrect)
    {
      var newCorrectAnswers := correctAnswers[index := isCorrect];
      correctAnswers := newCorrectAnswers;
    }

    /** `handleSubmit`: hands the payload to `onCreatePoll` when the guard
        holds. It changes no field of the form: unlike app/page.tsx, the
        editor is not reset. */
    method HandleSubmit(id: string) returns (emitted: Option<PollDraft>)
      requires Valid()
      ensures emitted == Submit(AsForm(), id)
      ensures emitted.Some? <==> CanSubmit(AsForm())
      ensures emitted.Some? ==> emitted.value == PollDraft(id, Trim(question), options, correctAnswers, timer)
      ensures emitted.Some? ==> |emitted.value.options| == |emitted.value.correctAnswers| && emitted.value.timer in TimerChoices
    {
      emitted := Submit(AsForm(), id);
    }
  }
}
