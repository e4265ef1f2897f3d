/** src/components/StudentDashboard.js: the countdown recomputed from the
    poll's creation time, the choice among the waiting, answering and
    results views, the submit guard, and the per-option result bars. */
module StudentDashboard {
  import opened Domain
  import opened Display

  /** `Math.max(0, Math.floor((endTime - now) / 1000))` where
      `endTime = createdAt + timer * 1000`; instants are milliseconds. It is
      zero exactly when less than one second is left. */
  function RemainingSeconds(createdAt: int, timer: int, now: int): (r: nat)
    ensures r == 0 <==> createdAt + timer * 1000 - now < 1000
    ensures r * 1000 <= createdAt + timer * 1000 - now || r == 0
    ensures r > 0 ==> createdAt + timer * 1000 - now < (r + 1) * 1000
  {
    var q := (createdAt + timer * 1000 - now) / 1000;
    if q > 0 then q else 0
  }

  /** Once the poll has started, at most `timer` seconds are left. */
  lemma RemainingAtMostTimer(createdAt: int, timer: int, now: int)
    requires createdAt <= now && timer >= 0
    ensures RemainingSeconds(createdAt, timer, now) <= timer
  {
  }

  /** At the creation instant the full timer is shown. */
  lemma RemainingAtCreation(createdAt: int, timer: nat)
    ensures RemainingSeconds(createdAt, timer, createdAt) == timer
  {
  }

  /** As time passes the remaining time never goes up. */
  lemma RemainingNonIncreasing(createdAt: int, timer: int, now1: int, now2: int)
    requires now1 <= now2
    ensures RemainingSeconds(createdAt, timer, now2) <= RemainingSeconds(createdAt, timer, now1)
  {
    var e := createdAt + timer * 1000;
    assert (e - now2) / 1000 <= (e - now1) / 1000 by {
      DivMonotone(e - now2, e - now1, 1000);
    }
  }

  /** Floor division by a positive constant is monotone. */
  lemma DivMonotone(a: int, b: int, d: int)
    requires a <= b && d > 0
    ensures a / d <= b / d
  {
    if a / d > b / d {
      assert a == (a / d) * d + a % d;
      assert b == (b / d) * d + b % d;
      MulLeInt(b / d + 1, a / d, d);
    }
  }

  lemma MulLeInt(x: int, y: int, d: int)
    requires x <= y && d > 0
    ensures x * d <= y * d
  {
    assert y * d - x * d == (y - x) * d;
  }

  /** The countdown effect: on mount `timeLeft` is set from the mount instant,
      then the one-second interval recomputes it at each of `ticks` (the
      instants at which it fires) and clears itself the first time the
      remaining time is 0, so by the first tick at or after the poll's end at
      the latest. Without an active poll nothing runs and
      `timeLeft` keeps its previous value. Returns the final `timeLeft` and
      how many interval callbacks ran. */
  method RunCountdown(currentPoll: Option<Poll>, previous: int, mountedAt: int, ticks: seq<int>)
    returns (timeLeft: int, fired: nat)
    ensures !(currentPoll.Some? && currentPoll.value.isActive) ==> timeLeft == previous && fired == 0
    ensures currentPoll.Some? && currentPoll.value.isActive ==>
              var p := currentPoll.value;
              && fired <= |ticks|
              && (fired == 0 ==> timeLeft == RemainingSeconds(p.createdAt, p.timer, mountedAt) && ticks == [])
              && (fired > 0 ==> timeLeft == RemainingSeconds(p.createdAt, p.timer, ticks[fired - 1]))
              && (forall i :: 0 <= i < fired - 1 ==> RemainingSeconds(p.createdAt, p.timer, ticks[i]) > 0)
              && (fired < |ticks| ==> fired > 0 && RemainingSeconds(p.createdAt, p.timer, ticks[fired - 1]) == 0)
              && (forall k :: 0 <= k < |ticks| && ticks[k] >= p.createdAt + p.timer * 1000 ==> fired <= k + 1)
    ensures timeLeft >= 0 || timeLeft == previous
  {
    timeLeft, fired := previous, 0;
    if currentPoll.Some? && currentPoll.value.isActive {
      var p := currentPoll.value;
      timeLeft := RemainingSeconds(p.createdAt, p.timer, mountedAt);
      var cleared := false;
      while fired < |ticks| && !cleared
        invariant fired <= |ticks|
        invariant fired == 0 ==> timeLeft == RemainingSeconds(p.createdAt, p.timer, mountedAt) && !cleared
        invariant fired > 0 ==> timeLeft == RemainingSeconds(p.createdAt, p.timer, ticks[fired - 1])
        invariant forall i :: 0 <= i < fired - 1 ==> RemainingSeconds(p.createdAt, p.timer, ticks[i]) > 0
        invariant cleared <==> fired > 0 && RemainingSeconds(p.createdAt, p.timer, ticks[fired - 1]) == 0
      {
        var remaining := RemainingSeconds(p.createdAt, p.timer, ticks[fired]);
        timeLeft := remaining;
        fired := fired + 1;
        if remaining <= 0 {
          cleared := true;
        }
      }
    }
  }

  /** The three views the dashboard renders. */
  datatype View = WaitingView | AnswerView | ResultsView

  /** No poll: waiting; an active poll not yet answered: answer; otherwise
      (answered, or the poll has ended): results. */
  function ViewFor(currentPoll: Option<Poll>, hasAnswered: bool): (v: View)
    ensures v == WaitingView <==> currentPoll.None?
    ensures v == AnswerView <==> currentPoll.Some? && currentPoll.value.isActive && !hasAnswered
    ensures v == ResultsView <==> currentPoll.Some? && (!currentPoll.value.isActive || hasAnswered)
  {
    if currentPoll.None? then WaitingView
    else if currentPoll.value.isActive && !hasAnswered then AnswerView
    else ResultsView
  }

  /** `handleSubmitAnswer`: the selected option is handed on, if there is one. */
  function HandleSubmitAnswer(selectedAnswer: Option<nat>): (forwarded: Option<nat>)
    ensures forwarded.Some? <==> selectedAnswer.Some?
    ensures forwarded.Some? ==> forwarded.value == selectedAnswer.value
  {
    selectedAnswer
  }

  /** The submit button is enabled only with a selection and time left
      (`disabled={selectedAnswer === null || timeLeft === 0}`). */
  predicate SubmitEnabled(selectedAnswer: Option<nat>, timeLeft: int) {
    selectedAnswer.Some? && timeLeft != 0
  }

  /** A click on the enabled button forwards the selected answer; the button
      is disabled once the countdown shows 0 or while nothing is selected. */
  lemma SubmitButtonForwardsSelection(selectedAnswer: Option<nat>, timeLeft: int)
    ensures SubmitEnabled(selectedAnswer, timeLeft) ==> HandleSubmitAnswer(selectedAnswer) == Some(selectedAnswer.value)
    ensures timeLeft == 0 ==> !SubmitEnabled(selectedAnswer, timeLeft)
    ensures selectedAnswer.None? ==> !SubmitEnabled(selectedAnswer, timeLeft) && HandleSubmitAnswer(selectedAnswer).None?
    ensures selectedAnswer.Some? && timeLeft != 0 ==> SubmitEnabled(selectedAnswer, timeLeft)
  {
  }

  /** `currentPoll.responses[index] || 0`: an option without an entry has no votes. */
  function VotesFor(responses: map<nat, nat>, index: nat): (v: nat)
    ensures index !in responses ==> v == 0
    ensures index in responses ==> v == responses[index]
  {
    if index in responses then responses[index] else 0
  }

  /** The percentage shown on each option's result bar. */
  function ResultPercentages(p: Poll): (r: seq<int>)
    ensures |r| == |p.options|
    ensures forall i :: 0 <= i < |r| ==> r[i] == Percentage(VotesFor(p.responses, i), p.totalResponses)
    ensures forall i :: 0 <= i < |r| ==> 0 <= r[i]
    ensures forall i :: 0 <= i < |r| && VotesFor(p.responses, i) <= p.totalResponses ==> r[i] <= 100
    ensures p.totalResponses == 0 ==> forall i :: 0 <= i < |r| ==> r[i] == 0
    ensures forall i :: 0 <= i < |r| && i !in p.responses ==> r[i] == 0
  {
    seq(|p.options|, i requires 0 <= i < |p.options| => Percentage(VotesFor(p.responses, i), p.totalResponses))
  }
}
