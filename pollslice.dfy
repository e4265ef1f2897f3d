/** The `poll` slice of the Redux store (src/store/slices/pollSlice.js): the
    current poll, the history of ended polls (most recent first), the
    participant list, and a loading flag and error. */
module PollSlice {
  import opened Domain

  datatype PollState = PollState(
    currentPoll: Option<Poll>,
    pollHistory: seq<Poll>,
    participants: seq<Participant>,
    isLoading: bool,
    error: Option<string>)

  const InitialPollState: PollState := PollState(None, [], [], false, None)

  /** The slice's actions with their payloads. */
  datatype PollAction =
    | SetCurrentPoll(poll: Option<Poll>)
    | UpdatePollResults(responses: map<nat, nat>, totalResponses: nat)
    | EndPoll
    | SetPollHistory(history: seq<Poll>)
    | SetParticipants(list: seq<Participant>)
    | AddParticipant(participant: Participant)
    | UpdateParticipant(replacement: Participant)
    | SetLoading(loading: bool)
    | SetError(message: Option<string>)
    | ClearError

  /** `updateParticipant`: the first entry whose id matches is replaced; the
      rest of the list, and its length, are kept. */
  function ReplaceFirstById(ps: seq<Participant>, p: Participant): (r: seq<Participant>)
    ensures |r| == |ps|
    ensures !HasParticipantId(ps, p.id) ==> r == ps
    ensures HasParticipantId(ps, p.id) ==>
              var k := IndexOfParticipant(ps, p.id);
              r[k] == p && forall j :: 0 <= j < |ps| && j != k ==> r[j] == ps[j]
  {
    var k := IndexOfParticipant(ps, p.id);
    if k != -1 then ps[k := p] else ps
  }

  /** The slice reducer; what each action touches is stated field by field. */
  function PollReduce(s: PollState, a: PollAction): (r: PollState)
    ensures r.pollHistory != s.pollHistory ==> a.EndPoll? || a.SetPollHistory?
    ensures r.participants != s.participants ==> a.SetParticipants? || a.AddParticipant? || a.UpdateParticipant?
    ensures r.isLoading != s.isLoading ==> a.SetLoading?
    ensures r.error != s.error ==> a.SetError? || a.ClearError?
    ensures r.currentPoll != s.currentPoll ==> a.SetCurrentPoll? || a.UpdatePollResults? || a.EndPoll?
    ensures a.SetCurrentPoll? ==> r.currentPoll == a.poll
    ensures a.SetPollHistory? ==> r.pollHistory == a.history
    ensures a.SetParticipants? ==> r.participants == a.list
    ensures a.SetLoading? ==> r.isLoading == a.loading
    ensures a.SetError? ==> r.error == a.message
    ensures a.ClearError? ==> r.error.None?
    ensures a.EndPoll? && s.currentPoll.Some? ==>
              |r.pollHistory| == |s.pollHistory| + 1 && r.pollHistory[1..] == s.pollHistory
    ensures a.EndPoll? && s.currentPoll.Some? ==> r.currentPoll == Some(s.currentPoll.value.(isActive := false))
    ensures a.AddParticipant? ==> |r.participants| == |s.participants| + 1 && r.participants[..|s.participants|] == s.participants
    ensures a.AddParticipant? ==> r.participants == s.participants + [a.participant]
    ensures a.UpdateParticipant? ==> r.participants == ReplaceFirstById(s.participants, a.replacement)
  {
    match a
    case SetCurrentPoll(p) => s.(currentPoll := p)
    case UpdatePollResults(responses, total) =>
      if s.currentPoll.Some? then
        s.(currentPoll := Some(s.currentPoll.value.(responses := responses, totalResponses := total)))
      else s
    case EndPoll =>
      if s.currentPoll.Some? then
        var ended := s.currentPoll.value.(isActive := false);
        s.(currentPoll := Some(ended), pollHistory := [ended] + s.pollHistory)
      else s
    case SetPollHistory(h) => s.(pollHistory := h)
    case SetParticipants(ps) => s.(participants := ps)
    case AddParticipant(p) => s.(participants := s.participants + [p])
    case UpdateParticipant(p) => s.(participants := ReplaceFirstById(s.participants, p))
    case SetLoading(b) => s.(isLoading := b)
    case SetError(e) => s.(error := e)
    case ClearError => s.(error := None)
  }

  /** `updatePollResults` is a no-op without a current poll and otherwise
      changes only the tally of the current poll. */
  lemma UpdatePollResultsOnlyTally(s: PollState, responses: map<nat, nat>, total: nat)
    ensures var r := PollReduce(s, UpdatePollResults(responses, total));
            (s.currentPoll.None? ==> r == s)
            && (s.currentPoll.Some? ==>
                  r.currentPoll.Some? && r.currentPoll.value.responses == responses
                  && r.currentPoll.value.totalResponses == total
                  && r.currentPoll.value.(responses := s.currentPoll.value.responses,
                                          totalResponses := s.currentPoll.value.totalResponses) == s.currentPoll.value)
  {
  }

  /** `endPoll` with a current poll closes it and puts it at the head of the
      history; without one it changes nothing. */
  lemma EndPollMovesToHistory(s: PollState)
    ensures s.currentPoll.None? ==> PollReduce(s, EndPoll) == s
    ensures s.currentPoll.Some? ==>
              var r := PollReduce(s, EndPoll);
              r.pollHistory == [s.currentPoll.value.(isActive := false)] + s.pollHistory
              && !r.pollHistory[0].isActive && r.pollHistory[0].id == s.currentPoll.value.id
    ensures s.currentPoll.Some? ==>
              var ended := s.currentPoll.value.(isActive := false);
              PollReduce(s, EndPoll) == s.(currentPoll := Some(ended), pollHistory := [ended] + s.pollHistory)
              && !PollReduce(s, EndPoll).currentPoll.value.isActive
  {
  }

  /** `addParticipant` does not look for an existing entry: adding a
      participant whose id is already listed leaves the ids no longer
      distinct. */
  lemma {:induction false} AddParticipantCanDuplicate(s: PollState, p: Participant)
    requires HasParticipantId(s.participants, p.id)
    ensures !DistinctParticipantIds(PollReduce(s, AddParticipant(p)).participants)
  {
    var r := PollReduce(s, AddParticipant(p)).participants;
    var i :| 0 <= i < |s.participants| && s.participants[i].id == p.id;
    assert r[i].id == r[|s.participants|].id;
  }

  /** `updateParticipant` keeps ids distinct, since it keeps every id. */
  lemma {:induction false} UpdateParticipantKeepsDistinct(ps: seq<Participant>, p: Participant)
    requires DistinctParticipantIds(ps)
    ensures DistinctParticipantIds(ReplaceFirstById(ps, p))
  {
    var r := ReplaceFirstById(ps, p);
    if HasParticipantId(ps, p.id) {
      var k := IndexOfParticipant(ps, p.id);
      assert forall j :: 0 <= j < |ps| ==> r[j].id == ps[j].id;
    }
  }

  /** The slice as the store holds it, updated in place by each reducer. */
  class PollStore {
    var currentPoll: Option<Poll>
    var pollHistory: seq<Poll>
    var participants: seq<Participant>
    var isLoading: bool
    var error: Option<string>

    function State(): PollState
      reads this
    {
      PollState(currentPoll, pollHistory, participants, isLoading, error)
    }

    constructor ()
      ensures State() == InitialPollState
    {
      currentPoll, pollHistory, participants, isLoading, error := None, [], [], false, None;
    }

    method SetCurrentPoll(p: Option<Poll>)
      modifies this
      ensures State() == PollReduce(old(State()), PollAction.SetCurrentPoll(p))
    {
      currentPoll := p;
    }

    method UpdatePollResults(responses: map<nat, nat>, totalResponses: nat)
      modifies this
      ensures State() == PollReduce(old(State()), PollAction.UpdatePollResults(responses, totalResponses))
    {
      if currentPoll.Some? {
        currentPoll := Some(currentPoll.value.(responses := responses));
        currentPoll := Some(currentPoll.value.(totalResponses := totalResponses));
      }
    }

    /** `state.currentPoll.isActive = false` then
        `state.pollHistory.unshift(state.currentPoll)`. */
    method EndPoll()
      modifies this
      ensures State() == PollReduce(old(State()), PollAction.EndPoll)
    {
      if currentPoll.Some? {
        currentPoll := Some(currentPoll.value.(isActive := false));
        pollHistory := [currentPoll.value] + pollHistory;
      }
    }

    method SetPollHistory(h: seq<Poll>)
      modifies this
      ensures State() == PollReduce(old(State()), PollAction.SetPollHistory(h))
    {
      pollHistory := h;
    }

    method SetParticipants(ps: seq<Participant>)
      modifies this
      ensures State() == PollReduce(old(State()), PollAction.SetParticipants(ps))
    {
      participants := ps;
    }

    /** `state.participants.push(action.payload)`. */
    method AddParticipant(p: Participant)
      modifies this
      ensures State() == PollReduce(old(State()), PollAction.AddParticipant(p))
    {
      participants := participants + [p];
    }

    /** `findIndex` by id, then an indexed write when found. */
    method UpdateParticipant(p: Participant)
      modifies this
      ensures State() == PollReduce(old(State()), PollAction.UpdateParticipant(p))
    {
      var index := IndexOfParticipant(participants, p.id);
      if index != -1 {
        participants := participants[index := p];
      }
    }

    method SetLoading(b: bool)
      modifies this
      ensures State() == PollReduce(old(State()), PollAction.SetLoading(b))
    {
      isLoading := b;
    }

    method SetError(e: Option<string>)
      modifies this
      ensures State() == PollReduce(old(State()), PollAction.SetError(e))
    {
      error := e;
    }

    method ClearError()
      modifies this
      ensures State() == PollReduce(old(State()), PollAction.ClearError)
    {
      error := None;
    }
  }
}
