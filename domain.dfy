/** Entities shared by both clients of the live classroom poll: the poll,
    participant and chat records the server sends, the events it pushes to a
    client, and the requests a client emits. */
module Domain {

  datatype Option<T> = None | Some(value: T)

  /** The two roles a user can pick on the welcome screen. */
  datatype Role = Teacher | Student

  /** A poll (a "question") as the server sends it. `responses` maps an option
      index to its vote count; `createdAt` is the creation instant in
      milliseconds. */
  datatype Poll = Poll(
    id: string,
    question: string,
    options: seq<string>,
    correctAnswers: seq<bool>,
    timer: int,
    isActive: bool,
    responses: map<nat, nat>,
    totalResponses: nat,
    createdAt: int)

  datatype Participant = Participant(id: string, name: string, isActive: bool)

  datatype ChatMessage = ChatMessage(id: string, userId: string, userName: string, message: string, timestamp: string)

  /** The socket events a client listens to, with their payloads. */
  datatype ServerEvent =
    | TeacherJoined(snapshotPoll: Option<Poll>, snapshotParticipants: seq<Participant>,
                    snapshotMessages: seq<ChatMessage>, snapshotHistory: seq<Poll>)
    | StudentJoined(studentPoll: Option<Poll>, studentMessages: seq<ChatMessage>, alreadyAnswered: bool)
    | ParticipantJoined(joined: Participant)
    | ParticipantUpdated(updated: Participant)
    | PollCreated(created: Poll)
    | PollUpdated(tallied: Poll)
    | PollEnded(ended: Poll)
    | AnswerSubmitted(answeredPoll: Option<Poll>)
    | NewMessage(message: ChatMessage)
    | KickedOut

  /** The poll a teacher asks the server to create. */
  datatype PollDraft = PollDraft(id: string, question: string, options: seq<string>, correctAnswers: seq<bool>, timer: int)

  /** The requests a client emits on the socket. */
  datatype ClientRequest =
    | JoinAsStudent(name: string)
    | JoinAsTeacher
    | CreatePoll(draft: PollDraft)
    | SubmitAnswer(optionIndex: nat)
    | KickStudent(participantId: string)
    | SendMessage(text: string)

  predicate HasParticipantId(ps: seq<Participant>, id: string) {
    exists i :: 0 <= i < |ps| && ps[i].id == id
  }

  predicate HasPollId(polls: seq<Poll>, id: string) {
    exists i :: 0 <= i < |polls| && polls[i].id == id
  }

  /** No two entries of the list share an id. */
  predicate DistinctParticipantIds(ps: seq<Participant>) {
    forall i, j :: 0 <= i < j < |ps| ==> ps[i].id != ps[j].id
  }

  predicate DistinctPollIds(polls: seq<Poll>) {
    forall i, j :: 0 <= i < j < |polls| ==> polls[i].id != polls[j].id
  }

  /** `Array.prototype.findIndex` with the predicate `p.id === id`: the index
      of the first entry with that id, or -1 when there is none. */
  function IndexOfParticipant(ps: seq<Participant>, id: string): (r: int)
    ensures -1 <= r < |ps|
    ensures r == -1 <==> !HasParticipantId(ps, id)
    ensures r >= 0 ==> ps[r].id == id && forall j :: 0 <= j < r ==> ps[j].id != id
  {
    if |ps| == 0 then -1
    else if ps[0].id == id then 0
    else
      var k := IndexOfParticipant(ps[1..], id);
      assert forall j :: 1 <= j < |ps| ==> ps[j] == ps[1..][j - 1];
      if k == -1 then -1 else k + 1
  }
}
