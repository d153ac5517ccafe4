/** Conversations between HR and the agent: concurrent `send_message` calls, document
    delivery and the proactive goal question, on top of the agent flow. */
module Chat {
  import opened Common
  import opened Tasks
  import opened AgentFlow
  import opened GoalGap
  import BinaryAnswer
  import Text

  // ----- tables -------------------------------------------------------------

  datatype Sender = HrSender | AgentSender

  datatype Message = Message(conversation: nat, sender: Sender, client: Option<nat>)

  datatype Scene = ResumeAnswer | DocumentDelivery | GoalQuery | GoalJudgement

  datatype TurnStatus = TurnProcessing | TurnWaiting | TurnCompleted | TurnFailed

  datatype TurnOutcome =
    MessageSent | DocumentNotFound | AttachmentSent | AttachmentFailed | QuerySent | PendingAnswer | StopOutcome | ContinueOutcome

  datatype Key = Inbound(conversation: nat, client: nat) | Proactive(app: nat, conversation: nat, signature: string)

  datatype Turn = Turn(
    conversation: nat, source: Option<nat>, key: Key, createdAt: int,
    scene: Scene, status: TurnStatus, outcome: Option<TurnOutcome>, result: Option<nat>)

  datatype Attachment = Attachment(message: nat, document: nat)

  // ----- calls in flight ----------------------------------------------------

  /** One `send_message` request; `wantsDocument` is the detected intent. */
  datatype Request = Request(app: nat, conversation: nat, hr: nat, client: nat, content: string, wantsDocument: bool)

  /** Between the read and the insert, after a lost race, between the insert and the
      reply, after a failed delivery, and while polling somebody else's turn. */
  datatype Phase =
    | Reading
    | Inserting
    | Raced
    | Answering(turn: nat, query: Option<nat>, gap: Option<Gap>)
    | Recovering(turn: nat)
    | Watching(turn: nat)

  datatype Caller = Caller(request: Request, phase: Phase)

  datatype Site = Site(
    w: World, messages: map<nat, Message>, turns: map<nat, Turn>, attachments: map<nat, Attachment>,
    callers: map<nat, Caller>)

  // ----- context ------------------------------------------------------------

  /** `get_for_hr`. */
  predicate InContext(w: World, app: nat, conversation: nat, hr: nat) {
    && conversation in w.conversations && w.conversations[conversation] == app && app in w.apps
    && VisibleJob(w.db, hr, w.apps[app].job)
    && w.apps[app].run in w.runs && w.apps[app].candidate == w.runs[w.apps[app].run].candidate
    && w.runs[w.apps[app].run].profile in w.db.profiles
    && w.db.profiles[w.runs[w.apps[app].run].profile].resume == w.runs[w.apps[app].run].resume
  }

  function SnapshotOf(w: World, job: nat): Option<Snapshot> {
    if job in w.db.snapshots then Some(w.db.snapshots[job]) else None
  }

  /** The gap between the goal of the application's run and its job. */
  function GapFor(w: World, app: nat): Option<Gap> {
    if app in w.apps && w.apps[app].run in w.runs && w.runs[w.apps[app].run].goal in w.goals
       && w.goals[w.runs[w.apps[app].run].goal].candidate == w.apps[app].candidate
    then
      var goal := w.goals[w.runs[w.apps[app].run].goal];
      FindGap(goal.status == GoalActive, goal.filters, SnapshotOf(w, w.apps[app].job))
    else None
  }

  function WaitingQueries(turns: map<nat, Turn>, conversation: nat): set<nat> {
    set t | t in turns && turns[t].conversation == conversation && turns[t].scene == GoalQuery && turns[t].status == TurnWaiting
  }

  function TurnRank(turns: map<nat, Turn>): map<nat, Rank> {
    map t | t in turns :: Rank(-turns[t].createdAt, -(t as int), 0)
  }

  function PendingQuery(turns: map<nat, Turn>, conversation: nat): (q: Option<nat>)
    ensures q.Some? ==> q.value in WaitingQueries(turns, conversation)
  {
    assert DistinctRanks(WaitingQueries(turns, conversation), TurnRank(turns));
    Top(WaitingQueries(turns, conversation), TurnRank(turns))
  }

  ghost function InboundMessage(messages: map<nat, Message>, conversation: nat, client: nat): (m: Option<nat>)
    ensures m.Some? ==> m.value in messages && messages[m.value] == Message(conversation, HrSender, Some(client))
    ensures m.None? ==> forall n :: n in messages ==> messages[n] != Message(conversation, HrSender, Some(client))
  {
    if m :| m in messages && messages[m] == Message(conversation, HrSender, Some(client)) then Some(m) else None
  }

  ghost function TurnFor(turns: map<nat, Turn>, m: nat): (t: Option<nat>)
    ensures t.Some? ==> t.value in turns && turns[t.value].source == Some(m)
    ensures t.None? ==> forall u :: u in turns ==> turns[u].source != Some(m)
  {
    if t :| t in turns && turns[t].source == Some(m) then Some(t) else None
  }

  predicate KeyTaken(turns: map<nat, Turn>, key: Key) {
    exists t :: t in turns && turns[t].key == key
  }

  /** The one meaning of a binary answer, if it has one. */
  ghost function Polarity(content: string): Option<bool> {
    var text := Text.RemoveSpaces(content);
    if BinaryAnswer.AnyAffirmed(text) != BinaryAnswer.AnyDenied(text) then Some(BinaryAnswer.AnyAffirmed(text)) else None
  }

  // ----- send_message -------------------------------------------------------

  function SetPhase(s: Site, c: nat, phase: Phase): Site
    requires c in s.callers
  {
    s.(callers := s.callers[c := s.callers[c].(phase := phase)])
  }

  function Return(s: Site, c: nat): Site {
    s.(callers := s.callers - {c})
  }

  function Draw(w: World, n: nat): World {
    w.(db := w.db.(next := w.db.next + n))
  }

  function Open(s: Site, request: Request): Site {
    s.(w := Draw(s.w, 1), callers := s.callers[s.w.db.next := Caller(request, Reading)])
  }

  /** A message that is already there: watch its turn, or return its result. */
  ghost function Replay(s: Site, c: nat, m: nat): Site
    requires c in s.callers
  {
    var t := TurnFor(s.turns, m);
    if t.Some? && s.turns[t.value].status == TurnProcessing then SetPhase(s, c, Watching(t.value)) else Return(s, c)
  }

  ghost function Look(s: Site, c: nat): Site
    requires c in s.callers
  {
    var q := s.callers[c].request;
    if !InContext(s.w, q.app, q.conversation, q.hr) then Return(s, c)
    else
      var m := InboundMessage(s.messages, q.conversation, q.client);
      if m.Some? then Replay(s, c, m.value) else SetPhase(s, c, Inserting)
  }

  ghost function Reread(s: Site, c: nat): Site
    requires c in s.callers
  {
    var q := s.callers[c].request;
    var m := InboundMessage(s.messages, q.conversation, q.client);
    if m.Some? then Replay(s, c, m.value) else Return(s, c)
  }

  function SceneFor(query: Option<nat>, wantsDocument: bool): Scene {
    if query.Some? then GoalJudgement else if wantsDocument then DocumentDelivery else ResumeAnswer
  }

  function InboundTurn(s: Site, c: nat): Turn
    requires c in s.callers
  {
    var q := s.callers[c].request;
    Turn(q.conversation, Some(s.w.db.next), Inbound(q.conversation, q.client), s.w.db.now,
         SceneFor(PendingQuery(s.turns, q.conversation), q.wantsDocument), TurnProcessing, None, None)
  }

  /** Message and turn, in the transaction that also reads the pending question. */
  function Inserted(s: Site, c: nat): Site
    requires c in s.callers
  {
    var q := s.callers[c].request;
    var m := s.w.db.next;
    SetPhase(s.(w := Draw(s.w, 2), messages := s.messages[m := Message(q.conversation, HrSender, Some(q.client))],
                turns := s.turns[m + 1 := InboundTurn(s, c)]),
             c, Answering(m + 1, PendingQuery(s.turns, q.conversation), GapFor(s.w, q.app)))
  }

  /** `add_inbound_turn`; a unique violation sends the call back to read. */
  ghost function Insert(s: Site, c: nat): Site
    requires c in s.callers
  {
    var q := s.callers[c].request;
    if InboundMessage(s.messages, q.conversation, q.client).Some? || KeyTaken(s.turns, Inbound(q.conversation, q.client))
    then SetPhase(s, c, Raced) else Inserted(s, c)
  }

  /** `add_agent_message`. */
  function AddAgentMessage(s: Site, t: nat, status: TurnStatus, outcome: TurnOutcome): Site
    requires t in s.turns
  {
    var m := s.w.db.next;
    s.(w := Draw(s.w, 1), messages := s.messages[m := Message(s.turns[t].conversation, AgentSender, None)],
       turns := s.turns[t := s.turns[t].(status := status, outcome := Some(outcome), result := Some(m))])
  }

  function Attach(s: Site, t: nat, document: nat): Site
    requires t in s.turns
  {
    var m := s.w.db.next;
    var s1 := AddAgentMessage(s, t, TurnCompleted, AttachmentSent);
    s1.(w := Draw(s1.w, 1), attachments := s1.attachments[m + 1 := Attachment(m, document)])
  }

  function SetTurn(s: Site, t: nat, status: TurnStatus, outcome: TurnOutcome): Site
    requires t in s.turns
  {
    s.(turns := s.turns[t := s.turns[t].(status := status, outcome := Some(outcome))])
  }

  /** `_judge_goal_answer`. */
  ghost function Judge(s: Site, t: nat, q: nat, gap: Option<Gap>, content: string): Site
    requires t in s.turns && q in s.turns
  {
    var answer := Polarity(content);
    if s.turns[t].status == TurnCompleted then s
    else if gap.None? || answer.None? then
      SetTurn(SetTurn(s, t, TurnCompleted, PendingAnswer), q, TurnWaiting, PendingAnswer)
    else
      var outcome := if answer.value == gap.value.stopOnYes then StopOutcome else ContinueOutcome;
      SetTurn(AddAgentMessage(s, t, TurnCompleted, outcome), q, TurnCompleted, outcome)
  }

  /** What the scene of a turn makes of it; `document` is the one resolved. */
  ghost function Conclude(s: Site, t: nat, query: Option<nat>, gap: Option<Gap>, content: string, document: Option<nat>): Site
    requires t in s.turns
  {
    match s.turns[t].scene
    case GoalJudgement => if query.Some? && query.value in s.turns then Judge(s, t, query.value, gap, content) else s
    case DocumentDelivery =>
      if document.Some? then Attach(s, t, document.value) else AddAgentMessage(s, t, TurnCompleted, DocumentNotFound)
    case ResumeAnswer => AddAgentMessage(s, t, TurnCompleted, MessageSent)
    case GoalQuery => s
  }

  /** The last transaction of the call that inserted. */
  ghost function Answer(s: Site, c: nat, document: Option<nat>): Site
    requires c in s.callers && s.callers[c].phase.Answering?
  {
    var Answering(t, query, gap) := s.callers[c].phase;
    if t !in s.turns || s.turns[t].status == TurnCompleted then Return(s, c)
    else Return(Conclude(s, t, query, gap, s.callers[c].request.content, document), c)
  }

  /** The handler of a failed delivery, after the rollback. */
  function Recover(s: Site, c: nat): Site
    requires c in s.callers && s.callers[c].phase.Recovering?
  {
    var t := s.callers[c].phase.turn;
    Return(if t in s.turns && s.turns[t].status != TurnCompleted then SetTurn(s, t, TurnFailed, AttachmentFailed) else s, c)
  }

  /** `_wait_for_existing_result`, one poll. */
  function Poll(s: Site, c: nat): Site
    requires c in s.callers && s.callers[c].phase.Watching?
  {
    var t := s.callers[c].phase.turn;
    if t in s.turns && s.turns[t].status == TurnProcessing then s else Return(s, c)
  }

  // ----- start_proactive_query ----------------------------------------------

  function StartProactive(s: Site, app: nat, conversation: nat, hr: nat): Site {
    if !InContext(s.w, app, conversation, hr) then s
    else
      var gap := GapFor(s.w, app);
      if gap.None? || KeyTaken(s.turns, Proactive(app, conversation, gap.value.condition)) then s
      else
        var t := s.w.db.next;
        var key := Proactive(app, conversation, gap.value.condition);
        AddAgentMessage(
          s.(w := Draw(s.w, 1),
             turns := s.turns[t := Turn(conversation, None, key, s.w.db.now, GoalQuery, TurnProcessing, None, None)]),
          t, TurnWaiting, QuerySent)
  }

  // ----- the transition system ----------------------------------------------

  datatype Move =
    | Elsewhere(step: WorldStep)
    | OpenMove(request: Request)
    | LookMove(caller: nat)
    | InsertMove(caller: nat)
    | RereadMove(caller: nat)
    | AnswerMove(caller: nat, document: Option<nat>)
    | FailMove(caller: nat)
    | RecoverMove(caller: nat)
    | PollMove(caller: nat)
    | LeaveMove(caller: nat)
    | ProactiveMove(app: nat, conversation: nat, hr: nat)

  predicate InPhase(s: Site, c: nat, phase: Phase) {
    c in s.callers && s.callers[c].phase == phase
  }

  ghost predicate Possible(s: Site, move: Move) {
    match move
    case Elsewhere(step) => Permitted(s.w, step)
    case LookMove(c) => InPhase(s, c, Reading)
    case InsertMove(c) => InPhase(s, c, Inserting)
    case RereadMove(c) => InPhase(s, c, Raced)
    case AnswerMove(c, _) => c in s.callers && s.callers[c].phase.Answering?
    case FailMove(c) => c in s.callers && s.callers[c].phase.Answering? && s.callers[c].phase.turn in s.turns
                        && s.turns[s.callers[c].phase.turn].scene == DocumentDelivery
    case RecoverMove(c) => c in s.callers && s.callers[c].phase.Recovering?
    case PollMove(c) => c in s.callers && s.callers[c].phase.Watching?
    case _ => true
  }

  ghost function Make(s: Site, move: Move): Site
    requires Possible(s, move)
  {
    match move
    case Elsewhere(step) => s.(w := Perform(s.w, step))
    case OpenMove(request) => Open(s, request)
    case LookMove(c) => Look(s, c)
    case InsertMove(c) => Insert(s, c)
    case RereadMove(c) => Reread(s, c)
    case AnswerMove(c, document) => Answer(s, c, document)
    case FailMove(c) => SetPhase(s, c, Recovering(s.callers[c].phase.turn))
    case RecoverMove(c) => Recover(s, c)
    case PollMove(c) => Poll(s, c)
    case LeaveMove(c) => Return(s, c)
    case ProactiveMove(app, conversation, hr) => StartProactive(s, app, conversation, hr)
  }

  ghost predicate Moves(s: Site, move: Move, s': Site) {
    && Possible(s, move) && s'.w.db.now > s.w.db.now
    && s' == Make(s, move).(w := Later(Make(s, move).w, s'.w.db.now))
  }

  const Quiet := Site(Nothing, map[], map[], map[], map[])

  ghost predicate Story(ss: seq<Site>, moves: seq<Move>) {
    && |ss| == |moves| + 1
    && ss[0] == Quiet
    && forall i :: 0 <= i < |moves| ==> Moves(ss[i], moves[i], ss[i + 1])
  }
}
