/** How each move of a conversation is decided, stated on the tables: the judgement of an
    answer, the scene of a turn, delivery, the read of a call and the proactive question. */
module ChatDecisions {
  import opened Common
  import opened Tasks
  import TaskInvariant
  import opened AgentFlow
  import opened AgentInvariant
  import opened AgentFacts
  import AgentTheorems
  import AgentDecisions
  import opened GoalGap
  import opened Chat
  import opened ChatInvariant
  import opened ChatTheorems
  import BinaryAnswer
  import Text

  // ----- the judgement ------------------------------------------------------

  /** Some yes-token, none of them after 不; and the other way round. */
  ghost predicate SaysYes(content: string) {
    BinaryAnswer.AnyAffirmed(Text.RemoveSpaces(content)) && !BinaryAnswer.AnyDenied(Text.RemoveSpaces(content))
  }

  ghost predicate SaysNo(content: string) {
    BinaryAnswer.AnyDenied(Text.RemoveSpaces(content)) && !BinaryAnswer.AnyAffirmed(Text.RemoveSpaces(content))
  }

  /** The condition holds and the goal excludes it, or it does not hold and the goal
      asks for it. */
  ghost predicate Stops(gap: Option<Gap>, content: string) {
    gap.Some? && ((SaysYes(content) && gap.value.stopOnYes) || (SaysNo(content) && !gap.value.stopOnYes))
  }

  ghost predicate Continues(gap: Option<Gap>, content: string) {
    gap.Some? && ((SaysYes(content) && !gap.value.stopOnYes) || (SaysNo(content) && gap.value.stopOnYes))
  }

  /** The turn is completed with this outcome and a new agent message as its result. */
  predicate RepliesWith(s: Site, s': Site, t: nat, outcome: TurnOutcome) {
    && t in s.turns && t in s'.turns && s.w.db.next !in s.messages
    && s'.turns[t] == s.turns[t].(status := TurnCompleted, outcome := Some(outcome), result := Some(s.w.db.next))
    && s'.messages == s.messages[s.w.db.next := Message(s.turns[t].conversation, AgentSender, None)]
  }

  /** No turn but these two changes. */
  predicate OnlyTurns(s: Site, s': Site, t: nat, q: nat) {
    && s'.turns.Keys == s.turns.Keys
    && forall u :: u in s.turns && u != t && u != q ==> s'.turns[u] == s.turns[u]
  }

  /** Turn and question are completed with the outcome, by one message. */
  predicate Settles(s: Site, s': Site, t: nat, q: nat, outcome: TurnOutcome) {
    && RepliesWith(s, s', t, outcome) && OnlyTurns(s, s', t, q) && s'.attachments == s.attachments
    && q in s.turns && q in s'.turns && s'.turns[q] == s.turns[q].(status := TurnCompleted, outcome := Some(outcome))
  }

  /** The turn is completed without a message and the question waits on. */
  predicate Defers(s: Site, s': Site, t: nat, q: nat) {
    && s'.messages == s.messages && OnlyTurns(s, s', t, q) && s'.attachments == s.attachments
    && t in s.turns && t in s'.turns && s'.turns[t] == s.turns[t].(status := TurnCompleted, outcome := Some(PendingAnswer))
    && q in s.turns && q in s'.turns && s'.turns[q] == s.turns[q].(status := TurnWaiting, outcome := Some(PendingAnswer))
  }

  lemma JudgementByTables(s: Site, t: nat, q: nat, gap: Option<Gap>, content: string)
    requires t in s.turns && q in s.turns && t != q && s.turns[t].status != TurnCompleted && s.w.db.next !in s.messages
    ensures var s' := Judge(s, t, q, gap, content);
      && s'.callers == s.callers
      && if Stops(gap, content) then Settles(s, s', t, q, StopOutcome)
         else if Continues(gap, content) then Settles(s, s', t, q, ContinueOutcome)
         else Defers(s, s', t, q)
  {
    hide BinaryAnswer.AnyAffirmed, BinaryAnswer.AnyDenied;
  }

  // ----- the last transaction of a call -------------------------------------

  /** One more attachment, of this document, on the message. */
  ghost predicate AddsAttachment(s: Site, s': Site, message: nat, document: nat) {
    exists a: nat :: a !in s.attachments && s'.attachments == s.attachments[a := Attachment(message, document)]
  }

  /** What the answering transaction leaves, scene by scene. */
  ghost predicate AnswersByScene(s: Site, s': Site, t: nat, query: Option<nat>, gap: Option<Gap>, content: string,
        document: Option<nat>)
  {
    t in s.turns &&
    match s.turns[t].scene
    case GoalJudgement =>
      && query.Some?
      && (if Stops(gap, content) then Settles(s, s', t, query.value, StopOutcome)
          else if Continues(gap, content) then Settles(s, s', t, query.value, ContinueOutcome)
          else Defers(s, s', t, query.value))
    case DocumentDelivery =>
      && OnlyTurns(s, s', t, t) && RepliesWith(s, s', t, if document.Some? then AttachmentSent else DocumentNotFound)
      && (if document.Some? then AddsAttachment(s, s', s.w.db.next, document.value) else s'.attachments == s.attachments)
    case ResumeAnswer =>
      OnlyTurns(s, s', t, t) && RepliesWith(s, s', t, MessageSent) && s'.attachments == s.attachments
    case GoalQuery => false
  }

  lemma RepliesByTables(s: Site, t: nat, outcome: TurnOutcome)
    requires t in s.turns && s.w.db.next !in s.messages
    ensures var s' := AddAgentMessage(s, t, TurnCompleted, outcome);
      RepliesWith(s, s', t, outcome) && OnlyTurns(s, s', t, t) && s'.attachments == s.attachments && s'.callers == s.callers
  {}

  lemma AttachByTables(s: Site, t: nat, document: nat)
    requires t in s.turns && s.w.db.next !in s.messages && s.w.db.next + 1 !in s.attachments
    ensures var s' := Attach(s, t, document);
      && RepliesWith(s, s', t, AttachmentSent) && OnlyTurns(s, s', t, t) && AddsAttachment(s, s', s.w.db.next, document)
      && s'.callers == s.callers
  {
    RepliesByTables(s, t, AttachmentSent);
    var s' := Attach(s, t, document);
    assert s'.attachments == s.attachments[s.w.db.next + 1 := Attachment(s.w.db.next, document)];
  }

  lemma ConclusionByTables(s: Site, t: nat, query: Option<nat>, gap: Option<Gap>, content: string, document: Option<nat>)
    requires t in s.turns && s.turns[t].status != TurnCompleted && s.turns[t].scene != GoalQuery
    requires s.w.db.next !in s.messages && s.w.db.next + 1 !in s.attachments
    requires s.turns[t].scene == GoalJudgement ==> query.Some? && query.value in s.turns && query.value != t
    ensures var s' := Conclude(s, t, query, gap, content, document);
      AnswersByScene(s, s', t, query, gap, content, document) && s'.callers == s.callers
  {
    hide Judge, Stops, Continues, Settles, Defers, RepliesWith, OnlyTurns, AddsAttachment, Attach, AddAgentMessage;
    match s.turns[t].scene
    case GoalJudgement => JudgementByTables(s, t, query.value, gap, content);
    case DocumentDelivery =>
      if document.Some? { AttachByTables(s, t, document.value); } else { RepliesByTables(s, t, DocumentNotFound); }
    case ResumeAnswer => RepliesByTables(s, t, MessageSent);
  }

  lemma FreshReply(s: Site)
    requires SInv(s)
    ensures s.w.db.next !in s.messages && s.w.db.next + 1 !in s.attachments && s.w.db.next + 1 !in s.turns && s.w.db.next !in s.turns
  {
    IdsOf(s);
    hide SInv;
  }

  lemma BusyTurn(s: Site, c: nat)
    requires SInv(s) && c in s.callers && s.callers[c].phase.Answering?
    ensures var Answering(t, query, gap) := s.callers[c].phase;
      && t in s.turns && s.turns[t].status == TurnProcessing && s.turns[t].scene != GoalQuery
      && (s.turns[t].scene == GoalJudgement ==> query.Some? && query.value in s.turns && query.value != t)
  {
    SiteTables(s);
    BusyHolds(s, c);
    RowOk(s, s.callers[c].phase.turn);
    hide SInv, WInv;
  }

  lemma AnsweringByTables(s: Site, c: nat, document: Option<nat>)
    requires SInv(s) && c in s.callers && s.callers[c].phase.Answering?
    ensures var Answering(t, query, gap) := s.callers[c].phase; var s' := Answer(s, c, document);
      AnswersByScene(s, s', t, query, gap, s.callers[c].request.content, document) && s'.callers == s.callers - {c}
  {
    hide SInv, Conclude, AnswersByScene;
    FreshReply(s);
    BusyTurn(s, c);
    var Answering(t, query, gap) := s.callers[c].phase;
    ConclusionByTables(s, t, query, gap, s.callers[c].request.content, document);
    ScenesIgnoreCallers(s, Conclude(s, t, query, gap, s.callers[c].request.content, document), t, query, gap,
      s.callers[c].request.content, document, s.callers - {c}, Conclude(s, t, query, gap, s.callers[c].request.content, document).w);
  }

  /** Neither the calls nor the agent flow matter to what a transaction leaves. */
  lemma ScenesIgnoreCallers(s: Site, s': Site, t: nat, query: Option<nat>, gap: Option<Gap>, content: string,
        document: Option<nat>, callers: map<nat, Caller>, w: World)
    requires AnswersByScene(s, s', t, query, gap, content, document)
    ensures AnswersByScene(s, s'.(callers := callers, w := w), t, query, gap, content, document)
  {
    hide Stops, Continues;
  }

  /** The last transaction of a call, in every story. A judgement completes turn and
      question with stop or continue, by exactly one message, or leaves the question
      waiting without one; a delivery attaches the document resolved or says that there
      is none; any other turn is answered by one message. */
  lemma AnswerDecides(ss: seq<Site>, moves: seq<Move>, n: nat, c: nat, document: Option<nat>)
    requires Story(ss, moves) && n < |moves| && n + 1 < |ss| && moves[n] == AnswerMove(c, document)
    ensures c in ss[n].callers && ss[n].callers[c].phase.Answering? && c !in ss[n + 1].callers
    ensures var Answering(t, query, gap) := ss[n].callers[c].phase;
      AnswersByScene(ss[n], ss[n + 1], t, query, gap, ss[n].callers[c].request.content, document)
  {
    hide SInv, AnswersByScene, Answer;
    StoryKeeps(ss, moves, n);
    assert Chat.Moves(ss[n], moves[n], ss[n + 1]);
    hide Story;
    var Answering(t, query, gap) := ss[n].callers[c].phase;
    AnsweringByTables(ss[n], c, document);
    ScenesIgnoreCallers(ss[n], Answer(ss[n], c, document), t, query, gap, ss[n].callers[c].request.content, document,
      ss[n + 1].callers, ss[n + 1].w);
  }

  // ----- the insert ---------------------------------------------------------

  /** A goal question of the conversation that waits for its answer. */
  predicate Asks(turns: map<nat, Turn>, conversation: nat, q: nat) {
    q in turns && turns[q].conversation == conversation && turns[q].scene == GoalQuery && turns[q].status == TurnWaiting
  }

  ghost predicate HasMessage(messages: map<nat, Message>, conversation: nat, client: nat) {
    exists m :: m in messages && messages[m] == Message(conversation, HrSender, Some(client))
  }

  /** The waiting question, a wanted document or the resume: in this order. */
  ghost predicate RightScene(turns: map<nat, Turn>, q: Request, scene: Scene, query: Option<nat>) {
    && (scene == GoalJudgement <==> exists t :: Asks(turns, q.conversation, t))
    && (scene == DocumentDelivery <==> (forall t :: !Asks(turns, q.conversation, t)) && q.wantsDocument)
    && (scene == ResumeAnswer <==> (forall t :: !Asks(turns, q.conversation, t)) && !q.wantsDocument)
    && (if query.Some? then Asks(turns, q.conversation, query.value) else forall t :: !Asks(turns, q.conversation, t))
  }

  /** The message `m` and its turn `t` are there, and the call goes on with this turn. */
  ghost predicate InsertsAs(s: Site, s': Site, c: nat, m: nat, t: nat, query: Option<nat>) {
    c in s.callers && m !in s.messages && t !in s.turns && t in s'.turns
    && var q := s.callers[c].request;
      && s'.messages == s.messages[m := Message(q.conversation, HrSender, Some(q.client))]
      && s'.turns == s.turns[t := s'.turns[t]] && RightTurn(s.turns, q, s'.turns[t], m, query)
      && s'.callers == s.callers[c := Caller(q, Answering(t, query, GapFor(s.w, q.app)))]
      && s'.attachments == s.attachments
  }

  ghost predicate RightTurn(turns: map<nat, Turn>, q: Request, turn: Turn, m: nat, query: Option<nat>) {
    && turn.conversation == q.conversation && turn.source == Some(m)
    && turn.status == TurnProcessing && turn.outcome.None? && turn.result.None?
    && RightScene(turns, q, turn.scene, query)
  }

  ghost predicate Inserts(s: Site, s': Site, c: nat) {
    exists m: nat, t: nat, query: Option<nat> :: InsertsAs(s, s', c, m, t, query)
  }

  lemma PendingIs(turns: map<nat, Turn>, conversation: nat)
    ensures var q := PendingQuery(turns, conversation);
      if q.Some? then Asks(turns, conversation, q.value) else forall t :: !Asks(turns, conversation, t)
  {
    assert forall t :: t in WaitingQueries(turns, conversation) <==> Asks(turns, conversation, t);
  }

  lemma KeyHasMessage(s: Site, conversation: nat, client: nat)
    requires SInv(s) && KeyTaken(s.turns, Inbound(conversation, client))
    ensures HasMessage(s.messages, conversation, client)
  {
    SiteTables(s);
    hide SInv, WInv, KeysUnique, HrUnique, Resulted, Delivered, CallersOk, Asked, HasTurn;
    var t :| t in s.turns && s.turns[t].key == Inbound(conversation, client);
    RowOk(s, t);
    assert SourceOk(s.messages, s.turns[t]);
    var m := s.turns[t].source.value;
    assert s.messages[m].client == Some(client) && s.messages[m].conversation == conversation;
  }

  lemma InsertedTurnIsRight(s: Site, c: nat)
    requires c in s.callers
    ensures var q := s.callers[c].request;
      RightTurn(s.turns, q, InboundTurn(s, c), s.w.db.next, PendingQuery(s.turns, q.conversation))
  {
    hide PendingQuery, RightScene;
    var q := s.callers[c].request;
    PendingIs(s.turns, q.conversation);
    SceneIsRight(s.turns, q, PendingQuery(s.turns, q.conversation));
  }

  lemma InsertedByTables(s: Site, c: nat)
    requires SInv(s) && c in s.callers
    ensures Inserts(s, Inserted(s, c), c)
  {
    hide SInv, PendingQuery, GapFor, RightTurn, InboundTurn;
    FreshReply(s);
    InsertedTurnIsRight(s, c);
    var m, query := s.w.db.next, PendingQuery(s.turns, s.callers[c].request.conversation);
    assert InsertsAs(s, Inserted(s, c), c, m, m + 1, query);
  }

  lemma SceneIsRight(turns: map<nat, Turn>, q: Request, query: Option<nat>)
    requires if query.Some? then Asks(turns, q.conversation, query.value) else forall t :: !Asks(turns, q.conversation, t)
    ensures RightScene(turns, q, SceneFor(query, q.wantsDocument), query)
  {
    hide Asks;
  }

  lemma InsertByTables(s: Site, c: nat)
    requires SInv(s) && c in s.callers
    ensures var s' := Insert(s, c); var q := s.callers[c].request;
      if HasMessage(s.messages, q.conversation, q.client) then s' == SetPhase(s, c, Raced) else Inserts(s, s', c)
  {
    hide SInv, Inserted, Inserts, KeyTaken;
    var q := s.callers[c].request;
    InsertedByTables(s, c);
    MessageFound(s.messages, q.conversation, q.client);
    if KeyTaken(s.turns, Inbound(q.conversation, q.client)) { KeyHasMessage(s, q.conversation, q.client); }
  }

  lemma MessageFound(messages: map<nat, Message>, conversation: nat, client: nat)
    ensures HasMessage(messages, conversation, client) <==> InboundMessage(messages, conversation, client).Some?
  {}

  lemma InsertsIgnoresClock(s: Site, s': Site, c: nat, w: World)
    requires Inserts(s, s', c)
    ensures Inserts(s, s'.(w := w), c)
  {
    hide RightTurn;
    var m: nat, t: nat, query: Option<nat> :| InsertsAs(s, s', c, m, t, query);
    assert InsertsAs(s, s'.(w := w), c, m, t, query);
  }

  /** The insert of a call, in every story: it loses the race exactly when a message of
      this client id is there; otherwise message and turn are added, and the scene is the
      judgement of a waiting question if there is one, else the delivery of a wanted
      document, else an answer from the resume. */
  lemma InsertDecides(ss: seq<Site>, moves: seq<Move>, n: nat, c: nat)
    requires Story(ss, moves) && n < |moves| && n + 1 < |ss| && moves[n] == InsertMove(c)
    ensures c in ss[n].callers && ss[n].callers[c].phase == Inserting
    ensures var q := ss[n].callers[c].request;
      if HasMessage(ss[n].messages, q.conversation, q.client)
      then ss[n + 1].callers == ss[n].callers[c := Caller(q, Raced)] && ss[n + 1].turns == ss[n].turns && ss[n + 1].messages == ss[n].messages
      else Inserts(ss[n], ss[n + 1], c)
  {
    hide SInv, Insert, Inserts, HasMessage;
    StoryKeeps(ss, moves, n);
    assert Chat.Moves(ss[n], moves[n], ss[n + 1]);
    hide Story;
    InsertByTables(ss[n], c);
    var q := ss[n].callers[c].request;
    if !HasMessage(ss[n].messages, q.conversation, q.client) { InsertsIgnoresClock(ss[n], Insert(ss[n], c), c, ss[n + 1].w); }
  }

  // ----- who may read and write a conversation ------------------------------

  /** The conversation is the application's, and the job is this HR's. */
  predicate Belongs(w: World, app: nat, conversation: nat, hr: nat) {
    && conversation in w.conversations && w.conversations[conversation] == app
    && app in w.apps && w.apps[app].job in w.db.jobs && w.db.jobs[w.apps[app].job].hr == hr
  }

  /** The further joins of `get_for_hr` turn nobody away. */
  lemma ContextIff(w: World, app: nat, conversation: nat, hr: nat)
    requires WInv(w)
    ensures InContext(w, app, conversation, hr) <==> Belongs(w, app, conversation, hr)
  {
    if app in w.apps {
      AgentTheorems.AppJoins(w, app);
    }
    hide WInv, AgentFlow.Named;
  }

  // ----- the read -----------------------------------------------------------

  /** The turn of the HR message with this client id. */
  predicate TurnOf(s: Site, conversation: nat, client: nat, t: nat) {
    && t in s.turns && s.turns[t].source.Some? && s.turns[t].source.value in s.messages
    && s.messages[s.turns[t].source.value] == Message(conversation, HrSender, Some(client))
  }

  lemma OneTurnOf(s: Site, conversation: nat, client: nat, m: nat, t: nat)
    requires HrUnique(s.messages) && m in s.messages && s.messages[m] == Message(conversation, HrSender, Some(client))
    requires TurnOf(s, conversation, client, t)
    ensures s.turns[t].source == Some(m)
  {}

  lemma TurnOfMessage(s: Site, conversation: nat, client: nat, m: nat)
    requires SInv(s) && InboundMessage(s.messages, conversation, client) == Some(m)
    ensures TurnFor(s.turns, m).Some? && TurnOf(s, conversation, client, TurnFor(s.turns, m).value)
    ensures forall t :: TurnOf(s, conversation, client, t) ==> t == TurnFor(s.turns, m).value
  {
    hide SInv, WInv, Sourced, Resulted, Delivered, CallersOk, Asked, TurnsOk, HrUnique, KeysUnique;
    SiteTables(s);
    SourceIsUnique(s.messages, s.turns, m);
    var only :| OnlyTurnFor(s.turns, m, only);
    forall t | TurnOf(s, conversation, client, t) ensures t == TurnFor(s.turns, m).value {
      OneTurnOf(s, conversation, client, m, t);
    }
  }

  /** A message that is there already: the call watches its turn while that is in
      progress, and otherwise returns. */
  ghost predicate Watches(s: Site, s': Site, c: nat, conversation: nat, client: nat) {
    if t :| TurnOf(s, conversation, client, t) && s.turns[t].status == TurnProcessing
    then c in s.callers && s'.callers == s.callers[c := Caller(s.callers[c].request, Watching(t))]
    else s'.callers == s.callers - {c}
  }

  lemma ReplayByTables(s: Site, c: nat, conversation: nat, client: nat, m: nat)
    requires SInv(s) && c in s.callers && InboundMessage(s.messages, conversation, client) == Some(m)
    ensures Watches(s, Replay(s, c, m), c, conversation, client)
  {
    hide SInv, TurnOf;
    TurnOfMessage(s, conversation, client, m);
  }

  /** Only the calls change. */
  predicate OnlyCalls(s: Site, s': Site) {
    s'.messages == s.messages && s'.turns == s.turns && s'.attachments == s.attachments
  }

  /** The first read of a call: turned away unless the conversation belongs to the
      application and the job to this HR; for a known client id it watches or returns;
      otherwise it goes on to insert. It writes nothing. */
  lemma LookDecides(ss: seq<Site>, moves: seq<Move>, n: nat, c: nat)
    requires Story(ss, moves) && n < |moves| && n + 1 < |ss| && moves[n] == LookMove(c)
    ensures c in ss[n].callers && OnlyCalls(ss[n], ss[n + 1])
    ensures var s, s', q := ss[n], ss[n + 1], ss[n].callers[c].request;
      if !Belongs(s.w, q.app, q.conversation, q.hr) then s'.callers == s.callers - {c}
      else if HasMessage(s.messages, q.conversation, q.client) then Watches(s, s', c, q.conversation, q.client)
      else s'.callers == s.callers[c := Caller(q, Inserting)]
  {
    hide SInv, InContext, Belongs, Replay, Watches, WInv;
    StoryKeeps(ss, moves, n);
    assert Chat.Moves(ss[n], moves[n], ss[n + 1]);
    hide Story;
    var s, q := ss[n], ss[n].callers[c].request;
    SiteTables(s);
    ContextIff(s.w, q.app, q.conversation, q.hr);
    MessageFound(s.messages, q.conversation, q.client);
    var m := InboundMessage(s.messages, q.conversation, q.client);
    if m.Some? {
      ReplayByTables(s, c, q.conversation, q.client, m.value);
      ReplayKeepsTables(s, c, m.value);
      WatchesIgnoresClock(s, Replay(s, c, m.value), c, q.conversation, q.client, ss[n + 1].w);
    }
  }

  lemma ReplayKeepsTables(s: Site, c: nat, m: nat)
    requires c in s.callers
    ensures OnlyCalls(s, Replay(s, c, m))
  {}

  lemma WatchesIgnoresClock(s: Site, s': Site, c: nat, conversation: nat, client: nat, w: World)
    requires Watches(s, s', c, conversation, client)
    ensures Watches(s, s'.(w := w), c, conversation, client)
  {
    hide TurnOf;
  }

  // ----- polling and failed deliveries --------------------------------------

  /** A watching call stays exactly while the turn is in progress, and writes nothing. */
  lemma PollDecides(ss: seq<Site>, moves: seq<Move>, n: nat, c: nat)
    requires Story(ss, moves) && n < |moves| && n + 1 < |ss| && moves[n] == PollMove(c)
    ensures c in ss[n].callers && ss[n].callers[c].phase.Watching? && OnlyCalls(ss[n], ss[n + 1])
    ensures var s, t := ss[n], ss[n].callers[c].phase.turn;
      t in s.turns && ss[n + 1].callers == if s.turns[t].status == TurnProcessing then s.callers else s.callers - {c}
  {
    hide SInv, WInv;
    StoryKeeps(ss, moves, n);
    assert Chat.Moves(ss[n], moves[n], ss[n + 1]);
    hide Story;
    SiteTables(ss[n]);
    assert CallerOk(ss[n].callers[c], ss[n].turns);
  }

  /** A failed delivery fails its turn, which is still open, and keeps every message. */
  lemma RecoverDecides(ss: seq<Site>, moves: seq<Move>, n: nat, c: nat)
    requires Story(ss, moves) && n < |moves| && n + 1 < |ss| && moves[n] == RecoverMove(c)
    ensures c in ss[n].callers && ss[n].callers[c].phase.Recovering? && ss[n + 1].callers == ss[n].callers - {c}
    ensures ss[n + 1].messages == ss[n].messages && ss[n + 1].attachments == ss[n].attachments
    ensures var s, t := ss[n], ss[n].callers[c].phase.turn;
      && t in s.turns && s.turns[t].status == TurnProcessing
      && ss[n + 1].turns == s.turns[t := s.turns[t].(status := TurnFailed, outcome := Some(AttachmentFailed))]
  {
    hide SInv, WInv;
    StoryKeeps(ss, moves, n);
    assert Chat.Moves(ss[n], moves[n], ss[n + 1]);
    hide Story;
    BusyHolds(ss[n], c);
  }

  // ----- the proactive question ---------------------------------------------

  ghost predicate AskedBefore(turns: map<nat, Turn>, conversation: nat) {
    exists t :: t in turns && turns[t].conversation == conversation && turns[t].scene == GoalQuery
  }

  /** One waiting question with one message, for this application and condition. */
  predicate AsksAs(s: Site, s': Site, app: nat, conversation: nat, condition: string, t: nat, m: nat) {
    && t !in s.turns && m !in s.messages && t in s'.turns && s'.turns == s.turns[t := s'.turns[t]]
    && s'.turns[t].conversation == conversation && s'.turns[t].scene == GoalQuery && s'.turns[t].status == TurnWaiting
    && s'.turns[t].key == Proactive(app, conversation, condition) && s'.turns[t].result == Some(m)
    && s'.messages == s.messages[m := Message(conversation, AgentSender, None)]
  }

  ghost predicate AsksNow(s: Site, s': Site, app: nat, conversation: nat, condition: string) {
    exists t: nat, m: nat :: AsksAs(s, s', app, conversation, condition, t, m)
  }

  lemma AskedKeyTaken(s: Site, app: nat, conversation: nat, gap: Gap)
    requires SInv(s) && conversation in s.w.conversations && s.w.conversations[conversation] == app && GapFor(s.w, app) == Some(gap)
    ensures KeyTaken(s.turns, Proactive(app, conversation, gap.condition)) <==> AskedBefore(s.turns, conversation)
  {
    SiteTables(s);
    GapIsTheQuestion(s.w, app);
    hide SInv, WInv, KeysUnique, HrUnique, Sourced, Resulted, Delivered, CallersOk, GapFor, Question;
    if t :| t in s.turns && s.turns[t].conversation == conversation && s.turns[t].scene == GoalQuery {
      RowOk(s, t);
      assert AskedFrom(s.w, s.turns[t]);
      assert s.turns[t].key == Proactive(app, conversation, gap.condition);
    }
    if t :| t in s.turns && s.turns[t].key == Proactive(app, conversation, gap.condition) {
      RowOk(s, t);
    }
  }

  lemma AskingAdds(s: Site, app: nat, conversation: nat, hr: nat, gap: Gap)
    requires InContext(s.w, app, conversation, hr) && GapFor(s.w, app) == Some(gap)
    requires !KeyTaken(s.turns, Proactive(app, conversation, gap.condition))
    requires s.w.db.next !in s.turns && s.w.db.next + 1 !in s.messages
    ensures AsksNow(s, StartProactive(s, app, conversation, hr), app, conversation, gap.condition)
  {
    hide InContext, GapFor, KeyTaken;
    assert AsksAs(s, StartProactive(s, app, conversation, hr), app, conversation, gap.condition, s.w.db.next, s.w.db.next + 1);
  }

  lemma AskingRefused(s: Site, app: nat, conversation: nat, hr: nat)
    requires !InContext(s.w, app, conversation, hr) || GapFor(s.w, app).None?
             || KeyTaken(s.turns, Proactive(app, conversation, GapFor(s.w, app).value.condition))
    ensures StartProactive(s, app, conversation, hr) == s
  {
    hide InContext, GapFor, KeyTaken;
  }

  lemma AskingKeepsCalls(s: Site, app: nat, conversation: nat, hr: nat)
    ensures StartProactive(s, app, conversation, hr).callers == s.callers
    ensures StartProactive(s, app, conversation, hr).attachments == s.attachments
  {
    hide InContext, GapFor, KeyTaken;
  }

  lemma AskingByTables(s: Site, app: nat, conversation: nat, hr: nat)
    requires SInv(s)
    ensures var s' := StartProactive(s, app, conversation, hr); var gap := GapFor(s.w, app);
      && s'.callers == s.callers && s'.attachments == s.attachments
      && if Belongs(s.w, app, conversation, hr) && gap.Some? && !AskedBefore(s.turns, conversation)
         then AsksNow(s, s', app, conversation, gap.value.condition) else s' == s
  {
    hide SInv, WInv, GapFor, KeyTaken, InContext, AskedBefore, AsksNow, StartProactive;
    hide TurnsOk, Asked, Sourced, Resulted, Delivered, CallersOk, HrUnique, KeysUnique;
    SiteTables(s);
    ContextIff(s.w, app, conversation, hr);
    FreshReply(s);
    FreshNext(s);
    AskingKeepsCalls(s, app, conversation, hr);
    var gap := GapFor(s.w, app);
    if Belongs(s.w, app, conversation, hr) && gap.Some? {
      AskedKeyTaken(s, app, conversation, gap.value);
      if AskedBefore(s.turns, conversation) {
        AskingRefused(s, app, conversation, hr);
      } else {
        AskingAdds(s, app, conversation, hr, gap.value);
      }
    } else {
      AskingRefused(s, app, conversation, hr);
    }
  }

  lemma FreshNext(s: Site)
    requires SInv(s)
    ensures s.w.db.next + 1 !in s.messages
  {
    IdsOf(s);
    hide SInv;
  }

  /** A proactive request asks exactly when the conversation belongs to the application
      and the job to this HR, the goal leaves a gap, and nothing was asked before. */
  lemma AskDecides(ss: seq<Site>, moves: seq<Move>, n: nat, app: nat, conversation: nat, hr: nat)
    requires Story(ss, moves) && n < |moves| && n + 1 < |ss| && moves[n] == ProactiveMove(app, conversation, hr)
    ensures var s, s', gap := ss[n], ss[n + 1], GapFor(ss[n].w, app);
      && s'.callers == s.callers && s'.attachments == s.attachments
      && if Belongs(s.w, app, conversation, hr) && gap.Some? && !AskedBefore(s.turns, conversation)
         then AsksNow(s, s', app, conversation, gap.value.condition) else s'.turns == s.turns && s'.messages == s.messages
  {
    hide SInv, GapFor, Belongs, AskedBefore, AsksNow, StartProactive;
    StoryKeeps(ss, moves, n);
    assert Chat.Moves(ss[n], moves[n], ss[n + 1]);
    hide Story;
    AskingByTables(ss[n], app, conversation, hr);
    AskingIgnoresClock(ss[n], StartProactive(ss[n], app, conversation, hr), app, conversation, ss[n + 1].w);
  }

  lemma AskingIgnoresClock(s: Site, s': Site, app: nat, conversation: nat, w: World)
    ensures forall condition :: AsksNow(s, s', app, conversation, condition) ==> AsksNow(s, s'.(w := w), app, conversation, condition)
  {
    forall condition | AsksNow(s, s', app, conversation, condition) ensures AsksNow(s, s'.(w := w), app, conversation, condition) {
      var t: nat, m: nat :| AsksAs(s, s', app, conversation, condition, t, m);
      assert AsksAs(s, s'.(w := w), app, conversation, condition, t, m);
    }
  }

  // ----- the gap the goal leaves --------------------------------------------

  /** What an application joins with: its run, the goal of that run, the JD of its job. */
  predicate GapJoins(w: World, app: nat) {
    && app in w.apps && w.apps[app].run in w.runs && w.runs[w.apps[app].run].goal in w.goals && w.apps[app].job in w.db.snapshots
  }

  lemma GapByTables(w: World, app: nat)
    requires WInv(w) && AgentDecisions.NoneAbandoned(w) && app in w.apps
    ensures GapJoins(w, app)
    ensures var run := w.runs[w.apps[app].run];
      GapFor(w, app) == if run.reason == Some(OfferTargetReached) then None
                        else FindGap(true, w.goals[run.goal].filters, Some(w.db.snapshots[w.apps[app].job]))
  {
    hide WInv, FirstGap, Clauses, AgentFlow.Named, TaskInvariant.Inv;
    hide Goals, RunsBacked, Matches, MatchJobs, Apps, Talks, Log, Outcomes, RunGoals, GoalsReached;
    AgentTheorems.AppJoins(w, app);
    var r := w.apps[app].run;
    AgentDecisions.GoalOfRun(w, r);
    Tables(w);
    AgentTheorems.ReachedByItsRun(w.runs, w.goals, r);
    GoalStatusMeans(w.goals, w.runs, w.runs[r].goal);
  }

  lemma GoalStatusMeans(goals: map<nat, Goal>, runs: map<nat, AgentRun>, g: nat)
    requires GoalsReached(goals, runs) && g in goals
    ensures goals[g].status == GoalAchieved <==> ReachedBy(runs, g)
  {}

  ghost predicate NoGoalAbandoned(s: Site) {
    AgentDecisions.NoneAbandoned(s.w)
  }

  lemma MoveAbandonsNone(s: Site, move: Move, s': Site)
    requires SInv(s) && NoGoalAbandoned(s) && Chat.Moves(s, move, s')
    ensures NoGoalAbandoned(s')
  {
    SiteTables(s);
    hide SInv, WInv;
    if move.Elsewhere? {
      AgentDecisions.StepAbandonsNone(s.w, move.step);
      hide Perform, Permitted;
    } else {
      MoveDraws(s, move);
      hide Make, Possible;
    }
  }

  lemma {:induction false} StoryAbandonsNone(ss: seq<Site>, moves: seq<Move>, n: nat)
    requires Story(ss, moves) && n < |ss|
    ensures NoGoalAbandoned(ss[n])
  {
    hide SInv, Possible, Make, NoGoalAbandoned;
    if n == 0 {
      NoGoalAtFirst();
    } else {
      StoryAbandonsNone(ss, moves, n - 1);
      StoryKeeps(ss, moves, n - 1);
      assert Chat.Moves(ss[n - 1], moves[n - 1], ss[n]);
      MoveAbandonsNone(ss[n - 1], moves[n - 1], ss[n]);
    }
  }

  lemma NoGoalAtFirst()
    ensures NoGoalAbandoned(Quiet)
  {}

  /** In every story the gap of an application is that of the goal of its run against the
      JD of its job, and none once the run has reached its offer target. */
  lemma GapDecides(ss: seq<Site>, moves: seq<Move>, n: nat, app: nat)
    requires Story(ss, moves) && n < |ss| && app in ss[n].w.apps
    ensures GapJoins(ss[n].w, app)
    ensures var w := ss[n].w; var run := w.runs[w.apps[app].run];
      GapFor(w, app) == if run.reason == Some(OfferTargetReached) then None
                        else FindGap(true, w.goals[run.goal].filters, Some(w.db.snapshots[w.apps[app].job]))
  {
    hide WInv, FindGap, GapFor, AgentDecisions.NoneAbandoned;
    StoryKeeps(ss, moves, n);
    SiteTables(ss[n]);
    hide SInv;
    StoryAbandonsNone(ss, moves, n);
    hide Story;
    GapByTables(ss[n].w, app);
  }

  // ----- the condition that is judged ---------------------------------------

  /** The call's conversation is its application's, the gap it carries is the question
      of goal and job, and the question it found is of its conversation. */
  predicate Grounded(w: World, turns: map<nat, Turn>, caller: Caller) {
    var q := caller.request;
    && (caller.phase.Inserting? || caller.phase.Answering? ==>
          q.conversation in w.conversations && w.conversations[q.conversation] == q.app && q.app in w.apps)
    && (caller.phase.Answering? ==>
          && (caller.phase.gap.Some? ==> Question(w, q.app) == caller.phase.gap)
          && (caller.phase.query.Some? ==>
                caller.phase.query.value in turns && turns[caller.phase.query.value].conversation == q.conversation))
  }

  ghost predicate AllGrounded(s: Site) {
    forall c :: c in s.callers ==> Grounded(s.w, s.turns, s.callers[c])
  }

  lemma GroundedStays(w: World, w': World, turns: map<nat, Turn>, turns': map<nat, Turn>, caller: Caller)
    requires WInv(w) && Extends(w, w') && TurnsKept(turns, turns') && Grounded(w, turns, caller)
    ensures Grounded(w', turns', caller)
  {
    if caller.request.app in w.apps { QuestionIsFrozen(w, w', caller.request.app); }
    hide WInv, Question;
    if caller.phase.Answering? && caller.phase.query.Some? {
      assert SameTurn(turns[caller.phase.query.value], turns'[caller.phase.query.value]);
    }
  }

  /** The same world but for the ids drawn. */
  predicate Drawn(w: World, w': World) {
    w'.db.next >= w.db.next && w' == w.(db := w.db.(next := w'.db.next))
  }

  lemma DrawnExtends(w: World, w': World)
    requires Drawn(w, w')
    ensures Extends(w, w')
  {}

  lemma JudgeDraws(s: Site, t: nat, q: nat, gap: Option<Gap>, content: string)
    requires t in s.turns && q in s.turns
    ensures Drawn(s.w, Judge(s, t, q, gap, content).w)
  {
    hide Polarity;
  }

  lemma ConclusionDraws(s: Site, t: nat, query: Option<nat>, gap: Option<Gap>, content: string, document: Option<nat>)
    requires t in s.turns
    ensures Drawn(s.w, Conclude(s, t, query, gap, content, document).w)
  {
    hide Judge;
    if query.Some? && query.value in s.turns { JudgeDraws(s, t, query.value, gap, content); }
  }

  lemma InsertDraws(s: Site, c: nat)
    requires c in s.callers
    ensures Drawn(s.w, Insert(s, c).w)
  {
    hide PendingQuery, GapFor, KeyTaken, InboundMessage;
  }

  lemma ReadingDraws(s: Site, c: nat)
    requires c in s.callers
    ensures Drawn(s.w, Look(s, c).w) && Drawn(s.w, Reread(s, c).w)
  {
    hide InContext, InboundMessage, TurnFor;
  }

  lemma AskingDraws(s: Site, app: nat, conversation: nat, hr: nat)
    ensures Drawn(s.w, StartProactive(s, app, conversation, hr).w)
  {
    hide InContext, GapFor, KeyTaken;
  }

  /** Of the moves of a call only ids are drawn. */
  lemma MoveDraws(s: Site, move: Move)
    requires Possible(s, move) && !move.Elsewhere?
    ensures Drawn(s.w, Make(s, move).w)
  {
    hide Look, Reread, Insert, Conclude, StartProactive;
    match move {
      case LookMove(c) => ReadingDraws(s, c);
      case RereadMove(c) => ReadingDraws(s, c);
      case InsertMove(c) => InsertDraws(s, c);
      case AnswerMove(c, document) =>
        var Answering(t, query, gap) := s.callers[c].phase;
        if t in s.turns { ConclusionDraws(s, t, query, gap, s.callers[c].request.content, document); }
      case ProactiveMove(app, conversation, hr) => AskingDraws(s, app, conversation, hr);
      case OpenMove(request) =>
      case FailMove(c) =>
      case RecoverMove(c) =>
      case PollMove(c) =>
      case LeaveMove(c) =>
    }
  }

  /** No move of a conversation changes goals, runs, matches, applications, events or the
      parsing tables; it draws ids. */
  lemma TalkingTouchesNoFlow(ss: seq<Site>, moves: seq<Move>, n: nat)
    requires Story(ss, moves) && n < |moves| && n + 1 < |ss| && !moves[n].Elsewhere?
    ensures Drawn(ss[n].w, Later(ss[n + 1].w, ss[n].w.db.now))
  {
    assert Chat.Moves(ss[n], moves[n], ss[n + 1]);
    hide Story, Make, Possible;
    MoveDraws(ss[n], moves[n]);
  }

  lemma MoveExtends(s: Site, move: Move, s': Site)
    requires SInv(s) && Chat.Moves(s, move, s')
    ensures Extends(s.w, s'.w)
  {
    SiteTables(s);
    hide SInv, WInv, Extends;
    if move.Elsewhere? {
      hide Perform, Permitted;
      StepExtends(s.w, move.step, s'.w) by { assert Transition(s.w, move.step, s'.w); }
    } else {
      MoveDraws(s, move);
      hide Make, Possible;
      var w := Make(s, move).w;
      DrawnExtends(s.w, w);
      ExtendsItself(w, s'.w.db.now);
      ExtendsOn(s.w, w, s'.w);
    }
  }

  /** How a call comes to be about to insert, or about to answer. */
  predicate Arrives(s: Site, move: Move, caller: Caller, c: nat) {
    c in s.callers && s.callers[c].request == caller.request
    && var q := caller.request;
       || (move == LookMove(c) && caller.phase == Inserting && InContext(s.w, q.app, q.conversation, q.hr))
       || (move == InsertMove(c) && s.callers[c].phase == Inserting
           && caller.phase == Answering(s.w.db.next + 1, PendingQuery(s.turns, q.conversation), GapFor(s.w, q.app)))
  }

  predicate Waiting(caller: Caller) {
    caller.phase.Inserting? || caller.phase.Answering?
  }

  predicate SameOrArrives(s: Site, move: Move, s': Site, c: nat) {
    c in s'.callers && Waiting(s'.callers[c]) ==>
      (c in s.callers && s.callers[c] == s'.callers[c]) || Arrives(s, move, s'.callers[c], c)
  }

  lemma LookArrives(s: Site, c0: nat, c: nat)
    requires c0 in s.callers
    ensures SameOrArrives(s, LookMove(c0), Look(s, c0), c) && SameOrArrives(s, RereadMove(c0), Reread(s, c0), c)
  {
    hide InContext;
  }

  lemma InsertArrives(s: Site, c0: nat, c: nat)
    requires c0 in s.callers && s.callers[c0].phase == Inserting
    ensures SameOrArrives(s, InsertMove(c0), Insert(s, c0), c)
  {
    hide InContext, PendingQuery, GapFor, KeyTaken;
  }

  lemma CallersArrive(s: Site, move: Move, c: nat)
    requires Possible(s, move)
    ensures SameOrArrives(s, move, Make(s, move), c)
  {
    hide Perform, Look, Reread, Insert, Answer, StartProactive;
    match move {
      case Elsewhere(step) =>
      case OpenMove(request) =>
      case LookMove(c0) => LookArrives(s, c0, c);
      case InsertMove(c0) => InsertArrives(s, c0, c);
      case RereadMove(c0) => LookArrives(s, c0, c);
      case AnswerMove(c0, document) => AnswerKeepsOthers(s, c0, document);
      case FailMove(c0) =>
      case RecoverMove(c0) =>
      case PollMove(c0) =>
      case LeaveMove(c0) =>
      case ProactiveMove(app, conversation, hr) => AskingKeepsCalls(s, app, conversation, hr);
    }
  }

  lemma ArrivesGrounded(s: Site, move: Move, caller: Caller, c: nat)
    requires SInv(s) && AllGrounded(s) && Arrives(s, move, caller, c)
    ensures Grounded(s.w, s.turns, caller)
  {
    hide SInv;
    var q := caller.request;
    assert Grounded(s.w, s.turns, s.callers[c]);
    GapIsTheQuestion(s.w, q.app);
    PendingIs(s.turns, q.conversation);
    hide GapFor, PendingQuery, Question;
  }

  lemma MoveKeepsGrounded(s: Site, move: Move, s': Site)
    requires SInv(s) && AllGrounded(s) && Chat.Moves(s, move, s')
    ensures AllGrounded(s')
  {
    MoveExtends(s, move, s');
    MoveKeepsTurns(s, move);
    SiteTables(s);
    hide SInv, WInv, Extends, TurnsKept, Possible, Make, Grounded, Arrives, Waiting;
    forall c | c in s'.callers ensures Grounded(s'.w, s'.turns, s'.callers[c]) {
      CallersArrive(s, move, c);
      if Waiting(s'.callers[c]) {
        if Arrives(s, move, s'.callers[c], c) { ArrivesGrounded(s, move, s'.callers[c], c); }
        GroundedStays(s.w, s'.w, s.turns, s'.turns, s'.callers[c]);
      } else {
        IdleIsGrounded(s'.w, s'.turns, s'.callers[c]);
      }
    }
  }

  lemma IdleIsGrounded(w: World, turns: map<nat, Turn>, caller: Caller)
    requires !Waiting(caller)
    ensures Grounded(w, turns, caller)
  {}

  lemma {:induction false} StoryGrounded(ss: seq<Site>, moves: seq<Move>, n: nat)
    requires Story(ss, moves) && n < |ss|
    ensures AllGrounded(ss[n])
  {
    hide SInv, Possible, Make, AllGrounded;
    if n == 0 {
      NobodyCalls();
    } else {
      StoryGrounded(ss, moves, n - 1);
      StoryKeeps(ss, moves, n - 1);
      assert Chat.Moves(ss[n - 1], moves[n - 1], ss[n]);
      MoveKeepsGrounded(ss[n - 1], moves[n - 1], ss[n]);
    }
  }

  lemma NobodyCalls()
    ensures AllGrounded(Quiet)
  {}

  /** An answer is judged against the very condition that was asked in its conversation,
      whatever happened in between. */
  lemma JudgedAgainstTheQuestion(ss: seq<Site>, moves: seq<Move>, n: nat, c: nat)
    requires Story(ss, moves) && n < |ss| && c in ss[n].callers && ss[n].callers[c].phase.Answering?
    requires var Answering(t, query, gap) := ss[n].callers[c].phase;
      gap.Some? && t in ss[n].turns && ss[n].turns[t].scene == GoalJudgement
    ensures var Answering(t, query, gap) := ss[n].callers[c].phase; var q := ss[n].callers[c].request;
      query.Some? && query.value in ss[n].turns && ss[n].turns[query.value].key == Proactive(q.app, q.conversation, gap.value.condition)
  {
    StoryKeeps(ss, moves, n);
    StoryGrounded(ss, moves, n);
    var s := ss[n];
    SiteTables(s);
    BusyHolds(s, c);
    var query := s.callers[c].phase.query.value;
    RowOk(s, query);
    hide Story, SInv, WInv, Question, Sourced, Resulted, Delivered, CallersOk, TurnsOk, HrUnique, KeysUnique;
    assert AskedFrom(s.w, s.turns[query]);
    assert Grounded(s.w, s.turns, s.callers[c]);
  }
}
