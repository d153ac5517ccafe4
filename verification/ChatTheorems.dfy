/** The main results about conversations. */
module ChatTheorems {
  import opened Common
  import opened Tasks
  import opened AgentFlow
  import opened AgentInvariant
  import opened GoalGap
  import opened Chat
  import opened ChatInvariant

  // ----- at most one reply --------------------------------------------------

  ghost predicate OnlyTurnFor(turns: map<nat, Turn>, m: nat, t: nat) {
    t in turns && turns[t].source == Some(m) && forall u :: u in turns && turns[u].source == Some(m) ==> u == t
  }

  ghost predicate OnlyResultOf(turns: map<nat, Turn>, m: nat, t: nat) {
    t in turns && turns[t].result == Some(m) && forall u :: u in turns && turns[u].result == Some(m) ==> u == t
  }

  ghost predicate OnlyAttachmentOf(attachments: map<nat, Attachment>, m: nat, a: nat) {
    a in attachments && attachments[a].message == m && forall b :: b in attachments && attachments[b].message == m ==> b == a
  }

  lemma SourceIsUnique(messages: map<nat, Message>, turns: map<nat, Turn>, m: nat)
    requires Sourced(messages, turns) && KeysUnique(turns) && m in messages && messages[m].sender == HrSender
    ensures exists t :: OnlyTurnFor(turns, m, t)
  {
    assert HasTurn(turns, m);
    var t :| t in turns && turns[t].source == Some(m);
    forall u | u in turns && turns[u].source == Some(m) ensures u == t {
      assert SourceOk(messages, turns[t]) && SourceOk(messages, turns[u]);
    }
    assert OnlyTurnFor(turns, m, t);
  }

  lemma ResultIsUnique(messages: map<nat, Message>, turns: map<nat, Turn>, m: nat)
    requires Resulted(messages, turns) && m in messages && messages[m].sender == AgentSender
    ensures exists t :: OnlyResultOf(turns, m, t)
  {
    assert IsResult(turns, m);
    var t :| t in turns && turns[t].result == Some(m);
    assert OnlyResultOf(turns, m, t);
  }

  lemma AttachmentIsUnique(turns: map<nat, Turn>, attachments: map<nat, Attachment>, t: nat)
    requires Delivered(turns, attachments) && t in turns && turns[t].outcome == Some(AttachmentSent)
    requires turns[t].result.Some?
    ensures exists a :: OnlyAttachmentOf(attachments, turns[t].result.value, a)
  {
    assert HasAttachment(attachments, turns[t].result.value);
    var a :| a in attachments && attachments[a].message == turns[t].result.value;
    assert OnlyAttachmentOf(attachments, turns[t].result.value, a);
  }

  /** However calls interleave: one HR message per client id, one turn per HR message,
      every agent message the result of exactly one turn, and a turn that sent an
      attachment has exactly one. */
  lemma AtMostOneReply(ss: seq<Site>, moves: seq<Move>, n: nat)
    requires Story(ss, moves) && n < |ss|
    ensures forall m, k :: m in ss[n].messages && k in ss[n].messages && m != k && ss[n].messages[m].sender == HrSender ==>
      ss[n].messages[m] != ss[n].messages[k]
    ensures forall m :: m in ss[n].messages && ss[n].messages[m].sender == HrSender ==> exists t :: OnlyTurnFor(ss[n].turns, m, t)
    ensures forall m :: m in ss[n].messages && ss[n].messages[m].sender == AgentSender ==> exists t :: OnlyResultOf(ss[n].turns, m, t)
    ensures forall t :: t in ss[n].turns && ss[n].turns[t].outcome == Some(AttachmentSent) ==>
      ss[n].turns[t].result.Some? && exists a :: OnlyAttachmentOf(ss[n].attachments, ss[n].turns[t].result.value, a)
  {
    StoryKeeps(ss, moves, n);
    var s := ss[n];
    SiteTables(s);
    hide SInv, Story, Sourced, Resulted, Delivered, CallersOk, Asked, TurnsOk;
    forall m | m in s.messages && s.messages[m].sender == HrSender ensures exists t :: OnlyTurnFor(s.turns, m, t) {
      SourceIsUnique(s.messages, s.turns, m);
    }
    forall m | m in s.messages && s.messages[m].sender == AgentSender ensures exists t :: OnlyResultOf(s.turns, m, t) {
      ResultIsUnique(s.messages, s.turns, m);
    }
    forall t | t in s.turns && s.turns[t].outcome == Some(AttachmentSent)
      ensures s.turns[t].result.Some? && exists a :: OnlyAttachmentOf(s.attachments, s.turns[t].result.value, a)
    {
      RowOk(s, t);
      AttachmentIsUnique(s.turns, s.attachments, t);
    }
  }

  lemma SiteTables(s: Site)
    requires SInv(s)
    ensures KeysUnique(s.turns) && HrUnique(s.messages) && Sourced(s.messages, s.turns) && Resulted(s.messages, s.turns)
    ensures Delivered(s.turns, s.attachments) && CallersOk(s.callers, s.turns) && Asked(s.w, s.turns)
    ensures TurnsOk(s.turns)
    ensures WInv(s.w)
  {}

  lemma RowOk(s: Site, t: nat)
    requires TurnsOk(s.turns) && t in s.turns
    ensures TurnOk(s.turns[t])
  {}

  // ----- only the inserting call answers ------------------------------------

  /** The call that inserted is alone with its turn; the turn is unfinished whenever it
      comes to write, so its write always takes effect and closes the turn. */
  lemma InserterAnswersAlone(ss: seq<Site>, moves: seq<Move>, n: nat, c: nat)
    requires Story(ss, moves) && n < |ss| && c in ss[n].callers && Busy(ss[n].callers[c].phase)
    ensures var t := ss[n].callers[c].phase.turn;
      && t in ss[n].turns && ss[n].turns[t].status == TurnProcessing && ss[n].turns[t].result.None?
      && ss[n].turns[t].key == Inbound(ss[n].callers[c].request.conversation, ss[n].callers[c].request.client)
      && (forall d :: d in ss[n].callers && d != c && Busy(ss[n].callers[d].phase) ==> ss[n].callers[d].phase.turn != t)
      && (ss[n].callers[c].phase.Answering? ==> forall document ::
            t in Answer(ss[n], c, document).turns && Answer(ss[n], c, document).turns[t].status == TurnCompleted)
  {
    StoryKeeps(ss, moves, n);
    var s := ss[n];
    BusyHolds(s, c);
    SiteTables(s);
    hide SInv, Story, Sourced, Resulted, Delivered, Asked, TurnsOk, HrUnique, KeysUnique;
    var t := s.callers[c].phase.turn;
    if s.callers[c].phase.Answering? {
      forall document ensures t in Answer(s, c, document).turns && Answer(s, c, document).turns[t].status == TurnCompleted {
        AnswerCloses(s, c, document);
      }
    }
  }

  lemma AnswerCloses(s: Site, c: nat, document: Option<nat>)
    requires c in s.callers && s.callers[c].phase.Answering? && WorkedBy(s, c, s.callers[c].phase.turn)
    requires CallerOk(s.callers[c], s.turns)
    ensures var t := s.callers[c].phase.turn; t in Answer(s, c, document).turns && Answer(s, c, document).turns[t].status == TurnCompleted
  {
    hide Polarity;
  }

  /** A call becomes responsible for a turn in one way only: by inserting it. */
  lemma OnlyInsertMakesBusy(s: Site, move: Move, s': Site, c: nat)
    requires SInv(s) && Chat.Moves(s, move, s') && c in s'.callers && Busy(s'.callers[c].phase)
    ensures if c in s.callers && Busy(s.callers[c].phase) then s'.callers[c].phase.turn == s.callers[c].phase.turn
            else move == InsertMove(c) && s'.callers[c].phase.turn !in s.turns && s'.callers[c].phase.turn in s'.turns
  {
    BusyAfter(s, move, c);
  }

  predicate BusyFrom(s: Site, move: Move, s': Site, c: nat) {
    c in s'.callers && Busy(s'.callers[c].phase) ==>
      if c in s.callers && Busy(s.callers[c].phase) then s'.callers[c].phase.turn == s.callers[c].phase.turn
      else move == InsertMove(c) && s'.callers[c].phase.turn !in s.turns && s'.callers[c].phase.turn in s'.turns
  }

  /** Reading, polling and leaving make nobody responsible. */
  predicate NobodyNew(s: Site, s': Site, c: nat) {
    c in s'.callers && Busy(s'.callers[c].phase) ==>
      c in s.callers && Busy(s.callers[c].phase) && s'.callers[c].phase.turn == s.callers[c].phase.turn
  }

  lemma ReadingIsQuiet(s: Site, c0: nat, c: nat)
    requires c0 in s.callers
    ensures NobodyNew(s, Look(s, c0), c) && NobodyNew(s, Reread(s, c0), c)
  {
    hide InContext;
  }

  lemma LeavingIsQuiet(s: Site, c0: nat, document: Option<nat>, c: nat)
    requires c0 in s.callers
    ensures NobodyNew(s, Return(s, c0), c)
    ensures s.callers[c0].phase.Answering? ==> NobodyNew(s, Answer(s, c0, document), c)
    ensures s.callers[c0].phase.Answering? ==> NobodyNew(s, SetPhase(s, c0, Recovering(s.callers[c0].phase.turn)), c)
    ensures s.callers[c0].phase.Recovering? ==> NobodyNew(s, Recover(s, c0), c)
    ensures s.callers[c0].phase.Watching? ==> NobodyNew(s, Poll(s, c0), c)
  {
    hide Answer;
    if s.callers[c0].phase.Answering? { AnswerKeepsOthers(s, c0, document); }
  }

  lemma OpeningIsQuiet(s: Site, request: Request, c: nat)
    requires s.w.db.next !in s.callers
    ensures NobodyNew(s, Open(s, request), c)
  {}

  lemma AskingIsQuiet(s: Site, app: nat, conversation: nat, hr: nat, c: nat)
    ensures NobodyNew(s, StartProactive(s, app, conversation, hr), c)
  {
    hide InContext, GapFor, KeyTaken;
  }

  lemma InsertingIsNot(s: Site, c0: nat, c: nat)
    requires c0 in s.callers && s.w.db.next + 1 !in s.turns && s.callers[c0].phase == Inserting
    ensures BusyFrom(s, InsertMove(c0), Insert(s, c0), c)
  {
    hide PendingQuery, GapFor, KeyTaken;
  }

  lemma BusyAfter(s: Site, move: Move, c: nat)
    requires SInv(s) && Possible(s, move)
    ensures BusyFrom(s, move, Make(s, move), c)
  {
    hide SInv, ChatIds, Perform, Look, Reread, Insert, Answer, Recover, Poll, StartProactive, Open;
    IdsOf(s);
    FreshRows(s);
    match move {
      case Elsewhere(step) =>
      case OpenMove(request) => OpeningIsQuiet(s, request, c);
      case LookMove(c0) => ReadingIsQuiet(s, c0, c);
      case InsertMove(c0) => InsertingIsNot(s, c0, c);
      case RereadMove(c0) => ReadingIsQuiet(s, c0, c);
      case AnswerMove(c0, document) => LeavingIsQuiet(s, c0, document, c);
      case FailMove(c0) => LeavingIsQuiet(s, c0, None, c);
      case RecoverMove(c0) => LeavingIsQuiet(s, c0, None, c);
      case PollMove(c0) => LeavingIsQuiet(s, c0, None, c);
      case LeaveMove(c0) =>
      case ProactiveMove(app, conversation, hr) => AskingIsQuiet(s, app, conversation, hr, c);
    }
  }

  lemma IdsOf(s: Site)
    requires SInv(s)
    ensures ChatIds(s)
  {}

  lemma AnswerKeepsOthers(s: Site, c: nat, document: Option<nat>)
    requires c in s.callers && s.callers[c].phase.Answering?
    ensures Answer(s, c, document).callers == s.callers - {c}
  {
    hide Conclude;
    var Answering(t, query, gap) := s.callers[c].phase;
    if t in s.turns { ConcludeKeepsCallers(s, t, query, gap, s.callers[c].request.content, document); }
  }

  lemma ConcludeKeepsCallers(s: Site, t: nat, query: Option<nat>, gap: Option<Gap>, content: string,
        document: Option<nat>)
    requires t in s.turns
    ensures Conclude(s, t, query, gap, content, document).callers == s.callers
  {
    hide Polarity;
  }

  // ----- results are final --------------------------------------------------

  ghost predicate TurnsKept(turns: map<nat, Turn>, turns': map<nat, Turn>) {
    forall t :: t in turns ==>
      && t in turns' && SameTurn(turns[t], turns'[t])
      && (turns[t].result.Some? ==> turns'[t].result == turns[t].result)
  }

  lemma TurnKept(turns: map<nat, Turn>, t: nat, turn: Turn)
    requires t in turns ==> SameTurn(turns[t], turn) && (turns[t].result.Some? ==> turn.result == turns[t].result)
    ensures TurnsKept(turns, turns[t := turn])
  {}

  lemma TurnsKeptOn(u: map<nat, Turn>, v: map<nat, Turn>, w: map<nat, Turn>)
    requires TurnsKept(u, v) && TurnsKept(v, w)
    ensures TurnsKept(u, w)
  {
    assert forall t :: t in u ==> SameTurn(u[t], v[t]) && SameTurn(v[t], w[t]);
  }

  lemma RepliesKeepTurns(s: Site, t: nat, status: TurnStatus, outcome: TurnOutcome, document: nat)
    requires t in s.turns && s.turns[t].result.None?
    ensures TurnsKept(s.turns, AddAgentMessage(s, t, status, outcome).turns)
    ensures TurnsKept(s.turns, Attach(s, t, document).turns)
  {}

  lemma ClosingKeepsTurns(s: Site, t: nat, status: TurnStatus, outcome: TurnOutcome)
    requires t in s.turns
    ensures TurnsKept(s.turns, SetTurn(s, t, status, outcome).turns)
  {}

  lemma JudgeKeepsTurns(s: Site, t: nat, q: nat, gap: Option<Gap>, content: string)
    requires t in s.turns && q in s.turns && s.turns[t].result.None?
    ensures TurnsKept(s.turns, Judge(s, t, q, gap, content).turns)
  {
    hide Polarity, TurnsKept;
    var answer := Polarity(content);
    if s.turns[t].status == TurnCompleted {
      AllKept(s.turns);
    } else if gap.None? || answer.None? {
      var s1 := SetTurn(s, t, TurnCompleted, PendingAnswer);
      ClosingKeepsTurns(s, t, TurnCompleted, PendingAnswer);
      ClosingKeepsTurns(s1, q, TurnWaiting, PendingAnswer);
      TurnsKeptOn(s.turns, s1.turns, SetTurn(s1, q, TurnWaiting, PendingAnswer).turns);
    } else {
      var outcome := if answer.value == gap.value.stopOnYes then StopOutcome else ContinueOutcome;
      var s1 := AddAgentMessage(s, t, TurnCompleted, outcome);
      RepliesKeepTurns(s, t, TurnCompleted, outcome, 0);
      ClosingKeepsTurns(s1, q, TurnCompleted, outcome);
      TurnsKeptOn(s.turns, s1.turns, SetTurn(s1, q, TurnCompleted, outcome).turns);
    }
  }

  lemma ConcludeKeepsTurns(s: Site, t: nat, query: Option<nat>, gap: Option<Gap>, content: string,
        document: Option<nat>)
    requires t in s.turns && s.turns[t].result.None?
    ensures TurnsKept(s.turns, Conclude(s, t, query, gap, content, document).turns)
  {
    hide Judge, TurnsKept, Attach, AddAgentMessage;
    AllKept(s.turns);
    RepliesKeepTurns(s, t, TurnCompleted, DocumentNotFound, if document.Some? then document.value else 0);
    RepliesKeepTurns(s, t, TurnCompleted, MessageSent, 0);
    if query.Some? && query.value in s.turns { JudgeKeepsTurns(s, t, query.value, gap, content); }
  }

  lemma ReadingKeepsTurns(s: Site, c: nat)
    requires c in s.callers
    ensures Look(s, c).turns == s.turns && Reread(s, c).turns == s.turns
  {
    hide InContext;
  }

  lemma InsertKeepsTurns(s: Site, c: nat)
    requires c in s.callers && s.w.db.next + 1 !in s.turns
    ensures TurnsKept(s.turns, Insert(s, c).turns)
  {
    hide PendingQuery, GapFor, KeyTaken, TurnsKept;
    AllKept(s.turns);
    TurnKept(s.turns, s.w.db.next + 1, InboundTurn(s, c));
  }

  lemma AskingKeepsTurns(s: Site, app: nat, conversation: nat, hr: nat)
    requires s.w.db.next !in s.turns
    ensures TurnsKept(s.turns, StartProactive(s, app, conversation, hr).turns)
  {
    hide InContext, GapFor, KeyTaken;
  }

  lemma MoveKeepsTurns(s: Site, move: Move)
    requires SInv(s) && Possible(s, move)
    ensures TurnsKept(s.turns, Make(s, move).turns)
  {
    hide SInv, ChatIds, Perform, Conclude, Look, Reread, Insert, StartProactive, TurnsKept;
    IdsOf(s);
    FreshRows(s);
    AllKept(s.turns);
    match move {
      case LookMove(c) => ReadingKeepsTurns(s, c);
      case RereadMove(c) => ReadingKeepsTurns(s, c);
      case InsertMove(c) => InsertKeepsTurns(s, c);
      case AnswerMove(c, document) =>
        BusyHolds(s, c);
        var Answering(t, query, gap) := s.callers[c].phase;
        ConcludeKeepsTurns(s, t, query, gap, s.callers[c].request.content, document);
      case RecoverMove(c) =>
        BusyHolds(s, c);
        ClosingKeepsTurns(s, s.callers[c].phase.turn, TurnFailed, AttachmentFailed);
      case ProactiveMove(app, conversation, hr) => AskingKeepsTurns(s, app, conversation, hr);
      case Elsewhere(step) =>
      case OpenMove(request) =>
      case FailMove(c) =>
      case PollMove(c) =>
      case LeaveMove(c) =>
    }
  }

  /** Once a turn has its result message, it keeps it for ever. */
  lemma {:induction false} ResultsAreFinal(ss: seq<Site>, moves: seq<Move>, i: nat, j: nat)
    requires Story(ss, moves) && i <= j < |ss|
    ensures TurnsKept(ss[i].turns, ss[j].turns)
  {
    hide SInv, Possible, Make, TurnsKept;
    if i < j {
      ResultsAreFinal(ss, moves, i, j - 1);
      StoryKeeps(ss, moves, j - 1);
      assert Chat.Moves(ss[j - 1], moves[j - 1], ss[j]);
      MoveKeepsTurns(ss[j - 1], moves[j - 1]);
      TurnsKeptOn(ss[i].turns, ss[j - 1].turns, ss[j].turns);
    } else {
      AllKept(ss[i].turns);
    }
  }

  lemma AllKept(turns: map<nat, Turn>)
    ensures TurnsKept(turns, turns)
  {}

  // ----- one proactive question ---------------------------------------------

  /** At most one goal question is ever asked in a conversation: the goal is locked and
      the snapshot frozen, so the signature can only take one value. */
  lemma OneQuestionPerConversation(ss: seq<Site>, moves: seq<Move>, n: nat, t: nat, u: nat)
    requires Story(ss, moves) && n < |ss| && t in ss[n].turns && u in ss[n].turns
    requires ss[n].turns[t].scene == GoalQuery && ss[n].turns[u].scene == GoalQuery
    requires ss[n].turns[t].conversation == ss[n].turns[u].conversation
    ensures t == u
  {
    StoryKeeps(ss, moves, n);
    var s := ss[n];
    SiteTables(s);
    RowOk(s, t);
    RowOk(s, u);
    hide SInv, Story, Sourced, Resulted, Delivered, CallersOk, TurnsOk, HrUnique, Question, WInv;
    assert AskedFrom(s.w, s.turns[t]) && AskedFrom(s.w, s.turns[u]);
  }

  /** A further request therefore changes nothing once the question was asked. */
  lemma AskingAgainChangesNothing(ss: seq<Site>, moves: seq<Move>, n: nat, t: nat, app: nat, hr: nat)
    requires Story(ss, moves) && n < |ss| && t in ss[n].turns && ss[n].turns[t].scene == GoalQuery
    ensures StartProactive(ss[n], app, ss[n].turns[t].conversation, hr) == ss[n]
  {
    StoryKeeps(ss, moves, n);
    var s := ss[n];
    SiteTables(s);
    RowOk(s, t);
    GapIsTheQuestion(s.w, app);
    hide SInv, Story, Sourced, Resulted, Delivered, CallersOk, TurnsOk, HrUnique, Question, WInv, GapFor;
    assert AskedFrom(s.w, s.turns[t]);
    if InContext(s.w, app, s.turns[t].conversation, hr) && GapFor(s.w, app).Some? {
      assert s.turns[t].key == Proactive(app, s.turns[t].conversation, GapFor(s.w, app).value.condition);
      assert KeyTaken(s.turns, s.turns[t].key);
    }
  }
}
