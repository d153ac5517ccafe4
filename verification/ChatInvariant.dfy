/** What every move of the conversations keeps. */
module ChatInvariant {
  import opened Common
  import opened Tasks
  import TaskFrame
  import TaskInvariant
  import opened AgentFlow
  import opened AgentInvariant
  import opened AgentFacts
  import opened GoalGap
  import opened Chat

  // ----- rows ---------------------------------------------------------------

  predicate TurnOk(turn: Turn) {
    && (turn.source.None? <==> turn.scene == GoalQuery) && (turn.key.Proactive? <==> turn.scene == GoalQuery)
    && turn.key.conversation == turn.conversation
    && (turn.status == TurnProcessing ==> turn.scene != GoalQuery && turn.result.None?)
    && (turn.status == TurnProcessing <==> turn.outcome.None?)
    && (turn.status == TurnWaiting ==> turn.scene == GoalQuery)
    && (turn.scene == GoalQuery ==> turn.result.Some?)
    && (turn.outcome == Some(AttachmentSent) ==> turn.status == TurnCompleted && turn.result.Some? && turn.scene != GoalQuery)
  }

  ghost predicate TurnsOk(turns: map<nat, Turn>) {
    forall t :: t in turns ==> TurnOk(turns[t])
  }

  ghost predicate KeysUnique(turns: map<nat, Turn>) {
    forall t, u :: t in turns && u in turns && t != u ==> turns[t].key != turns[u].key
  }

  ghost predicate HrUnique(messages: map<nat, Message>) {
    && (forall m :: m in messages ==> (messages[m].sender == HrSender <==> messages[m].client.Some?))
    && (forall m, n :: m in messages && n in messages && m != n && messages[m].sender == HrSender ==> messages[m] != messages[n])
  }

  ghost predicate HasTurn(turns: map<nat, Turn>, m: nat) {
    exists t :: t in turns && turns[t].source == Some(m)
  }

  /** An inbound message and its turn carry the same key. */
  predicate SourceOk(messages: map<nat, Message>, turn: Turn) {
    turn.source.Some? ==>
      && turn.source.value in messages && messages[turn.source.value].sender == HrSender
      && messages[turn.source.value].client.Some?
      && turn.conversation == messages[turn.source.value].conversation
      && turn.key == Inbound(turn.conversation, messages[turn.source.value].client.value)
  }

  ghost predicate Sourced(messages: map<nat, Message>, turns: map<nat, Turn>) {
    && (forall t :: t in turns ==> SourceOk(messages, turns[t]))
    && (forall m :: m in messages && messages[m].sender == HrSender ==> HasTurn(turns, m))
  }

  ghost predicate IsResult(turns: map<nat, Turn>, m: nat) {
    exists t :: t in turns && turns[t].result == Some(m)
  }

  predicate ResultOk(messages: map<nat, Message>, turn: Turn) {
    turn.result.Some? ==>
      turn.result.value in messages && messages[turn.result.value] == Message(turn.conversation, AgentSender, None)
  }

  ghost predicate Resulted(messages: map<nat, Message>, turns: map<nat, Turn>) {
    && (forall t :: t in turns ==> ResultOk(messages, turns[t]))
    && (forall t, u :: t in turns && u in turns && t != u && turns[t].result.Some? ==> turns[t].result != turns[u].result)
    && (forall m :: m in messages && messages[m].sender == AgentSender ==> IsResult(turns, m))
  }

  ghost predicate HasAttachment(attachments: map<nat, Attachment>, m: nat) {
    exists a :: a in attachments && attachments[a].message == m
  }

  ghost predicate SentBy(turns: map<nat, Turn>, m: nat) {
    exists t :: t in turns && turns[t].outcome == Some(AttachmentSent) && turns[t].result == Some(m)
  }

  ghost predicate Delivered(turns: map<nat, Turn>, attachments: map<nat, Attachment>) {
    && (forall t :: t in turns && turns[t].outcome == Some(AttachmentSent) && turns[t].result.Some? ==>
          HasAttachment(attachments, turns[t].result.value))
    && (forall a, b :: a in attachments && b in attachments && a != b ==> attachments[a].message != attachments[b].message)
    && (forall a :: a in attachments ==> SentBy(turns, attachments[a].message))
  }

  // ----- calls --------------------------------------------------------------

  /** The call that inserted a turn and has not finished it. */
  predicate Busy(phase: Phase) {
    phase.Answering? || phase.Recovering?
  }

  predicate CallerOk(caller: Caller, turns: map<nat, Turn>) {
    && (Busy(caller.phase) ==>
          caller.phase.turn in turns && turns[caller.phase.turn].status == TurnProcessing
          && turns[caller.phase.turn].key == Inbound(caller.request.conversation, caller.request.client))
    && (caller.phase.Answering? && caller.phase.turn in turns && turns[caller.phase.turn].scene == GoalJudgement ==>
          caller.phase.query.Some? && caller.phase.query.value in turns && turns[caller.phase.query.value].scene == GoalQuery)
    && (caller.phase.Watching? ==> caller.phase.turn in turns && turns[caller.phase.turn].source.Some?)
  }

  ghost predicate CallersOk(callers: map<nat, Caller>, turns: map<nat, Turn>) {
    && (forall c :: c in callers ==> CallerOk(callers[c], turns))
    && (forall c, d :: c in callers && d in callers && c != d && Busy(callers[c].phase) && Busy(callers[d].phase) ==>
          callers[c].phase.turn != callers[d].phase.turn)
  }

  // ----- the proactive question ---------------------------------------------

  /** The question the goal and the job have in them, whether or not the goal is still
      active. */
  function Question(w: World, app: nat): Option<Gap> {
    if app in w.apps && w.apps[app].run in w.runs && w.runs[w.apps[app].run].goal in w.goals
    then FindGap(true, w.goals[w.runs[w.apps[app].run].goal].filters, SnapshotOf(w, w.apps[app].job))
    else None
  }

  predicate AskedFrom(w: World, turn: Turn) {
    turn.key.Proactive? ==>
      && turn.conversation in w.conversations && w.conversations[turn.conversation] == turn.key.app && turn.key.app in w.apps
      && Question(w, turn.key.app).Some? && turn.key.signature == Question(w, turn.key.app).value.condition
  }

  ghost predicate Asked(w: World, turns: map<nat, Turn>) {
    forall t :: t in turns ==> AskedFrom(w, turns[t])
  }

  ghost predicate ChatIds(s: Site) {
    && (forall m :: m in s.messages ==> m < s.w.db.next)
    && (forall t :: t in s.turns ==> t < s.w.db.next)
    && (forall a :: a in s.attachments ==> a < s.w.db.next)
    && (forall c :: c in s.callers ==> c < s.w.db.next)
  }

  ghost predicate SInv(s: Site) {
    && WInv(s.w) && ChatIds(s)
    && TurnsOk(s.turns) && KeysUnique(s.turns) && HrUnique(s.messages)
    && Sourced(s.messages, s.turns) && Resulted(s.messages, s.turns) && Delivered(s.turns, s.attachments)
    && CallersOk(s.callers, s.turns) && Asked(s.w, s.turns)
  }

  // ----- the agent flow moves on --------------------------------------------

  lemma QuestionIsFrozen(w: World, w': World, app: nat)
    requires WInv(w) && Extends(w, w') && app in w.apps
    ensures Question(w', app) == Question(w, app) && app in w'.apps
  {
    AppRun(w, app);
    Tables(w);
    hide WInv, Goals, RunGoals, GoalsReached, RunsBacked, Matches, Apps, Talks, Log, Outcomes, TaskInvariant.Inv;
    assert SameApp(w.apps[app], w'.apps[app]);
    var run := w.apps[app].run;
    assert SameBasis(w.runs[run], w'.runs[run]);
    assert SameTerms(w.goals[w.runs[run].goal], w'.goals[w.runs[run].goal]);
    assert w.matches[w.apps[app].match_].job == w.apps[app].job;
  }

  lemma AskedStays(w: World, w': World, turns: map<nat, Turn>)
    requires WInv(w) && Extends(w, w') && Asked(w, turns)
    ensures Asked(w', turns)
  {
    hide WInv, Extends, Question;
    forall t | t in turns && turns[t].key.Proactive? ensures AskedFrom(w', turns[t]) {
      assert AskedFrom(w, turns[t]);
      TalkStays(w, w', turns[t].conversation);
      QuestionIsFrozen(w, w', turns[t].key.app);
    }
  }

  lemma TalkStays(w: World, w': World, c: nat)
    requires Extends(w, w') && c in w.conversations
    ensures c in w'.conversations && w'.conversations[c] == w.conversations[c]
  {}

  lemma ElsewhereKeeps(s: Site, step: WorldStep, w': World)
    requires SInv(s) && Transition(s.w, step, w')
    ensures SInv(s.(w := w'))
  {
    hide WInv, Transition, Extends, TurnsOk, KeysUnique, HrUnique, Sourced, Resulted, Delivered, CallersOk, Asked;
    StepKeeps(s.w, step, w');
    StepExtends(s.w, step, w');
    AskedStays(s.w, w', s.turns);
    IdsGrow(s.w, w');
  }

  lemma IdsGrow(w: World, w': World)
    requires Extends(w, w')
    ensures w.db.next <= w'.db.next
  {}

  lemma Drawn(w: World, n: nat)
    requires WInv(w)
    ensures WInv(Draw(w, n)) && forall turns :: Asked(w, turns) ==> Asked(Draw(w, n), turns)
  {
    hide TaskInvariant.Inv, Goals, RunGoals, GoalsReached, RunsBacked, Matches, MatchJobs, Apps, Talks, Log, Outcomes;
    TaskFrame.IdsDrawn(w.db, w.db.next + n, w.db.now);
    assert w.db.(next := w.db.next + n, now := w.db.now) == Draw(w, n).db;
    forall turns | Asked(w, turns) ensures Asked(Draw(w, n), turns) {
      forall t | t in turns ensures AskedFrom(Draw(w, n), turns[t]) {
        assert AskedFrom(w, turns[t]);
      }
    }
  }

  // ----- calls that write nothing -------------------------------------------

  lemma PhaseChanges(callers: map<nat, Caller>, turns: map<nat, Turn>, c: nat, phase: Phase)
    requires CallersOk(callers, turns) && c in callers && CallerOk(callers[c].(phase := phase), turns)
    requires Busy(phase) ==> forall d :: d in callers && d != c && Busy(callers[d].phase) ==> callers[d].phase.turn != phase.turn
    ensures CallersOk(callers[c := callers[c].(phase := phase)], turns)
  {}

  lemma CallerLeaves(callers: map<nat, Caller>, turns: map<nat, Turn>, c: nat)
    requires CallersOk(callers, turns)
    ensures CallersOk(callers - {c}, turns)
  {}

  lemma IdsWithin(s: Site, s': Site)
    requires ChatIds(s) && s'.w.db.next >= s.w.db.next
    requires forall m :: m in s'.messages ==> m in s.messages || s.w.db.next <= m < s'.w.db.next
    requires forall t :: t in s'.turns ==> t in s.turns || s.w.db.next <= t < s'.w.db.next
    requires forall a :: a in s'.attachments ==> a in s.attachments || s.w.db.next <= a < s'.w.db.next
    requires forall c :: c in s'.callers ==> c in s.callers || s.w.db.next <= c < s'.w.db.next
    ensures ChatIds(s')
  {}

  lemma PhaseKeeps(s: Site, c: nat, phase: Phase)
    requires SInv(s) && c in s.callers && !Busy(phase) && CallerOk(s.callers[c].(phase := phase), s.turns)
    ensures SInv(SetPhase(s, c, phase))
  {
    hide WInv, TurnsOk, KeysUnique, HrUnique, Sourced, Resulted, Delivered, CallersOk, Asked, CallerOk;
    PhaseChanges(s.callers, s.turns, c, phase);
  }

  lemma ReturnKeeps(s: Site, c: nat)
    requires SInv(s)
    ensures SInv(Return(s, c))
  {
    hide WInv, TurnsOk, KeysUnique, HrUnique, Sourced, Resulted, Delivered, CallersOk, Asked;
    CallerLeaves(s.callers, s.turns, c);
  }

  lemma CallerEnters(callers: map<nat, Caller>, turns: map<nat, Turn>, c: nat, request: Request)
    requires CallersOk(callers, turns) && c !in callers
    ensures CallersOk(callers[c := Caller(request, Reading)], turns)
  {}

  lemma OpenKeeps(s: Site, request: Request)
    requires SInv(s)
    ensures SInv(Open(s, request))
  {
    hide WInv, TurnsOk, KeysUnique, HrUnique, Sourced, Resulted, Delivered, CallersOk, Asked;
    Drawn(s.w, 1);
    CallerEnters(s.callers, s.turns, s.w.db.next, request);
    IdsWithin(s, Open(s, request));
  }

  lemma ReplayKeeps(s: Site, c: nat, m: nat)
    requires SInv(s) && c in s.callers
    ensures SInv(Replay(s, c, m))
  {
    hide SInv;
    var t := TurnFor(s.turns, m);
    if t.Some? && s.turns[t.value].status == TurnProcessing {
      PhaseKeeps(s, c, Watching(t.value));
    } else {
      ReturnKeeps(s, c);
    }
  }

  lemma LookKeeps(s: Site, c: nat)
    requires SInv(s) && c in s.callers
    ensures SInv(Look(s, c)) && SInv(Reread(s, c))
  {
    hide SInv, InContext, Replay;
    var q := s.callers[c].request;
    var m := InboundMessage(s.messages, q.conversation, q.client);
    if m.Some? { ReplayKeeps(s, c, m.value); }
    PhaseKeeps(s, c, Inserting);
    ReturnKeeps(s, c);
  }

  // ----- inserting ----------------------------------------------------------

  lemma InboundUnique(messages: map<nat, Message>, m: nat, conversation: nat, client: nat)
    requires HrUnique(messages) && m !in messages && InboundMessage(messages, conversation, client).None?
    ensures HrUnique(messages[m := Message(conversation, HrSender, Some(client))])
  {}

  lemma InboundSourced(messages: map<nat, Message>, turns: map<nat, Turn>, m: nat, t: nat, turn: Turn, client: nat)
    requires Sourced(messages, turns) && m !in messages && t !in turns
    requires turn.source == Some(m) && turn.key == Inbound(turn.conversation, client)
    ensures Sourced(messages[m := Message(turn.conversation, HrSender, Some(client))], turns[t := turn])
  {
    var messages' := messages[m := Message(turn.conversation, HrSender, Some(client))];
    var turns' := turns[t := turn];
    assert turns'[t].source == Some(m);
    forall n: nat | HasTurn(turns, n) ensures HasTurn(turns', n) {
      var u :| u in turns && turns[u].source == Some(n);
      assert turns'[u] == turns[u];
    }
    assert HasTurn(turns', m);
    hide HasTurn;
    forall u | u in turns' ensures SourceOk(messages', turns'[u]) {
      if u != t { assert SourceOk(messages, turns[u]); }
    }
  }

  lemma InboundResulted(messages: map<nat, Message>, turns: map<nat, Turn>, m: nat, t: nat, turn: Turn, client: nat)
    requires Resulted(messages, turns) && m !in messages && t !in turns && turn.result.None?
    ensures Resulted(messages[m := Message(turn.conversation, HrSender, Some(client))], turns[t := turn])
  {
    var messages' := messages[m := Message(turn.conversation, HrSender, Some(client))];
    var turns' := turns[t := turn];
    forall n: nat | IsResult(turns, n) ensures IsResult(turns', n) {
      var u :| u in turns && turns[u].result == Some(n);
      assert turns'[u] == turns[u];
    }
    hide IsResult;
    forall u | u in turns' ensures ResultOk(messages', turns'[u]) {
      if u != t { assert ResultOk(messages, turns[u]); }
    }
  }

  lemma NewTurnRows(turns: map<nat, Turn>, t: nat, turn: Turn)
    requires TurnsOk(turns) && KeysUnique(turns) && TurnOk(turn) && t !in turns && !KeyTaken(turns, turn.key)
    ensures TurnsOk(turns[t := turn]) && KeysUnique(turns[t := turn])
  {}

  lemma NewTurnDelivers(turns: map<nat, Turn>, t: nat, turn: Turn, attachments: map<nat, Attachment>)
    requires Delivered(turns, attachments) && t !in turns && turn.outcome != Some(AttachmentSent)
    ensures Delivered(turns[t := turn], attachments)
  {
    forall m: nat | SentBy(turns, m) ensures SentBy(turns[t := turn], m) {
      var u :| u in turns && turns[u].outcome == Some(AttachmentSent) && turns[u].result == Some(m);
      assert turns[t := turn][u] == turns[u];
    }
    hide SentBy, HasAttachment;
  }

  lemma NewTurnCallers(callers: map<nat, Caller>, turns: map<nat, Turn>, t: nat, turn: Turn)
    requires CallersOk(callers, turns) && t !in turns
    ensures CallersOk(callers, turns[t := turn])
    ensures forall c :: c in callers && Busy(callers[c].phase) ==> callers[c].phase.turn != t
  {
    assert forall c :: c in callers ==> CallerOk(callers[c], turns);
  }

  lemma InsertedCaller(callers: map<nat, Caller>, turns: map<nat, Turn>, c: nat, t: nat, turn: Turn,
        query: Option<nat>, gap: Option<Gap>)
    requires CallersOk(callers, turns) && c in callers && t !in turns
    requires turn.status == TurnProcessing
    requires turn.key == Inbound(callers[c].request.conversation, callers[c].request.client)
    requires turn.scene == GoalJudgement ==> query.Some? && query.value in turns && turns[query.value].scene == GoalQuery
    ensures CallersOk(callers[c := callers[c].(phase := Answering(t, query, gap))], turns[t := turn])
  {
    NewTurnCallers(callers, turns, t, turn);
    PhaseChanges(callers, turns[t := turn], c, Answering(t, query, gap));
  }

  lemma AskedAlso(w: World, turns: map<nat, Turn>, t: nat, turn: Turn)
    requires Asked(w, turns) && AskedFrom(w, turn)
    ensures Asked(w, turns[t := turn])
  {}

  lemma FreshRows(s: Site)
    requires ChatIds(s)
    ensures forall k :: k >= s.w.db.next ==> k !in s.messages && k !in s.turns && k !in s.attachments && k !in s.callers
  {}

  lemma PendingIsQuery(turns: map<nat, Turn>, conversation: nat)
    ensures var q := PendingQuery(turns, conversation); q.Some? ==> q.value in turns && turns[q.value].scene == GoalQuery
  {}

  lemma InsertedRows(s: Site, c: nat)
    requires SInv(s) && c in s.callers
    requires var q := s.callers[c].request;
      InboundMessage(s.messages, q.conversation, q.client).None? && !KeyTaken(s.turns, Inbound(q.conversation, q.client))
    ensures var s' := Inserted(s, c);
      && TurnsOk(s'.turns) && KeysUnique(s'.turns) && HrUnique(s'.messages) && Sourced(s'.messages, s'.turns)
      && Resulted(s'.messages, s'.turns) && Delivered(s'.turns, s'.attachments)
  {
    hide WInv, TurnsOk, KeysUnique, HrUnique, Sourced, Resulted, Delivered, CallersOk, Asked, ChatIds,
      PendingQuery, GapFor, KeyTaken;
    var q := s.callers[c].request;
    var m := s.w.db.next;
    FreshRows(s);
    NewTurnRows(s.turns, m + 1, InboundTurn(s, c));
    InboundUnique(s.messages, m, q.conversation, q.client);
    InboundSourced(s.messages, s.turns, m, m + 1, InboundTurn(s, c), q.client);
    InboundResulted(s.messages, s.turns, m, m + 1, InboundTurn(s, c), q.client);
    NewTurnDelivers(s.turns, m + 1, InboundTurn(s, c), s.attachments);
  }

  lemma InsertedCalls(s: Site, c: nat)
    requires SInv(s) && c in s.callers
    ensures var s' := Inserted(s, c); WInv(s'.w) && CallersOk(s'.callers, s'.turns) && Asked(s'.w, s'.turns) && ChatIds(s')
  {
    hide WInv, TurnsOk, KeysUnique, HrUnique, Sourced, Resulted, Delivered, CallersOk, Asked, ChatIds,
      PendingQuery, GapFor;
    var q := s.callers[c].request;
    var m := s.w.db.next;
    FreshRows(s);
    PendingIsQuery(s.turns, q.conversation);
    Drawn(s.w, 2);
    InsertedCaller(s.callers, s.turns, c, m + 1, InboundTurn(s, c), PendingQuery(s.turns, q.conversation), GapFor(s.w, q.app));
    AskedAlso(Draw(s.w, 2), s.turns, m + 1, InboundTurn(s, c));
    IdsWithin(s, Inserted(s, c));
  }

  lemma InsertKeeps(s: Site, c: nat)
    requires SInv(s) && c in s.callers
    ensures SInv(Insert(s, c))
  {
    var q := s.callers[c].request;
    var taken := InboundMessage(s.messages, q.conversation, q.client).Some? || KeyTaken(s.turns, Inbound(q.conversation, q.client));
    if taken {
      hide SInv;
      PhaseKeeps(s, c, Raced);
    } else {
      hide WInv, TurnsOk, KeysUnique, HrUnique, Sourced, Resulted, Delivered, CallersOk, Asked, ChatIds, KeyTaken,
        Inserted;
      InsertedRows(s, c);
      InsertedCalls(s, c);
    }
  }

  // ----- closing a turn -----------------------------------------------------

  /** A turn row is rewritten without touching its identity. */
  predicate SameTurn(x: Turn, y: Turn) {
    x.conversation == y.conversation && x.source == y.source && x.key == y.key && x.scene == y.scene && x.createdAt == y.createdAt
  }

  lemma RewrittenSource(messages: map<nat, Message>, turns: map<nat, Turn>, t: nat, turn: Turn)
    requires Sourced(messages, turns) && t in turns && SameTurn(turns[t], turn)
    ensures Sourced(messages, turns[t := turn])
  {
    var turns' := turns[t := turn];
    forall m: nat | HasTurn(turns, m) ensures HasTurn(turns', m) {
      var u :| u in turns && turns[u].source == Some(m);
      assert turns'[u].source == Some(m);
    }
    hide HasTurn;
    forall u | u in turns' ensures SourceOk(messages, turns'[u]) {
      assert SourceOk(messages, turns[u]);
    }
  }

  lemma RewrittenTurn(w: World, turns: map<nat, Turn>, t: nat, turn: Turn)
    requires TurnsOk(turns) && KeysUnique(turns) && Asked(w, turns)
    requires t in turns && SameTurn(turns[t], turn) && TurnOk(turn)
    ensures TurnsOk(turns[t := turn]) && KeysUnique(turns[t := turn]) && Asked(w, turns[t := turn])
  {
    hide Question;
    assert AskedFrom(w, turns[t]);
  }

  lemma UnusedResult(messages: map<nat, Message>, turns: map<nat, Turn>, m: nat)
    requires Resulted(messages, turns) && m !in messages
    ensures forall u :: u in turns ==> turns[u].result != Some(m)
  {
    forall u | u in turns ensures turns[u].result != Some(m) { assert ResultOk(messages, turns[u]); }
  }

  /** The result of `t` is a new message. */
  lemma ResultArrives(messages: map<nat, Message>, turns: map<nat, Turn>, t: nat, turn: Turn, m: nat)
    requires Resulted(messages, turns) && m !in messages && t in turns
    requires turn.result == Some(m) && turns[t].result.None?
    ensures Resulted(messages[m := Message(turn.conversation, AgentSender, None)], turns[t := turn])
  {
    var messages' := messages[m := Message(turn.conversation, AgentSender, None)];
    var turns' := turns[t := turn];
    UnusedResult(messages, turns, m);
    assert turns'[t].result == Some(m);
    forall n: nat | IsResult(turns, n) ensures IsResult(turns', n) {
      var u :| u in turns && turns[u].result == Some(n);
      assert turns'[u] == turns[u];
    }
    hide IsResult;
    forall u | u in turns' ensures ResultOk(messages', turns'[u]) {
      if u != t { assert ResultOk(messages, turns[u]); }
    }
  }

  lemma AgentMessageUnique(messages: map<nat, Message>, m: nat, conversation: nat)
    requires HrUnique(messages) && m !in messages
    ensures HrUnique(messages[m := Message(conversation, AgentSender, None)])
  {}

  lemma MoreMessages(messages: map<nat, Message>, turns: map<nat, Turn>, m: nat, message: Message)
    requires Sourced(messages, turns) && m !in messages && message.sender == AgentSender
    ensures Sourced(messages[m := message], turns)
  {
    hide HasTurn;
    forall t | t in turns ensures SourceOk(messages[m := message], turns[t]) {
      assert SourceOk(messages, turns[t]);
    }
  }

  lemma DeliveryUnchanged(turns: map<nat, Turn>, t: nat, turn: Turn, attachments: map<nat, Attachment>)
    requires Delivered(turns, attachments) && t in turns
    requires turns[t].outcome != Some(AttachmentSent) && turn.outcome != Some(AttachmentSent)
    ensures Delivered(turns[t := turn], attachments)
  {
    forall m: nat | SentBy(turns, m) ensures SentBy(turns[t := turn], m) {
      var u :| u in turns && turns[u].outcome == Some(AttachmentSent) && turns[u].result == Some(m);
      assert turns[t := turn][u] == turns[u];
    }
    hide SentBy, HasAttachment;
  }

  lemma NewDelivery(turns: map<nat, Turn>, t: nat, turn: Turn, attachments: map<nat, Attachment>, a: nat, m: nat,
        document: nat)
    requires Delivered(turns, attachments) && t in turns && a !in attachments
    requires turns[t].outcome != Some(AttachmentSent) && turn.outcome == Some(AttachmentSent) && turn.result == Some(m)
    requires forall u :: u in turns ==> turns[u].result != Some(m)
    ensures Delivered(turns[t := turn], attachments[a := Attachment(m, document)])
  {
    var turns' := turns[t := turn];
    var attachments' := attachments[a := Attachment(m, document)];
    assert attachments'[a].message == m && turns'[t].result == Some(m);
    forall n: nat | SentBy(turns, n) ensures SentBy(turns', n) && n != m {
      var u :| u in turns && turns[u].outcome == Some(AttachmentSent) && turns[u].result == Some(n);
      assert turns'[u] == turns[u];
    }
    forall n: nat | HasAttachment(attachments, n) ensures HasAttachment(attachments', n) {
      var b :| b in attachments && attachments[b].message == n;
      assert attachments'[b] == attachments[b];
    }
    assert SentBy(turns', m) && HasAttachment(attachments', m);
    hide SentBy, HasAttachment;
  }

  /** The call that works on `t` leaves as `t` is closed. */
  lemma WorkerLeaves(callers: map<nat, Caller>, turns: map<nat, Turn>, c: nat, t: nat, turn: Turn)
    requires CallersOk(callers, turns) && c in callers && Busy(callers[c].phase) && callers[c].phase.turn == t
    requires t in turns
    requires SameTurn(turns[t], turn)
    ensures CallersOk(callers - {c}, turns[t := turn])
  {
    forall d | d in callers - {c} ensures CallerOk(callers[d], turns[t := turn]) {
      assert CallerOk(callers[d], turns) && CallerOk(callers[c], turns);
    }
  }

  /** Nobody works on a goal query. */
  lemma QueryChanges(callers: map<nat, Caller>, turns: map<nat, Turn>, q: nat, turn: Turn)
    requires CallersOk(callers, turns) && q in turns && turns[q].status != TurnProcessing && SameTurn(turns[q], turn)
    ensures CallersOk(callers, turns[q := turn])
  {
    forall d | d in callers ensures CallerOk(callers[d], turns[q := turn]) {
      assert CallerOk(callers[d], turns);
    }
  }

  ghost predicate WorkedBy(s: Site, c: nat, t: nat) {
    && c in s.callers && Busy(s.callers[c].phase) && s.callers[c].phase.turn == t
    && t in s.turns && s.turns[t].status == TurnProcessing && TurnOk(s.turns[t])
  }

  /** A busy call holds an unfinished turn of its own message: what the code checks
      again before it writes always holds. */
  lemma BusyHolds(s: Site, c: nat)
    requires SInv(s) && c in s.callers && Busy(s.callers[c].phase)
    ensures WorkedBy(s, c, s.callers[c].phase.turn) && CallerOk(s.callers[c], s.turns)
  {
    hide WInv, KeysUnique, HrUnique, Sourced, Resulted, Delivered, Asked, ChatIds;
    assert CallerOk(s.callers[c], s.turns);
  }

  function Replied(turn: Turn, status: TurnStatus, outcome: TurnOutcome, m: nat): Turn {
    turn.(status := status, outcome := Some(outcome), result := Some(m))
  }

  lemma ReplyRows(s: Site, c: nat, t: nat, outcome: TurnOutcome)
    requires SInv(s) && WorkedBy(s, c, t) && s.turns[t].scene != GoalQuery
    ensures var m := s.w.db.next; var turns := s.turns[t := Replied(s.turns[t], TurnCompleted, outcome, m)];
      var messages := s.messages[m := Message(s.turns[t].conversation, AgentSender, None)];
      && TurnsOk(turns) && KeysUnique(turns) && HrUnique(messages) && Sourced(messages, turns) && Resulted(messages, turns)
      && Asked(Draw(s.w, 1), turns) && WInv(Draw(s.w, 1)) && CallersOk(s.callers - {c}, turns)
      && m !in s.messages && m !in s.turns && (forall u :: u in s.turns ==> s.turns[u].result != Some(m))
  {
    hide WInv, TurnsOk, KeysUnique, HrUnique, Sourced, Delivered, CallersOk, Asked, ChatIds;
    var m := s.w.db.next;
    var turn := Replied(s.turns[t], TurnCompleted, outcome, m);
    FreshRows(s);
    UnusedResult(s.messages, s.turns, m);
    hide Resulted;
    Drawn(s.w, 1);
    RewrittenTurn(Draw(s.w, 1), s.turns, t, turn);
    RewrittenSource(s.messages, s.turns, t, turn);
    MoreMessages(s.messages, s.turns[t := turn], m, Message(turn.conversation, AgentSender, None));
    ResultArrives(s.messages, s.turns, t, turn, m);
    AgentMessageUnique(s.messages, m, turn.conversation);
    WorkerLeaves(s.callers, s.turns, c, t, turn);
  }

  lemma ReplyKeeps(s: Site, c: nat, t: nat, outcome: TurnOutcome)
    requires SInv(s) && WorkedBy(s, c, t) && s.turns[t].scene != GoalQuery && outcome != AttachmentSent
    ensures SInv(Return(AddAgentMessage(s, t, TurnCompleted, outcome), c))
  {
    hide WInv, TurnsOk, KeysUnique, HrUnique, Sourced, Resulted, Delivered, CallersOk, Asked, ChatIds;
    ReplyRows(s, c, t, outcome);
    DeliveryUnchanged(s.turns, t, Replied(s.turns[t], TurnCompleted, outcome, s.w.db.next), s.attachments);
    IdsWithin(s, Return(AddAgentMessage(s, t, TurnCompleted, outcome), c));
  }

  lemma AttachKeeps(s: Site, c: nat, t: nat, document: nat)
    requires SInv(s) && WorkedBy(s, c, t) && s.turns[t].scene != GoalQuery
    ensures SInv(Return(Attach(s, t, document), c))
  {
    hide WInv, TurnsOk, KeysUnique, HrUnique, Sourced, Resulted, Delivered, CallersOk, Asked, ChatIds;
    var m := s.w.db.next;
    ReplyRows(s, c, t, AttachmentSent);
    Drawn(Draw(s.w, 1), 1);
    FreshRows(s);
    NewDelivery(s.turns, t, Replied(s.turns[t], TurnCompleted, AttachmentSent, m), s.attachments, m + 1, m, document);
    IdsWithin(s, Return(Attach(s, t, document), c));
  }

  lemma ResultKept(messages: map<nat, Message>, turns: map<nat, Turn>, t: nat, turn: Turn)
    requires Resulted(messages, turns) && t in turns && turn.result == turns[t].result && SameTurn(turns[t], turn)
    ensures Resulted(messages, turns[t := turn])
  {
    forall n: nat | IsResult(turns, n) ensures IsResult(turns[t := turn], n) {
      var u :| u in turns && turns[u].result == Some(n);
      assert turns[t := turn][u].result == Some(n);
    }
    hide IsResult;
    var turns' := turns[t := turn];
    forall u | u in turns' ensures ResultOk(messages, turns'[u]) { assert ResultOk(messages, turns[u]); }
  }

  /** A turn is closed without a message. */
  lemma CloseKeeps(s: Site, c: nat, t: nat, status: TurnStatus, outcome: TurnOutcome)
    requires SInv(s) && WorkedBy(s, c, t) && s.turns[t].scene != GoalQuery
    requires (status == TurnCompleted && outcome == PendingAnswer) || (status == TurnFailed && outcome == AttachmentFailed)
    ensures SInv(Return(SetTurn(s, t, status, outcome), c))
  {
    hide WInv, TurnsOk, KeysUnique, HrUnique, Sourced, Resulted, Delivered, CallersOk, Asked, ChatIds;
    var turn := s.turns[t].(status := status, outcome := Some(outcome));
    RewrittenTurn(s.w, s.turns, t, turn);
    RewrittenSource(s.messages, s.turns, t, turn);
    ResultKept(s.messages, s.turns, t, turn);
    DeliveryUnchanged(s.turns, t, turn, s.attachments);
    WorkerLeaves(s.callers, s.turns, c, t, turn);
    IdsWithin(s, Return(SetTurn(s, t, status, outcome), c));
  }

  lemma QueryRow(s: Site, q: nat)
    requires SInv(s) && q in s.turns
    ensures TurnOk(s.turns[q])
    ensures s.turns[q].scene == GoalQuery ==> s.turns[q].status != TurnProcessing && s.turns[q].outcome != Some(AttachmentSent)
  {
    hide WInv, KeysUnique, HrUnique, Sourced, Resulted, CallersOk, Asked, ChatIds, Delivered;
    assert TurnOk(s.turns[q]);
  }

  lemma QueryKeeps(s: Site, q: nat, status: TurnStatus, outcome: TurnOutcome)
    requires SInv(s) && q in s.turns && s.turns[q].scene == GoalQuery
    requires (status == TurnCompleted || status == TurnWaiting) && outcome != AttachmentSent
    ensures SInv(SetTurn(s, q, status, outcome))
  {
    hide WInv, TurnsOk, KeysUnique, HrUnique, Sourced, Resulted, Delivered, CallersOk, Asked, ChatIds;
    var turn := s.turns[q].(status := status, outcome := Some(outcome));
    QueryRow(s, q);
    RewrittenTurn(s.w, s.turns, q, turn);
    RewrittenSource(s.messages, s.turns, q, turn);
    ResultKept(s.messages, s.turns, q, turn);
    DeliveryUnchanged(s.turns, q, turn, s.attachments);
    QueryChanges(s.callers, s.turns, q, turn);
    IdsWithin(s, SetTurn(s, q, status, outcome));
  }

  lemma ConcludeKeeps(s: Site, c: nat, t: nat, query: Option<nat>, gap: Option<Gap>, content: string,
        document: Option<nat>)
    requires SInv(s) && WorkedBy(s, c, t)
    requires s.turns[t].scene == GoalJudgement ==> query.Some? && query.value in s.turns && s.turns[query.value].scene == GoalQuery
    ensures SInv(Return(Conclude(s, t, query, gap, content, document), c))
  {
    hide SInv, AddAgentMessage, Attach, Judge;
    match s.turns[t].scene {
      case ResumeAnswer => ReplyKeeps(s, c, t, MessageSent);
      case DocumentDelivery =>
        if document.Some? { AttachKeeps(s, c, t, document.value); } else { ReplyKeeps(s, c, t, DocumentNotFound); }
      case GoalJudgement => JudgeKeeps(s, c, t, query.value, gap, content);
      case GoalQuery => ReturnKeeps(s, c);
    }
  }

  lemma AnswerKeeps(s: Site, c: nat, document: Option<nat>)
    requires SInv(s) && c in s.callers && s.callers[c].phase.Answering?
    ensures SInv(Answer(s, c, document))
  {
    hide SInv, Conclude;
    BusyHolds(s, c);
    var Answering(t, query, gap) := s.callers[c].phase;
    ConcludeKeeps(s, c, t, query, gap, s.callers[c].request.content, document);
  }

  lemma JudgeKeeps(s: Site, c: nat, t: nat, q: nat, gap: Option<Gap>, content: string)
    requires SInv(s) && WorkedBy(s, c, t) && s.turns[t].scene == GoalJudgement && q in s.turns
    requires s.turns[q].scene == GoalQuery
    ensures SInv(Return(Judge(s, t, q, gap, content), c))
  {
    hide SInv, Polarity, TurnOk;
    var answer := Polarity(content);
    if gap.None? || answer.None? {
      CloseKeeps(s, c, t, TurnCompleted, PendingAnswer);
      QueryKeeps(Return(SetTurn(s, t, TurnCompleted, PendingAnswer), c), q, TurnWaiting, PendingAnswer);
    } else {
      var outcome := if answer.value == gap.value.stopOnYes then StopOutcome else ContinueOutcome;
      ReplyKeeps(s, c, t, outcome);
      QueryKeeps(Return(AddAgentMessage(s, t, TurnCompleted, outcome), c), q, TurnCompleted, outcome);
    }
  }

  lemma WorksAlone(callers: map<nat, Caller>, turns: map<nat, Turn>, c: nat)
    requires CallersOk(callers, turns) && c in callers && callers[c].phase.Answering?
    ensures forall d :: d in callers && d != c && Busy(callers[d].phase) ==> callers[d].phase.turn != callers[c].phase.turn
    ensures CallerOk(callers[c].(phase := Recovering(callers[c].phase.turn)), turns)
  {}

  lemma FailKeeps(s: Site, c: nat)
    requires SInv(s) && c in s.callers && s.callers[c].phase.Answering?
    ensures SInv(SetPhase(s, c, Recovering(s.callers[c].phase.turn)))
  {
    hide WInv, TurnsOk, KeysUnique, HrUnique, Sourced, Resulted, Delivered, Asked, CallersOk, CallerOk;
    BusyHolds(s, c);
    var t := s.callers[c].phase.turn;
    WorksAlone(s.callers, s.turns, c);
    PhaseChanges(s.callers, s.turns, c, Recovering(t));
  }

  lemma RecoverKeeps(s: Site, c: nat)
    requires SInv(s) && c in s.callers && s.callers[c].phase.Recovering?
    ensures SInv(Recover(s, c))
  {
    BusyHolds(s, c);
    var t := s.callers[c].phase.turn;
    hide SInv;
    CloseKeeps(s, c, t, TurnFailed, AttachmentFailed);
  }

  // ----- the proactive question ---------------------------------------------

  lemma GapIsTheQuestion(w: World, app: nat)
    ensures GapFor(w, app).Some? ==> Question(w, app) == GapFor(w, app)
  {}

  lemma NewQuery(messages: map<nat, Message>, turns: map<nat, Turn>, t: nat, turn: Turn, m: nat)
    requires HrUnique(messages) && Sourced(messages, turns) && Resulted(messages, turns) && m !in messages
    requires t !in turns
    requires turn.source.None? && turn.result == Some(m)
    ensures var messages' := messages[m := Message(turn.conversation, AgentSender, None)];
      HrUnique(messages') && Sourced(messages', turns[t := turn]) && Resulted(messages', turns[t := turn])
  {
    var messages' := messages[m := Message(turn.conversation, AgentSender, None)];
    var turns' := turns[t := turn];
    assert turns'[t].result == Some(m);
    forall n: nat | HasTurn(turns, n) ensures HasTurn(turns', n) {
      var u :| u in turns && turns[u].source == Some(n);
      assert turns'[u] == turns[u];
    }
    forall n: nat | IsResult(turns, n) ensures IsResult(turns', n) {
      var u :| u in turns && turns[u].result == Some(n);
      assert turns'[u] == turns[u];
    }
    hide HasTurn, IsResult;
    forall u | u in turns ensures SourceOk(messages', turns[u]) && ResultOk(messages', turns[u]) && turns[u].result != Some(m) {
      assert SourceOk(messages, turns[u]) && ResultOk(messages, turns[u]);
    }
  }

  function QueryTurn(s: Site, app: nat, conversation: nat, signature: string): Turn {
    Turn(conversation, None, Proactive(app, conversation, signature), s.w.db.now, GoalQuery, TurnWaiting, Some(QuerySent), Some(s.w.db.next + 1))
  }

  lemma ProactiveShape(s: Site, app: nat, conversation: nat, hr: nat)
    requires InContext(s.w, app, conversation, hr) && GapFor(s.w, app).Some?
    requires !KeyTaken(s.turns, Proactive(app, conversation, GapFor(s.w, app).value.condition))
    ensures var s' := StartProactive(s, app, conversation, hr); var t := s.w.db.next;
      && s'.turns == s.turns[t := QueryTurn(s, app, conversation, GapFor(s.w, app).value.condition)]
      && s'.messages == s.messages[t + 1 := Message(conversation, AgentSender, None)]
      && s'.attachments == s.attachments && s'.callers == s.callers && s'.w == Draw(s.w, 2)
  {
    hide InContext, GapFor, KeyTaken;
  }

  lemma AskKeeps(s: Site, s': Site, app: nat, conversation: nat, gap: Gap)
    requires SInv(s) && conversation in s.w.conversations && s.w.conversations[conversation] == app && app in s.w.apps
    requires Question(s.w, app) == Some(gap) && !KeyTaken(s.turns, Proactive(app, conversation, gap.condition))
    requires var t := s.w.db.next;
      && s'.turns == s.turns[t := QueryTurn(s, app, conversation, gap.condition)]
      && s'.messages == s.messages[t + 1 := Message(conversation, AgentSender, None)]
      && s'.attachments == s.attachments && s'.callers == s.callers && s'.w == Draw(s.w, 2)
    ensures SInv(s')
  {
    hide WInv, TurnsOk, KeysUnique, HrUnique, Sourced, Resulted, Delivered, CallersOk, Asked, ChatIds, KeyTaken,
      Question;
    var t := s.w.db.next;
    var turn := QueryTurn(s, app, conversation, gap.condition);
    FreshRows(s);
    Drawn(s.w, 2);
    NewTurnRows(s.turns, t, turn);
    NewQuery(s.messages, s.turns, t, turn, t + 1);
    NewTurnDelivers(s.turns, t, turn, s.attachments);
    NewTurnCallers(s.callers, s.turns, t, turn);
    SameQuestion(s.w, app);
    AskedAlso(Draw(s.w, 2), s.turns, t, turn);
    IdsWithin(s, s');
  }

  lemma SameQuestion(w: World, app: nat)
    ensures Question(Draw(w, 2), app) == Question(w, app)
  {}

  lemma ProactiveKeeps(s: Site, app: nat, conversation: nat, hr: nat)
    requires SInv(s)
    ensures SInv(StartProactive(s, app, conversation, hr))
  {
    hide SInv, GapFor, KeyTaken, AddAgentMessage;
    var gap := GapFor(s.w, app);
    if InContext(s.w, app, conversation, hr) && gap.Some? && !KeyTaken(s.turns, Proactive(app, conversation, gap.value.condition)) {
      ProactiveShape(s, app, conversation, hr);
      GapIsTheQuestion(s.w, app);
      AskKeeps(s, StartProactive(s, app, conversation, hr), app, conversation, gap.value);
    }
  }

  // ----- every story --------------------------------------------------------

  lemma AskedLater(w: World, now: int, turns: map<nat, Turn>)
    requires Asked(w, turns)
    ensures Asked(Later(w, now), turns)
  {
    forall t | t in turns ensures AskedFrom(Later(w, now), turns[t]) { assert AskedFrom(w, turns[t]); }
  }

  lemma LaterSite(s: Site, now: int)
    requires SInv(s) && now >= s.w.db.now
    ensures SInv(s.(w := Later(s.w, now)))
  {
    hide WInv, TurnsOk, KeysUnique, HrUnique, Sourced, Resulted, Delivered, CallersOk, Asked;
    LaterKeeps(s.w, now);
    AskedLater(s.w, now, s.turns);
  }

  lemma MakeKeeps(s: Site, move: Move)
    requires SInv(s) && Possible(s, move) && !move.Elsewhere?
    ensures SInv(Make(s, move)) && Make(s, move).w.db.now == s.w.db.now
  {
    hide SInv, Look, Reread, Insert, Answer, Recover, Poll, StartProactive, Open;
    match move {
      case OpenMove(request) => OpenKeeps(s, request);
      case LookMove(c) => LookKeeps(s, c);
      case InsertMove(c) => InsertKeeps(s, c);
      case RereadMove(c) => LookKeeps(s, c);
      case AnswerMove(c, document) => AnswerKeeps(s, c, document);
      case FailMove(c) => FailKeeps(s, c);
      case RecoverMove(c) => RecoverKeeps(s, c);
      case PollMove(c) => PollKeeps(s, c);
      case LeaveMove(c) => ReturnKeeps(s, c);
      case ProactiveMove(app, conversation, hr) => ProactiveKeeps(s, app, conversation, hr);
    }
    SameClock(s, move);
  }

  lemma PollKeeps(s: Site, c: nat)
    requires SInv(s) && c in s.callers && s.callers[c].phase.Watching?
    ensures SInv(Poll(s, c))
  {
    hide SInv;
    ReturnKeeps(s, c);
  }

  lemma JudgeClock(s: Site, t: nat, q: nat, gap: Option<Gap>, content: string)
    requires t in s.turns && q in s.turns
    ensures Judge(s, t, q, gap, content).w.db.now == s.w.db.now
  {
    hide Polarity;
  }

  lemma AttachClock(s: Site, t: nat, document: nat)
    requires t in s.turns
    ensures Attach(s, t, document).w.db.now == s.w.db.now
  {}

  lemma ConcludeClock(s: Site, t: nat, query: Option<nat>, gap: Option<Gap>, content: string, document: Option<nat>)
    requires t in s.turns
    ensures Conclude(s, t, query, gap, content, document).w.db.now == s.w.db.now
  {
    hide Judge, Attach;
    if document.Some? { AttachClock(s, t, document.value); }
    if query.Some? && query.value in s.turns { JudgeClock(s, t, query.value, gap, content); }
  }

  lemma AnswerClock(s: Site, c: nat, document: Option<nat>)
    requires c in s.callers && s.callers[c].phase.Answering?
    ensures Answer(s, c, document).w.db.now == s.w.db.now
  {
    hide Conclude;
    var Answering(t, query, gap) := s.callers[c].phase;
    if t in s.turns { ConcludeClock(s, t, query, gap, s.callers[c].request.content, document); }
  }

  lemma SameClock(s: Site, move: Move)
    requires Possible(s, move) && !move.Elsewhere?
    ensures Make(s, move).w.db.now == s.w.db.now
  {
    hide Answer, PendingQuery, GapFor, InContext, KeyTaken;
    if move.AnswerMove? { AnswerClock(s, move.caller, move.document); }
  }

  lemma MoveKeeps(s: Site, move: Move, s': Site)
    requires SInv(s) && Chat.Moves(s, move, s')
    ensures SInv(s')
  {
    if move.Elsewhere? {
      hide SInv, Perform;
      ElsewhereKeeps(s, move.step, s'.w);
    } else {
      hide SInv, Make, Possible;
      MakeKeeps(s, move);
      LaterSite(Make(s, move), s'.w.db.now);
    }
  }

  lemma QuietIsFine()
    ensures SInv(Quiet)
  {
    NothingIsFine();
    hide WInv;
  }

  lemma {:induction false} StoryKeeps(ss: seq<Site>, moves: seq<Move>, n: nat)
    requires Story(ss, moves) && n < |ss|
    ensures SInv(ss[n])
  {
    hide SInv, Chat.Moves;
    if n == 0 {
      QuietIsFine();
    } else {
      StoryKeeps(ss, moves, n - 1);
      MoveKeeps(ss[n - 1], moves[n - 1], ss[n]);
    }
  }
}
