/** The conversation repository and service as the source writes them, proved to make
    exactly the moves of the model. */
module ChatService {
  import opened Common
  import opened Tasks
  import opened AgentFlow
  import opened GoalGap
  import opened Chat
  import opened ChatInvariant
  import BinaryAnswer
  import Text

  lemma InboundIs(s: Site, conversation: nat, client: nat, m: nat)
    requires SInv(s) && m in s.messages && s.messages[m] == Message(conversation, HrSender, Some(client))
    ensures InboundMessage(s.messages, conversation, client) == Some(m)
  {
    assert HrUnique(s.messages);
    hide SInv;
  }

  lemma TurnIs(s: Site, m: nat, t: nat)
    requires SInv(s) && t in s.turns && s.turns[t].source == Some(m)
    ensures TurnFor(s.turns, m) == Some(t)
  {
    assert KeysUnique(s.turns) && Sourced(s.messages, s.turns);
    hide SInv;
    var u := TurnFor(s.turns, m).value;
    assert SourceOk(s.messages, s.turns[t]) && SourceOk(s.messages, s.turns[u]);
  }

  class ConversationTables {
    var w: World
    var messages: map<nat, Message>
    var turns: map<nat, Turn>
    var attachments: map<nat, Attachment>
    var callers: map<nat, Caller>

    function Rows(): Site
      reads this
    {
      Site(w, messages, turns, attachments, callers)
    }

    constructor ()
      ensures Rows() == Quiet
    {
      w, messages, turns, attachments, callers := Nothing, map[], map[], map[], map[];
    }

    method FreshId() returns (id: nat)
      modifies this`w
      ensures id == old(w.db.next) && w == Draw(old(w), 1)
    {
      id := w.db.next;
      w := w.(db := w.db.(next := id + 1));
    }

    // ----- ConversationRepository -------------------------------------------

    method AddMessage(t: nat, status: TurnStatus, outcome: TurnOutcome) returns (m: nat)
      requires t in turns
      modifies this`w, this`messages, this`turns
      ensures m == old(w.db.next) && Rows() == AddAgentMessage(old(Rows()), t, status, outcome)
    {
      m := FreshId();
      messages := messages[m := Message(turns[t].conversation, AgentSender, None)];
      turns := turns[t := turns[t].(status := status, outcome := Some(outcome))];
      turns := turns[t := turns[t].(result := Some(m))];
      assert turns == old(turns)[t := old(turns)[t].(status := status, outcome := Some(outcome), result := Some(m))];
    }

    method AddAttachment(m: nat, document: nat)
      modifies this`w, this`attachments
      ensures Rows() == old(Rows()).(w := Draw(old(w), 1), attachments := old(attachments)[old(w.db.next) := Attachment(m, document)])
    {
      var a := FreshId();
      attachments := attachments[a := Attachment(m, document)];
    }

    /** `complete_turn_without_message`, `mark_turn_waiting`, `complete_goal_query`
        and `fail_turn` differ only in the values they set. */
    method CloseTurn(t: nat, status: TurnStatus, outcome: TurnOutcome)
      requires t in turns
      modifies this`turns
      ensures Rows() == SetTurn(old(Rows()), t, status, outcome)
    {
      turns := turns[t := turns[t].(status := status, outcome := Some(outcome))];
    }

    // ----- ConversationService.send_message ---------------------------------

    /** An existing message: wait for its turn or return its result. */
    method ReplayFor(c: nat, m: nat)
      requires c in callers && SInv(Rows())
      modifies this`callers
      ensures Rows() == Replay(old(Rows()), c, m)
    {
      hide SInv;
      if t :| t in turns && turns[t].source == Some(m) {
        TurnIs(Rows(), m, t);
        if turns[t].status == TurnProcessing {
          callers := callers[c := callers[c].(phase := Watching(t))];
          return;
        }
      } else {
        assert TurnFor(turns, m).None?;
      }
      callers := callers - {c};
    }

    /** The read of the first transaction. */
    method LookFor(c: nat)
      requires c in callers && SInv(Rows())
      modifies this`callers
      ensures Rows() == Look(old(Rows()), c)
    {
      hide SInv, Replay, InContext;
      var q := callers[c].request;
      if !InContext(w, q.app, q.conversation, q.hr) {
        callers := callers - {c};
        return;
      }
      if m :| m in messages && messages[m] == Message(q.conversation, HrSender, Some(q.client)) {
        InboundIs(Rows(), q.conversation, q.client, m);
        ReplayFor(c, m);
        return;
      }
      assert InboundMessage(messages, q.conversation, q.client).None?;
      callers := callers[c := callers[c].(phase := Inserting)];
    }

    /** `add_inbound_turn` with the reads that precede it. */
    method InsertInbound(c: nat)
      requires c in callers
      modifies this`w, this`messages, this`turns, this`callers
      ensures Rows() == Insert(old(Rows()), c)
    {
      hide PendingQuery, GapFor;
      var q := callers[c].request;
      var query := PendingQuery(turns, q.conversation);
      var gap := GapFor(w, q.app);
      var turn := InboundTurn(Rows(), c);
      if m :| m in messages && messages[m] == Message(q.conversation, HrSender, Some(q.client)) {
        assert InboundMessage(messages, q.conversation, q.client).Some?;
        callers := callers[c := callers[c].(phase := Raced)];
        return;
      }
      assert InboundMessage(messages, q.conversation, q.client).None?;
      if KeyTaken(turns, Inbound(q.conversation, q.client)) {
        callers := callers[c := callers[c].(phase := Raced)];
        return;
      }
      var m := FreshId();
      messages := messages[m := Message(q.conversation, HrSender, Some(q.client))];
      var t := FreshId();
      turns := turns[t := turn];
      callers := callers[c := callers[c].(phase := Answering(t, query, gap))];
    }

    /** `_deliver_document` after the documents are resolved. */
    method DeliverDocument(t: nat, document: Option<nat>)
      requires t in turns && turns[t].scene == DocumentDelivery
      modifies this`w, this`messages, this`turns, this`attachments
      ensures Rows() == if document.Some? then Attach(old(Rows()), t, document.value)
                        else AddAgentMessage(old(Rows()), t, TurnCompleted, DocumentNotFound)
    {
      if document.None? {
        var _ := AddMessage(t, TurnCompleted, DocumentNotFound);
        return;
      }
      var m := AddMessage(t, TurnCompleted, AttachmentSent);
      AddAttachment(m, document.value);
    }

    /** `_judge_goal_answer`. */
    method JudgeAnswer(t: nat, q: nat, gap: Option<Gap>, content: string)
      requires t in turns && q in turns
      modifies this`w, this`messages, this`turns
      ensures Rows() == Judge(old(Rows()), t, q, gap, content)
    {
      var answer := BinaryAnswer.ParseBinaryAnswer(content);
      assert Polarity(content) == if answer.Some? then Some(answer.value.value) else None;
      hide Polarity;
      if turns[t].status == TurnCompleted {
        return;
      }
      if gap.None? || answer.None? {
        CloseTurn(t, TurnCompleted, PendingAnswer);
        CloseTurn(q, TurnWaiting, PendingAnswer);
        return;
      }
      var outcome := if answer.value.value == gap.value.stopOnYes then StopOutcome else ContinueOutcome;
      var _ := AddMessage(t, TurnCompleted, outcome);
      CloseTurn(q, TurnCompleted, outcome);
    }

    /** The last transaction of the call that inserted its message. */
    method AnswerFor(c: nat, document: Option<nat>)
      requires c in callers && callers[c].phase.Answering?
      modifies this`w, this`messages, this`turns, this`attachments, this`callers
      ensures Rows() == Answer(old(Rows()), c, document)
    {
      hide Judge, Attach;
      var Answering(t, query, gap) := callers[c].phase;
      if t in turns && turns[t].status != TurnCompleted {
        match turns[t].scene {
          case ResumeAnswer => var _ := AddMessage(t, TurnCompleted, MessageSent);
          case DocumentDelivery => DeliverDocument(t, document);
          case GoalJudgement =>
            if query.Some? && query.value in turns { JudgeAnswer(t, query.value, gap, callers[c].request.content); }
          case GoalQuery =>
        }
      }
      callers := callers - {c};
    }

    /** The handler of `_deliver_document`. */
    method RecoverFrom(c: nat)
      requires c in callers && callers[c].phase.Recovering?
      modifies this`turns, this`callers
      ensures Rows() == Recover(old(Rows()), c)
    {
      var t := callers[c].phase.turn;
      if t in turns && turns[t].status != TurnCompleted {
        CloseTurn(t, TurnFailed, AttachmentFailed);
      }
      callers := callers - {c};
    }

    // ----- ConversationService.start_proactive_query ------------------------

    method StartQuery(app: nat, conversation: nat, hr: nat)
      modifies this`w, this`messages, this`turns
      ensures Rows() == StartProactive(old(Rows()), app, conversation, hr)
    {
      hide InContext, GapFor, KeyTaken;
      if !InContext(w, app, conversation, hr) {
        return;
      }
      var gap := GapFor(w, app);
      if gap.None? {
        return;
      }
      var key := Proactive(app, conversation, gap.value.condition);
      if KeyTaken(turns, key) {
        return;
      }
      var now := w.db.now;
      var t := FreshId();
      turns := turns[t := Turn(conversation, None, key, now, GoalQuery, TurnProcessing, None, None)];
      var _ := AddMessage(t, TurnWaiting, QuerySent);
    }
  }
}
