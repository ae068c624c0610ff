/**
 The turn loop of one session: repair, steering, the model call, compaction and tool
 execution, with the mailbox that collects follow-ups while a turn is running.
 */
module TurnLoop {
  import opened ChatMessages
  import Repair = ChatRepair
  import History = ChatHistory

  const MAILBOX_SIZE: nat := 16

  /** How one tool call ended; every way produces a result message. */
  datatype ToolOutcome = Unavailable | Denied | TimedOut | Failed(error: string) | Succeeded(json: string)

  function ResultText(call: ToolCall, outcome: ToolOutcome): string {
    match outcome
    case Unavailable => "tool not available: " + call.name
    case Denied => "Tool call '" + call.name + "' was denied by user"
    case TimedOut => "Tool call '" + call.name + "' timed out waiting for approval"
    case Failed(error) => "error: " + error
    case Succeeded(json) => json
  }

  /** One result message per call, in call order. */
  function Results(calls: seq<ToolCall>, outcomes: seq<ToolOutcome>): (results: seq<Message>)
    requires |calls| == |outcomes|
    ensures |results| == |calls|
    ensures forall i :: 0 <= i < |calls| ==> results[i] == ToolResult(calls[i].id, ResultText(calls[i], outcomes[i]))
  {
    seq(|calls|, i requires 0 <= i < |calls| => ToolResult(calls[i].id, ResultText(calls[i], outcomes[i])))
  }

  function UserMessages(texts: seq<string>): (msgs: seq<Message>)
    ensures |msgs| == |texts| && forall i :: 0 <= i < |texts| ==> msgs[i] == UserMessage(texts[i])
  {
    seq(|texts|, i requires 0 <= i < |texts| => UserMessage(texts[i]))
  }

  /** What the model call returned. */
  datatype Reply =
    | CallFailed
    | NoChoices
    | Answer(text: string)
    | ToolCalls(text: string, calls: seq<ToolCall>, outcomes: seq<ToolOutcome>)

  /** A reply with one outcome per call, as executing them in turn provides. */
  predicate Executed(r: Reply) {
    r.ToolCalls? ==> |r.outcomes| == |r.calls|
  }

  /** The assistant message of a tool-calling reply with all its results. */
  function Batch(text: string, calls: seq<ToolCall>, outcomes: seq<ToolOutcome>): seq<Message>
    requires |calls| == |outcomes|
  {
    [Message(Assistant, text, calls, "")] + Results(calls, outcomes)
  }

  ghost predicate AllPaired(histories: seq<seq<Message>>) {
    forall i :: 0 <= i < |histories| ==> Paired(histories[i])
  }

  lemma {:induction false} SteeringKeepsPaired(msgs: seq<Message>, texts: seq<string>)
    requires Paired(msgs)
    ensures Paired(msgs + UserMessages(texts))
  {
    if texts == [] {
      assert msgs + UserMessages(texts) == msgs;
    } else {
      hide Paired;
      var init := texts[..|texts| - 1];
      SteeringKeepsPaired(msgs, init);
      AppendKeepsPaired(msgs + UserMessages(init), UserMessage(texts[|texts| - 1]));
      assert msgs + UserMessages(texts) == msgs + UserMessages(init) + [UserMessage(texts[|texts| - 1])];
    }
  }

  /** The last messages are user messages with the given texts. */
  ghost predicate EndsWithUsers(chat: seq<Message>, texts: seq<string>) {
    && |texts| <= |chat|
    && AreUsers(chat[|chat| - |texts|..], texts)
  }

  ghost predicate AreUsers(msgs: seq<Message>, texts: seq<string>) {
    |msgs| == |texts| && forall i :: 0 <= i < |texts| ==> msgs[i].role.User? && msgs[i].content == texts[i]
  }

  lemma UsersAtEnd(before: seq<Message>, texts: seq<string>)
    ensures EndsWithUsers(before + UserMessages(texts), texts)
  {
    assert AreUsers(UserMessages(texts), texts);
    var all := before + UserMessages(texts);
    hide UserMessages, AreUsers;
    assert all[|all| - |texts|..] == UserMessages(texts);
  }

  /** The history after the compaction check that follows a model call. */
  function Compacted(h: seq<Message>, overThreshold: bool, summaryReply: string): seq<Message> {
    if overThreshold && |h| > 10 && summaryReply != "" then
      [h[0], History.SummaryMessage(summaryReply)] + History.LastOf(h, History.KEEP_TAIL)
    else h
  }

  /** The reply with its text and calls, then one tool message for each call, in call order and with its id. */
  ghost predicate RecordsCalls(batch: seq<Message>, text: string, calls: seq<ToolCall>) {
    && |batch| == 1 + |calls|
    && batch[0].role.Assistant? && batch[0].content == text && batch[0].calls == calls
    && forall i :: 0 <= i < |calls| ==> batch[1..][i].role.Tool? && batch[1..][i].callId == calls[i].id
  }

  lemma BatchRecordsCalls(text: string, calls: seq<ToolCall>, outcomes: seq<ToolOutcome>)
    requires |calls| == |outcomes|
    ensures RecordsCalls(Batch(text, calls, outcomes), text, calls)
  {
    assert Batch(text, calls, outcomes)[1..] == Results(calls, outcomes);
  }

  lemma NextResult(started: seq<Message>, calls: seq<ToolCall>, outcomes: seq<ToolOutcome>, i: nat)
    requires |calls| == |outcomes| && i < |calls|
    ensures started + Results(calls, outcomes)[..i + 1] ==
            started + Results(calls, outcomes)[..i] + [ToolResult(calls[i].id, ResultText(calls[i], outcomes[i]))]
  {
  }

  lemma BatchIsComplete(before: seq<Message>, text: string, calls: seq<ToolCall>, outcomes: seq<ToolOutcome>)
    requires |calls| == |outcomes|
    ensures var all := before + Batch(text, calls, outcomes);
      && before + [Message(Assistant, text, calls, "")] + Results(calls, outcomes)[..|calls|] == all
      && RecordsCalls(all[|before|..], text, calls)
  {
    BatchRecordsCalls(text, calls, outcomes);
    assert Results(calls, outcomes)[..|calls|] == Results(calls, outcomes);
    hide RecordsCalls;
    assert (before + Batch(text, calls, outcomes))[|before|..] == Batch(text, calls, outcomes);
  }

  /** Nothing is compacted below the threshold, up to ten messages, or when the summary call failed. */
  lemma CompactedKeepsEnds(h: seq<Message>, overThreshold: bool, summaryReply: string)
    ensures var after := Compacted(h, overThreshold, summaryReply);
      if !overThreshold || |h| <= 10 || summaryReply == "" then after == h
      else |after| == 10 && after[0] == h[0] && History.TellsSummary(after[1], summaryReply)
           && after[2..] == h[|h| - 8..]
  {
  }

  ghost predicate MentionsAt(text: string, part: string, i: nat) {
    i + |part| <= |text| && text[i..i + |part|] == part
  }

  ghost predicate Mentions(text: string, part: string) {
    exists i: nat :: MentionsAt(text, part, i)
  }

  /** A result tells the model how its call ended: the JSON itself, the error, or the tool concerned. */
  lemma ResultTellsOutcome(call: ToolCall, outcome: ToolOutcome)
    ensures match outcome
      case Succeeded(json) => ResultText(call, outcome) == json
      case Failed(error) => Mentions(ResultText(call, outcome), error)
      case _ => Mentions(ResultText(call, outcome), call.name)
  {
    var text := ResultText(call, outcome);
    match outcome
    case Succeeded(_) =>
    case Failed(error) => assert MentionsAt(text, error, |"error: "|);
    case Unavailable => assert MentionsAt(text, call.name, |"tool not available: "|);
    case Denied => assert MentionsAt(text, call.name, |"Tool call '"|);
    case TimedOut => assert MentionsAt(text, call.name, |"Tool call '"|);
  }

  /** The ways a call can fail to run are told apart. */
  lemma RefusalsAreToldApart(call: ToolCall)
    ensures ResultText(call, Unavailable) != ResultText(call, Denied)
    ensures ResultText(call, Unavailable) != ResultText(call, TimedOut)
    ensures ResultText(call, Denied) != ResultText(call, TimedOut)
  {
    assert ResultText(call, Unavailable)[0] == 't';
    assert ResultText(call, Denied)[0] == ResultText(call, TimedOut)[0] == 'T';
    assert |ResultText(call, Denied)| != |ResultText(call, TimedOut)|;
  }

  lemma BatchAnswersItsCalls(base: seq<Message>, text: string, calls: seq<ToolCall>, outcomes: seq<ToolOutcome>,
                             id: string)
    requires |calls| == |outcomes| && id in CallIds(Message(Assistant, text, calls, ""))
    ensures HasAnswer(base + Batch(text, calls, outcomes), |base|, id)
  {
    var k :| 0 <= k < |calls| && calls[k].id == id;
    assert AnswersAt(base + Batch(text, calls, outcomes), |base|, id, |base| + 1 + k);
  }

  lemma BatchResultIsMatched(base: seq<Message>, text: string, calls: seq<ToolCall>, outcomes: seq<ToolOutcome>, k: nat)
    requires |calls| == |outcomes| && k < |calls|
    ensures Matched(base + Batch(text, calls, outcomes), |base| + 1 + k)
  {
    assert MatchesAt(base + Batch(text, calls, outcomes), |base| + 1 + k, |base|);
  }

  /** A complete batch keeps a paired history paired, so the next repair has nothing to do. */
  lemma BatchKeepsPaired(base: seq<Message>, text: string, calls: seq<ToolCall>, outcomes: seq<ToolOutcome>)
    requires |calls| == |outcomes| && Paired(base)
    ensures Paired(base + Batch(text, calls, outcomes))
  {
    var all := base + Batch(text, calls, outcomes);
    forall c | 0 <= c < |all| ensures Answered(all, c) {
      forall id | id in CallIds(all[c]) ensures HasAnswer(all, c, id) {
        if c < |base| {
          assert Answered(base, c);
          var j: nat :| AnswersAt(base, c, id, j);
          assert AnswersAt(all, c, id, j);
        } else {
          BatchAnswersItsCalls(base, text, calls, outcomes, id);
        }
      }
    }
    forall i | 0 <= i < |all| ensures Keep(all, i) {
      if i < |base| {
        assert Keep(base, i);
        if Matched(base, i) {
          var j: nat :| MatchesAt(base, i, j);
          assert MatchesAt(all, i, j);
        }
      } else if i > |base| {
        BatchResultIsMatched(base, text, calls, outcomes, i - |base| - 1);
      }
    }
  }

  class Session {
    var chat: seq<Message>
    var mailbox: seq<string>
    /** Follow-ups accepted into the mailbox, and those folded into the history, in order. */
    ghost var accepted: seq<string>
    ghost var applied: seq<string>
    /** Every history passed to the turn's model call. */
    ghost var sent: seq<seq<Message>>

    ghost predicate Valid()
      reads this
    {
      |mailbox| <= MAILBOX_SIZE && accepted == applied + mailbox && AllPaired(sent)
    }

    constructor (history: seq<Message>)
      ensures Valid() && chat == history && mailbox == accepted == applied == [] && sent == []
    {
      chat, mailbox, accepted, applied, sent := history, [], [], [], [];
    }

    /** A follow-up sent while a turn is running; a full mailbox refuses it. */
    method Steer(text: string) returns (ok: bool)
      requires |mailbox| <= MAILBOX_SIZE
      modifies this`mailbox, this`accepted
      ensures ok == (old(|mailbox|) < MAILBOX_SIZE) && |mailbox| <= MAILBOX_SIZE
      ensures mailbox == old(mailbox) + if ok then [text] else []
      ensures accepted == old(accepted) + if ok then [text] else []
    {
      ok := |mailbox| < MAILBOX_SIZE;
      if ok {
        mailbox := mailbox + [text];
        accepted := accepted + [text];
      }
    }

    /** Follow-ups that several connections send one after another, as many as still fit. */
    method SteerAll(texts: seq<string>)
      requires |mailbox| <= MAILBOX_SIZE
      modifies this`mailbox, this`accepted
      ensures |mailbox| <= MAILBOX_SIZE
      ensures var room := MAILBOX_SIZE - |old(mailbox)|;
        var taken := if |texts| <= room then texts else texts[..room];
        mailbox == old(mailbox) + taken && accepted == old(accepted) + taken
    {
      ghost var room := MAILBOX_SIZE - |mailbox|;
      ghost var before, acceptedBefore := mailbox, accepted;
      for i := 0 to |texts|
        invariant |mailbox| <= MAILBOX_SIZE
        invariant mailbox == before + texts[..if i <= room then i else room]
        invariant accepted == acceptedBefore + texts[..if i <= room then i else room]
      {
        var _ := Steer(texts[i]);
      }
    }

    /**
     Empties the mailbox while others keep sending: any number of follow-ups may arrive after
     each receive.
     */
    method DrainSteering(arrivals: seq<seq<string>>) returns (texts: seq<string>)
      requires |mailbox| <= MAILBOX_SIZE && accepted == applied + mailbox
      modifies this`mailbox, this`accepted
      ensures mailbox == [] && accepted == applied + texts
      ensures old(mailbox) <= texts
    {
      texts := [];
      var n := 0;
      while mailbox != []
        invariant n <= |arrivals| && |mailbox| <= MAILBOX_SIZE
        invariant accepted == applied + (texts + mailbox)
        invariant old(mailbox) <= texts + mailbox
        decreases |arrivals| - n, |mailbox|
      {
        texts := texts + [mailbox[0]];
        mailbox := mailbox[1..];
        if n < |arrivals| {
          SteerAll(arrivals[n]);
          n := n + 1;
        }
      }
    }

    method ApplySteering(text: string)
      modifies this`chat, this`applied
      ensures chat == old(chat) + [UserMessage(text)] && applied == old(applied) + [text]
    {
      chat := chat + [UserMessage(text)];
      applied := applied + [text];
    }

    /** The start of a turn, up to the model call: returns the history the call gets. */
    method PrepareCall(arrivals: seq<seq<string>>) returns (ghost steered: seq<string>)
      requires Valid()
      modifies this
      ensures Valid() && Paired(chat)
      ensures sent == old(sent) + [chat]
      ensures mailbox == [] && applied == old(applied) + steered && old(mailbox) <= steered
      ensures exists repaired :: Paired(repaired) && Repair.Adds(Repair.Retained(old(chat)), repaired)
                && chat == repaired + UserMessages(steered)
      ensures EndsWithUsers(chat, steered)
    {
      chat := Repair.SanitizeChatMessages(chat);
      ghost var repaired := chat;
      ghost var appliedBefore := applied;
      var texts := DrainSteering(arrivals);
      steered := texts;
      assert texts[..0] == [];
      for i := 0 to |texts|
        invariant chat == repaired + UserMessages(texts[..i]) && applied == appliedBefore + texts[..i]
        invariant accepted == appliedBefore + texts && mailbox == [] && sent == old(sent)
      {
        hide *;
        assert texts[..i + 1] == texts[..i] + [texts[i]];
        assert UserMessages(texts[..i + 1]) == UserMessages(texts[..i]) + [UserMessage(texts[i])];
        ApplySteering(texts[i]);
      }
      assert texts[..|texts|] == texts;
      SteeringKeepsPaired(repaired, texts);
      UsersAtEnd(repaired, texts);
      hide EndsWithUsers, Paired, UserMessages;
      sent := sent + [chat];
    }

    /** Replaces the history by its summary and tail when the context grew too large. */
    method Compact(overThreshold: bool, summaryReply: string)
      modifies this`chat
      ensures chat == Compacted(old(chat), overThreshold, summaryReply)
    {
      if overThreshold && |chat| > 10 {
        var r := History.CompactChatHistory(chat, summaryReply);
        if r.summary != "" && |r.messages| < |chat| {
          chat := r.messages;
        }
      }
    }

    /** Runs the calls of one reply, each leaving its result. */
    method ExecuteCalls(text: string, calls: seq<ToolCall>, outcomes: seq<ToolOutcome>)
      requires |calls| == |outcomes|
      modifies this`chat
      ensures chat == old(chat) + Batch(text, calls, outcomes)
      ensures |old(chat)| <= |chat| && RecordsCalls(chat[|old(chat)|..], text, calls)
    {
      hide Results, Batch, RecordsCalls;
      ghost var before := chat;
      chat := chat + [Message(Assistant, text, calls, "")];
      ghost var started := chat;
      for i := 0 to |calls|
        invariant chat == started + Results(calls, outcomes)[..i]
      {
        var content: string;
        match outcomes[i] {
          case Unavailable => content := "tool not available: " + calls[i].name;
          case Denied => content := "Tool call '" + calls[i].name + "' was denied by user";
          case TimedOut => content := "Tool call '" + calls[i].name + "' timed out waiting for approval";
          case Failed(error) => content := "error: " + error;
          case Succeeded(json) => content := json;
        }
        assert content == ResultText(calls[i], outcomes[i]);
        NextResult(started, calls, outcomes, i);
        chat := chat + [ToolResult(calls[i].id, content)];
      }
      BatchIsComplete(before, text, calls, outcomes);
    }

    /**
     One turn. done reports a final answer. Whatever happens, the model only saw a paired
     history, and a tool-calling reply leaves its message followed by exactly one result per
     call, in call order.
     */
    method Turn(arrivals: seq<seq<string>>, reply: Reply, overThreshold: bool, summaryReply: string)
      returns (done: bool)
      requires Valid() && Executed(reply)
      modifies this
      ensures Valid() && done == reply.Answer?
      ensures |sent| == |old(sent)| + 1 && old(sent) <= sent && Paired(sent[|sent| - 1])
      ensures old(accepted) <= accepted && old(applied) + old(mailbox) <= applied
      ensures reply.CallFailed? || reply.NoChoices? ==> chat == sent[|sent| - 1]
      ensures reply.Answer? ==> chat == Compacted(sent[|sent| - 1], overThreshold, summaryReply)
      ensures reply.ToolCalls? ==>
        chat == Compacted(sent[|sent| - 1], overThreshold, summaryReply)
                + Batch(reply.text, reply.calls, reply.outcomes)
      ensures Compacted(sent[|sent| - 1], overThreshold, summaryReply) == sent[|sent| - 1] ==> Paired(chat)
    {
      var steered := PrepareCall(arrivals);
      hide Paired, Compacted;
      if reply.CallFailed? || reply.NoChoices? {
        return false;
      }
      Compact(overThreshold, summaryReply);
      done := reply.Answer?;
      if reply.ToolCalls? {
        if Paired(chat) {
          BatchKeepsPaired(chat, reply.text, reply.calls, reply.outcomes);
        }
        ExecuteCalls(reply.text, reply.calls, reply.outcomes);
      }
    }
  }
}
