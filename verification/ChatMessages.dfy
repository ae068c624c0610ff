/** Chat messages as the model provider sees them, and how tool results pair with calls. */
module ChatMessages {

  datatype Role = System | User | Assistant | Tool | Custom(name: string)

  datatype ToolCall = ToolCall(id: string, name: string, arguments: string)

  datatype Message = Message(role: Role, content: string, calls: seq<ToolCall>, callId: string)

  const INTERRUPTED := "Tool call was interrupted and did not complete."

  function Placeholder(id: string): Message {
    Message(Tool, INTERRUPTED, [], id)
  }

  function UserMessage(content: string): Message {
    Message(User, content, [], "")
  }

  function ToolResult(id: string, content: string): Message {
    Message(Tool, content, [], id)
  }

  function CallIds(m: Message): set<string> {
    if m.role.Assistant? then set k | 0 <= k < |m.calls| :: m.calls[k].id else {}
  }

  /** The messages that end the stretch in which a call must be answered. */
  predicate Boundary(m: Message) {
    m.role.Assistant? || m.role.User?
  }

  /** Message j answers the call of message c before the next assistant or user message. */
  ghost predicate AnswersAt(msgs: seq<Message>, c: nat, id: string, j: nat) {
    && c < j < |msgs| && msgs[j].role.Tool? && msgs[j].callId == id
    && forall k :: c < k < j ==> !Boundary(msgs[k])
  }

  ghost predicate HasAnswer(msgs: seq<Message>, c: nat, id: string) {
    exists j: nat :: AnswersAt(msgs, c, id, j)
  }

  ghost predicate Answered(msgs: seq<Message>, c: nat)
    requires c < |msgs|
  {
    forall id :: id in CallIds(msgs[c]) ==> HasAnswer(msgs, c, id)
  }

  /** Every tool call is answered before the next assistant or user message. */
  ghost predicate AllAnswered(msgs: seq<Message>) {
    forall c :: 0 <= c < |msgs| ==> Answered(msgs, c)
  }

  ghost predicate MatchesAt(msgs: seq<Message>, i: nat, j: nat) {
    && j < i < |msgs| && msgs[i].callId in CallIds(msgs[j])
    && forall k :: j < k < i ==> !msgs[k].role.User?
  }

  /** The message follows an assistant message that issued its call, with no user message between. */
  ghost predicate Matched(msgs: seq<Message>, i: nat) {
    exists j: nat :: MatchesAt(msgs, i, j)
  }

  /** Tool messages with an id must be matched; every other message stands on its own. */
  ghost predicate Keep(msgs: seq<Message>, i: nat)
    requires i < |msgs|
  {
    !msgs[i].role.Tool? || msgs[i].callId == "" || Matched(msgs, i)
  }

  ghost predicate NoOrphans(msgs: seq<Message>) {
    forall i :: 0 <= i < |msgs| ==> Keep(msgs, i)
  }

  /** What a provider accepts: calls answered in time and no tool result without its call. */
  ghost predicate Paired(msgs: seq<Message>) {
    AllAnswered(msgs) && NoOrphans(msgs)
  }

  ghost predicate NoEmptyIds(msgs: seq<Message>) {
    forall c :: 0 <= c < |msgs| ==> "" !in CallIds(msgs[c])
  }

  /** The length of the leading run of system messages. */
  ghost function Lead(msgs: seq<Message>): (n: nat)
    ensures n <= |msgs| && forall k :: 0 <= k < n ==> msgs[k].role.System?
    ensures n < |msgs| ==> !msgs[n].role.System?
  {
    if msgs == [] || !msgs[0].role.System? then 0 else 1 + Lead(msgs[1..])
  }

  lemma SplitLast<T>(a: seq<T>, b: seq<T>)
    requires b != []
    ensures b == b[..|b| - 1] + [b[|b| - 1]]
    ensures a + b == (a + b[..|b| - 1]) + [b[|b| - 1]]
  {
  }

  /** Appending messages that are neither tool results nor calls keeps the pairing. */
  lemma AppendKeepsPaired(msgs: seq<Message>, m: Message)
    requires Paired(msgs) && !m.role.Tool? && CallIds(m) == {}
    ensures Paired(msgs + [m])
  {
    var all := msgs + [m];
    forall c | 0 <= c < |all| ensures Answered(all, c) {
      if c < |msgs| {
        assert Answered(msgs, c);
        forall id | id in CallIds(all[c]) ensures HasAnswer(all, c, id) {
          var j: nat :| AnswersAt(msgs, c, id, j);
          assert AnswersAt(all, c, id, j);
        }
      }
    }
    forall i | 0 <= i < |all| ensures Keep(all, i) {
      if i < |msgs| {
        assert Keep(msgs, i);
        if Matched(msgs, i) {
          var j: nat :| MatchesAt(msgs, i, j);
          assert MatchesAt(all, i, j);
        }
      }
    }
  }
}
