/**
 Compaction of a running history and the rebuild of a history from its durable rows, where
 the latest compaction row stands for everything before the tail it kept.
 */
module ChatHistory {
  import opened ChatMessages
  import Repair = ChatRepair

  /** How many tail messages a compaction keeps out of its summary. */
  const KEEP_TAIL: nat := 8

  const SUMMARY_INTRO := "The following is a summary of earlier conversation history:\n\n"
  const SUMMARY_OUTRO := "\n\n(older context was compacted to stay within context window limits)"

  function SystemMessage(content: string): Message {
    Message(System, content, [], "")
  }

  function SummaryMessage(summary: string): Message {
    SystemMessage(SUMMARY_INTRO + summary + SUMMARY_OUTRO)
  }

  /** The last n elements, or all of them. */
  function LastOf<T>(s: seq<T>, n: nat): seq<T> {
    if |s| <= n then s else s[|s| - n..]
  }

  // ---------------------------------------------------------------------------
  // Live compaction
  // ---------------------------------------------------------------------------

  datatype Compaction = Compaction(messages: seq<Message>, summary: string, keptCount: nat)

  /** reply is the model's summary, empty when the call failed or returned nothing. */
  method CompactChatHistory(chat: seq<Message>, reply: string) returns (r: Compaction)
    ensures r.summary != "" <==> |chat| > 10 && reply != ""
    ensures r.summary == "" ==> r.messages == chat
    ensures r.summary != "" ==>
      && r.summary == reply && r.keptCount == KEEP_TAIL
      && r.messages == [chat[0], SummaryMessage(reply)] + LastOf(chat, KEEP_TAIL)
      && |r.messages| < |chat|
  {
    if |chat| <= 10 {
      return Compaction(chat, "", 0);
    }
    var keepEnd := |chat| - KEEP_TAIL;
    if keepEnd <= 1 || reply == "" {
      return Compaction(chat, "", 0);
    }
    r := Compaction([chat[0]] + [SummaryMessage(reply)] + chat[keepEnd..], reply, |chat| - keepEnd);
  }

  // ---------------------------------------------------------------------------
  // Durable rows
  // ---------------------------------------------------------------------------

  datatype RowRole = CompactionRow | Chat(role: Role)

  /** A persisted message; keptCount is 0 when absent. */
  datatype Row = Row(role: RowRole, content: string, keptCount: int, calls: seq<ToolCall>, callId: string)

  predicate IsBoundary(r: Row) {
    r.role.CompactionRow? && r.content != ""
  }

  /** The rows that are not compaction dividers, in order. */
  function Plain(rows: seq<Row>): seq<Row> {
    if rows == [] then []
    else
      var last := rows[|rows| - 1];
      Plain(rows[..|rows| - 1]) + if last.role.CompactionRow? then [] else [last]
  }

  function KeptOf(r: Row): nat {
    if r.keptCount > 0 then r.keptCount else KEEP_TAIL
  }

  /** The message a row turns into, if any. */
  function Rendered(r: Row): seq<Message>
    requires r.role.Chat?
  {
    match r.role.role
    case Assistant =>
      if r.calls != [] && r.content == "" then [Message(Assistant, "", r.calls, "")]
      else if r.content != "" then [Message(Assistant, r.content, [], "")]
      else []
    case Tool => [ToolResult(r.callId, r.content)]
    case other => [Message(other, r.content, [], "")]
  }

  function RenderAll(rows: seq<Row>): seq<Message> {
    if rows == [] then []
    else
      var last := rows[|rows| - 1];
      RenderAll(rows[..|rows| - 1]) + if last.role.CompactionRow? then [] else Rendered(last)
  }

  /** The latest compaction row with a summary, -1 when there is none. */
  ghost predicate IsLatestBoundary(rows: seq<Row>, boundary: int) {
    && -1 <= boundary < |rows|
    && (boundary >= 0 ==> IsBoundary(rows[boundary]))
    && forall i :: boundary < i < |rows| ==> !IsBoundary(rows[i])
  }

  /**
   What the rebuilt history must show of the rows: everything when nothing was compacted, and
   otherwise the tail the latest compaction kept followed by all that came after it.
   */
  function Window(rows: seq<Row>, boundary: int): seq<Row>
    requires -1 <= boundary < |rows|
  {
    if boundary < 0 then Plain(rows)
    else LastOf(Plain(rows[..boundary]), KeptOf(rows[boundary])) + Plain(rows[boundary + 1..])
  }

  // ---------------------------------------------------------------------------
  // What the messages show of the rows
  // ---------------------------------------------------------------------------

  /** Every row has a message, except dividers and assistant rows with neither text nor calls. */
  predicate IsShown(r: Row) {
    match r.role
    case CompactionRow => false
    case Chat(role) => role != Assistant || r.content != "" || r.calls != []
  }

  function Shown(rows: seq<Row>): seq<Row> {
    if rows == [] then []
    else Shown(rows[..|rows| - 1]) + if IsShown(rows[|rows| - 1]) then [rows[|rows| - 1]] else []
  }

  /** The message has its row's role and text, a tool result its call, an assistant without text its calls. */
  ghost predicate ShowsRow(m: Message, r: Row) {
    && r.role == Chat(m.role) && m.content == r.content
    && m.callId == (if m.role.Tool? then r.callId else "")
    && m.calls == if m.role.Assistant? && r.content == "" then r.calls else []
  }

  /** One message for each row, in the same order. */
  ghost predicate ShowsRows(msgs: seq<Message>, rows: seq<Row>) {
    |msgs| == |rows| && forall i :: 0 <= i < |rows| ==> ShowsRow(msgs[i], rows[i])
  }

  lemma RenderedShows(r: Row)
    requires r.role.Chat?
    ensures ShowsRows(Rendered(r), if IsShown(r) then [r] else [])
  {
  }

  lemma ShowsConcat(a: seq<Message>, b: seq<Message>, rows: seq<Row>, more: seq<Row>)
    requires ShowsRows(a, rows) && ShowsRows(b, more)
    ensures ShowsRows(a + b, rows + more)
  {
    hide ShowsRow;
  }

  lemma {:induction false} RenderAllShows(rows: seq<Row>)
    ensures ShowsRows(RenderAll(rows), Shown(rows))
  {
    if rows != [] {
      hide ShowsRows, Rendered, IsShown;
      var init, last := rows[..|rows| - 1], rows[|rows| - 1];
      RenderAllShows(init);
      if last.role.Chat? {
        RenderedShows(last);
        ShowsConcat(RenderAll(init), Rendered(last), Shown(init), if IsShown(last) then [last] else []);
      } else {
        DividersAreNotShown(last);
        assert RenderAll(init) + [] == RenderAll(init) && Shown(init) + [] == Shown(init);
      }
    }
  }

  lemma DividersAreNotShown(r: Row)
    requires r.role.CompactionRow?
    ensures !IsShown(r)
  {
  }

  function NonToolRows(rows: seq<Row>): seq<Row> {
    if rows == [] then []
    else NonToolRows(rows[..|rows| - 1]) + if rows[|rows| - 1].role == Chat(Tool) then [] else [rows[|rows| - 1]]
  }

  lemma ShowsOneMore(msgs: seq<Message>, rows: seq<Row>, m: Message, r: Row)
    requires ShowsRows(msgs, rows) && ShowsRow(m, r)
    ensures ShowsRows(msgs + [m], rows + [r])
  {
    hide ShowsRow;
  }

  lemma ShowsAllButLast(msgs: seq<Message>, rows: seq<Row>)
    requires ShowsRows(msgs, rows) && rows != []
    ensures |msgs| == |rows| && ShowsRows(msgs[..|msgs| - 1], rows[..|rows| - 1])
    ensures var m, r := msgs[|msgs| - 1], rows[|rows| - 1];
      ShowsRow(m, r) && (m.role.Tool? <==> r.role == Chat(Tool))
  {
  }

  lemma {:induction false} NonToolsShow(msgs: seq<Message>, rows: seq<Row>)
    requires ShowsRows(msgs, rows)
    ensures ShowsRows(Repair.NonTools(msgs), NonToolRows(rows))
  {
    if rows != [] {
      ShowsAllButLast(msgs, rows);
      hide ShowsRows, ShowsRow;
      var init, last := msgs[..|msgs| - 1], msgs[|msgs| - 1];
      NonToolsShow(init, rows[..|rows| - 1]);
      ShowsOneMore(Repair.NonTools(init), NonToolRows(rows[..|rows| - 1]), last, rows[|rows| - 1]);
    }
  }

  lemma PlainOfAppend(rows: seq<Row>, r: Row)
    ensures Plain(rows + [r]) == Plain(rows) + if r.role.CompactionRow? then [] else [r]
  {
    assert (rows + [r])[..|rows|] == rows;
  }

  lemma {:induction false} PlainOfConcat(a: seq<Row>, b: seq<Row>)
    ensures Plain(a + b) == Plain(a) + Plain(b)
  {
    if b == [] {
      assert a + b == a;
    } else {
      hide Plain;
      PlainOfConcat(a, b[..|b| - 1]);
      PlainOfAppend(a + b[..|b| - 1], b[|b| - 1]);
      PlainOfAppend(b[..|b| - 1], b[|b| - 1]);
      SplitLast(a, b);
    }
  }

  lemma PlainOfOne(r: Row)
    ensures Plain([r]) == if r.role.CompactionRow? then [] else [r]
  {
    assert [r][..0] == [];
  }

  lemma PlainStepBack(rows: seq<Row>, i: nat, hi: nat)
    requires i < hi <= |rows|
    ensures Plain(rows[i..hi]) == (if rows[i].role.CompactionRow? then [] else [rows[i]]) + Plain(rows[i + 1..hi])
  {
    hide Plain;
    PlainOfConcat([rows[i]], rows[i + 1..hi]);
    PlainOfOne(rows[i]);
    assert rows[i..hi] == [rows[i]] + rows[i + 1..hi];
  }

  /** The messages of rows lo..hi. */
  ghost function RenderRange(rows: seq<Row>, lo: nat, hi: nat): seq<Message>
    requires hi <= |rows|
    decreases hi
  {
    if lo >= hi then []
    else RenderRange(rows, lo, hi - 1) + if rows[hi - 1].role.CompactionRow? then [] else Rendered(rows[hi - 1])
  }

  lemma {:induction false} RenderRangeIsRenderAll(rows: seq<Row>, lo: nat, hi: nat)
    requires lo <= hi <= |rows|
    ensures RenderRange(rows, lo, hi) == RenderAll(rows[lo..hi])
  {
    hide Rendered;
    if lo < hi {
      RenderRangeIsRenderAll(rows, lo, hi - 1);
      var all := rows[lo..hi];
      assert all[..|all| - 1] == rows[lo..hi - 1] && all[|all| - 1] == rows[hi - 1];
    } else {
      assert rows[lo..hi] == [];
    }
  }

  lemma {:induction false} RenderAllOfPlain(rows: seq<Row>)
    ensures RenderAll(Plain(rows)) == RenderAll(rows)
  {
    if rows != [] {
      var init, last := rows[..|rows| - 1], rows[|rows| - 1];
      RenderAllOfPlain(init);
      if !last.role.CompactionRow? {
        assert Plain(rows)[..|Plain(init)|] == Plain(init);
      } else {
        assert Plain(rows) == Plain(init);
      }
    }
  }

  /** Finds the durable boundary from the end. */
  method FindBoundary(rows: seq<Row>) returns (boundary: int)
    ensures IsLatestBoundary(rows, boundary)
  {
    boundary := -1;
    var i := |rows|;
    while i > 0
      invariant 0 <= i <= |rows| && boundary == -1
      invariant forall k :: i <= k < |rows| ==> !IsBoundary(rows[k])
    {
      i := i - 1;
      if rows[i].role.CompactionRow? && rows[i].content != "" {
        return i;
      }
    }
  }

  lemma TailIsComplete(rows: seq<Row>, i: nat, start: nat, boundary: nat, kept: nat)
    requires i <= start <= boundary <= |rows| && Plain(rows[i..boundary]) == Plain(rows[start..boundary])
    requires |Plain(rows[start..boundary])| <= kept && (i == 0 || |Plain(rows[start..boundary])| == kept)
    ensures Plain(rows[start..boundary]) == LastOf(Plain(rows[..boundary]), kept)
  {
    PlainOfConcat(rows[..i], rows[i..boundary]);
    assert rows[..boundary] == rows[..i] + rows[i..boundary];
  }

  /** Walks back over superseded compaction rows until the kept tail is complete. */
  method WindowStart(rows: seq<Row>, boundary: int) returns (start: nat)
    requires IsLatestBoundary(rows, boundary)
    ensures IsWindowStart(rows, boundary, start)
  {
    start := 0;
    if boundary < 0 {
      return;
    }
    var kept := KeptOf(rows[boundary]);
    start := boundary;
    var retained := 0;
    var i := boundary;
    assert Plain(rows[boundary..boundary]) == [];
    hide Plain, LastOf;
    while i > 0 && retained < kept
      invariant 0 <= i <= start <= boundary && retained <= kept
      invariant Plain(rows[i..boundary]) == Plain(rows[start..boundary])
      invariant |Plain(rows[start..boundary])| == retained
    {
      i := i - 1;
      PlainStepBack(rows, i, boundary);
      if rows[i].role.CompactionRow? {
        continue;
      }
      retained := retained + 1;
      start := i;
    }
    TailIsComplete(rows, i, start, boundary, kept);
  }

  /** The index from which exactly the kept tail and the later rows remain. */
  ghost predicate IsWindowStart(rows: seq<Row>, boundary: int, start: nat)
    requires -1 <= boundary < |rows|
  {
    && start <= |rows| && (boundary < 0 ==> start == 0)
    && (boundary >= 0 ==>
          start <= boundary && Plain(rows[start..boundary]) == LastOf(Plain(rows[..boundary]), KeptOf(rows[boundary])))
  }

  function SummaryPart(rows: seq<Row>, boundary: int): seq<Message>
    requires -1 <= boundary < |rows|
  {
    if boundary < 0 then [] else [SummaryMessage(rows[boundary].content)]
  }

  /** The messages of the rows from start on, and the boundary's summary if it is among them. */
  method RenderRows(rows: seq<Row>, start: nat, boundary: int) returns (messages: seq<Message>, summary: string)
    requires start <= |rows| && -1 <= boundary < |rows| && (boundary >= 0 ==> rows[boundary].role.CompactionRow?)
    ensures messages == RenderAll(rows[start..]) && ShowsRows(messages, Shown(rows[start..]))
    ensures summary == if start <= boundary then rows[boundary].content else ""
  {
    messages, summary := [], "";
    for i := start to |rows|
      invariant messages == RenderRange(rows, start, i)
      invariant summary == if start <= boundary < i then rows[boundary].content else ""
    {
      if rows[i].role.CompactionRow? {
        if i == boundary {
          summary := rows[i].content;
        }
        continue;
      }
      match rows[i].role.role {
        case Assistant =>
          if rows[i].calls != [] && rows[i].content == "" {
            messages := messages + [Message(Assistant, "", rows[i].calls, "")];
          } else if rows[i].content != "" {
            messages := messages + [Message(Assistant, rows[i].content, [], "")];
          }
        case Tool =>
          messages := messages + [ToolResult(rows[i].callId, rows[i].content)];
        case other =>
          messages := messages + [Message(other, rows[i].content, [], "")];
      }
    }
    RenderRangeIsRenderAll(rows, start, |rows|);
    assert rows[start..|rows|] == rows[start..];
    RenderAllShows(rows[start..]);
  }

  /** The messages between the prompt and the window. */
  function HeadSize(boundary: int): nat {
    if boundary < 0 then 0 else 1
  }

  /** A system message that holds the summary between its introduction and its note. */
  ghost predicate TellsSummary(m: Message, summary: string) {
    m.role.System? && m.content == SUMMARY_INTRO + summary + SUMMARY_OUTRO
  }

  lemma SummaryTells(rows: seq<Row>, boundary: int)
    requires -1 <= boundary < |rows|
    ensures |SummaryPart(rows, boundary)| == HeadSize(boundary)
    ensures boundary >= 0 ==> TellsSummary(SummaryPart(rows, boundary)[0], rows[boundary].content)
  {
  }

  lemma RebuiltShows(rows: seq<Row>, boundary: int, prompt: string, chat: seq<Message>)
    requires -1 <= boundary < |rows|
    requires chat == [SystemMessage(prompt)] + SummaryPart(rows, boundary) + RenderAll(Window(rows, boundary))
    ensures |chat| > HeadSize(boundary) && chat[0].role.System? && chat[0].content == prompt
    ensures boundary >= 0 ==> TellsSummary(chat[1], rows[boundary].content)
    ensures ShowsRows(chat[1 + HeadSize(boundary)..], Shown(Window(rows, boundary)))
  {
    RenderAllShows(Window(rows, boundary));
    SummaryTells(rows, boundary);
    hide ShowsRows, TellsSummary, RenderAll, Window, SummaryPart;
    assert chat[1 + HeadSize(boundary)..] == RenderAll(Window(rows, boundary));
  }

  /**
   Rebuilds the model history from the durable rows: the system prompt, the summary if any
   right after it, and the messages of the retained window.
   */
  method RebuildHistory(rows: seq<Row>, prompt: string) returns (chat: seq<Message>, boundary: int)
    ensures IsLatestBoundary(rows, boundary)
    ensures chat == [SystemMessage(prompt)] + SummaryPart(rows, boundary) + RenderAll(Window(rows, boundary))
    ensures |chat| > HeadSize(boundary) && chat[0].role.System? && chat[0].content == prompt
    ensures boundary >= 0 ==> TellsSummary(chat[1], rows[boundary].content)
    ensures ShowsRows(chat[1 + HeadSize(boundary)..], Shown(Window(rows, boundary)))
  {
    boundary := FindBoundary(rows);
    var start := WindowStart(rows, boundary);
    WindowOfRows(rows, boundary, start);
    var messages, summary := RenderRows(rows, start, boundary);
    hide RenderAll, Window, SummaryMessage, LastOf;
    chat := [SystemMessage(prompt)];
    if summary != "" {
      chat := chat + [SummaryMessage(summary)];
    }
    chat := chat + messages;
    RebuiltShows(rows, boundary, prompt, chat);
    hide ShowsRows, TellsSummary, HeadSize;
  }

  lemma SplitAround<T>(s: seq<T>, lo: nat, i: nat)
    requires lo <= i < |s|
    ensures s[lo..] == (s[lo..i] + [s[i]]) + s[i + 1..]
  {
  }

  lemma PlainAround(rows: seq<Row>, lo: nat, i: nat)
    requires lo <= i < |rows| && rows[i].role.CompactionRow?
    ensures Plain(rows[lo..]) == Plain(rows[lo..i]) + Plain(rows[i + 1..])
  {
    hide Plain;
    PlainOfConcat(rows[lo..i] + [rows[i]], rows[i + 1..]);
    PlainOfAppend(rows[lo..i], rows[i]);
    SplitAround(rows, lo, i);
  }

  lemma WindowOfRows(rows: seq<Row>, boundary: int, start: nat)
    requires IsLatestBoundary(rows, boundary) && IsWindowStart(rows, boundary, start)
    ensures RenderAll(rows[start..]) == RenderAll(Window(rows, boundary))
  {
    hide RenderAll, Plain, LastOf;
    RenderAllOfPlain(rows[start..]);
    if boundary >= 0 {
      PlainAround(rows, start, boundary);
    } else {
      assert rows[start..] == rows;
    }
  }

  /**
   The window is the newest part of the rows that are no dividers: with a boundary all those after it
   and as many before it as it says were kept, eight if it does not say; otherwise all.
   */
  lemma WindowIsNewest(rows: seq<Row>, boundary: int)
    requires -1 <= boundary < |rows| && (boundary >= 0 ==> rows[boundary].role.CompactionRow?)
    ensures var window, all := Window(rows, boundary), Plain(rows);
      && |window| <= |all| && window == all[|all| - |window|..]
      && (boundary < 0 ==> |window| == |all|)
      && (boundary >= 0 ==>
            var after := |Plain(rows[boundary + 1..])|;
            var kept := if rows[boundary].keptCount > 0 then rows[boundary].keptCount else 8;
            |window| == after + if |all| - after <= kept then |all| - after else kept)
  {
    hide Plain;
    if boundary >= 0 {
      PlainAround(rows, 0, boundary);
      assert rows[0..] == rows && rows[0..boundary] == rows[..boundary];
    }
  }

  /** The history a turn starts from: rebuilt, then repaired. The summary stays right after the prompt. */
  method StartingHistory(rows: seq<Row>, prompt: string) returns (chat: seq<Message>, boundary: int)
    ensures Paired(chat) && IsLatestBoundary(rows, boundary)
    ensures chat != [] && chat[0] == SystemMessage(prompt)
    ensures boundary >= 0 ==> |chat| >= 2 && chat[1] == SummaryMessage(rows[boundary].content)
    ensures Repair.NonTools(chat) ==
      [SystemMessage(prompt)] + SummaryPart(rows, boundary) + Repair.NonTools(RenderAll(Window(rows, boundary)))
    ensures |Repair.NonTools(chat)| > HeadSize(boundary)
    ensures ShowsRows(Repair.NonTools(chat)[1 + HeadSize(boundary)..], NonToolRows(Shown(Window(rows, boundary))))
    ensures boundary >= 0 ==> TellsSummary(chat[1], rows[boundary].content)
  {
    var built: seq<Message>;
    built, boundary := RebuildHistory(rows, prompt);
    hide RenderAll, Window, Paired, Repair.NonTools, Repair.Adds, Repair.Retained;
    chat := Repair.SanitizeChatMessages(built);
    Repair.RepairKeepsNonTools(built, chat);
    var head := [SystemMessage(prompt)] + SummaryPart(rows, boundary);
    HeadStays(built, chat, |head|);
    NonToolsOfConcat(head, RenderAll(Window(rows, boundary)));
    SystemsAreNonTools(head);
    assert chat[..|head|] == head;
    assert chat[0] == head[0];
    StartingRows(rows, boundary, prompt);
    SummaryTells(rows, boundary);
    hide ShowsRows, TellsSummary, SummaryPart;
  }

  lemma StartingRows(rows: seq<Row>, boundary: int, prompt: string)
    requires -1 <= boundary < |rows|
    ensures var window := Window(rows, boundary);
      var all := [SystemMessage(prompt)] + SummaryPart(rows, boundary) + Repair.NonTools(RenderAll(window));
      |all| > HeadSize(boundary) && ShowsRows(all[1 + HeadSize(boundary)..], NonToolRows(Shown(window)))
  {
    var window := Window(rows, boundary);
    RenderAllShows(window);
    NonToolsShow(RenderAll(window), Shown(window));
    hide ShowsRows, Window, Repair.NonTools, RenderAll;
    var all := [SystemMessage(prompt)] + SummaryPart(rows, boundary) + Repair.NonTools(RenderAll(window));
    assert all[1 + HeadSize(boundary)..] == Repair.NonTools(RenderAll(window));
  }

  lemma HeadStays(built: seq<Message>, chat: seq<Message>, n: nat)
    requires Repair.LeadKept(built, chat) && n <= |built| && forall k :: 0 <= k < n ==> built[k].role.System?
    ensures n <= |chat| && chat[..n] == built[..n]
  {
    assert n <= Lead(built);
    assert chat[..n] == chat[..Lead(built)][..n] == built[..Lead(built)][..n];
  }

  lemma {:induction false} NonToolsOfConcat(a: seq<Message>, b: seq<Message>)
    ensures Repair.NonTools(a + b) == Repair.NonTools(a) + Repair.NonTools(b)
  {
    if b == [] {
      assert a + b == a;
    } else {
      hide Repair.NonTools;
      NonToolsOfConcat(a, b[..|b| - 1]);
      Repair.NonToolsOfAppend(a + b[..|b| - 1], b[|b| - 1]);
      Repair.NonToolsOfAppend(b[..|b| - 1], b[|b| - 1]);
      SplitLast(a, b);
    }
  }

  lemma {:induction false} SystemsAreNonTools(msgs: seq<Message>)
    requires forall k :: 0 <= k < |msgs| ==> msgs[k].role.System?
    ensures Repair.NonTools(msgs) == msgs
  {
    if msgs != [] {
      SystemsAreNonTools(msgs[..|msgs| - 1]);
    }
  }
}
