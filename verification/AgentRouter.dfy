/** The OpenAI-to-Anthropic turn builder of internal/proxy/agentrouter.go: pairing of tool
    ids, and merging of neighbouring turns of one role. Messages are already parsed. */
module AgentRouter {
  import opened Text

  /** A content value: a string, a list of blocks, or anything else with its `%v` text. */
  datatype Content = Plain(text: string) | Blocks(blocks: seq<Block>) | Odd(rendered: string)

  datatype Block =
    | TextBlock(value: Content)
    | ToolUse(id: string, name: string)
    | ToolResult(id: string, text: string)
    | Thinking(thought: string)
    | Other(tag: string)

  datatype Call = Call(id: string, name: string)

  /** `blocks` and `text` are the two readings of the content field. */
  datatype Message = Message(
    role: string, blocks: seq<Block>, text: string, reasoning: string,
    toolCallId: string, calls: seq<Call>)

  datatype Role = User | Assistant

  datatype Turn = Turn(role: Role, content: Content)

  /** What the message loop carries along. */
  datatype Progress = Progress(system: seq<string>, turns: seq<Turn>, pending: seq<string>)

  const START := Progress([], [], [])

  // ----- Ids -----

  function GeneratedId(msgIdx: nat, k: nat): string {
    "call_msg" + Decimal(msgIdx) + "_" + Decimal(k)
  }

  function UnknownId(msgIdx: nat): string {
    "call_unknown_" + Decimal(msgIdx)
  }

  lemma GeneratedIdInjective(m: nat, k: nat, m': nat, k': nat)
    requires GeneratedId(m, k) == GeneratedId(m', k')
    ensures m == m' && k == k'
  {
    var a, b := GeneratedId(m, k), GeneratedId(m', k');
    assert a[8..] == Decimal(m) + ['_'] + Decimal(k);
    assert b[8..] == Decimal(m') + ['_'] + Decimal(k');
    SplitAtSeparator(Decimal(m), Decimal(m'), Decimal(k), Decimal(k'), '_');
    DecimalInjective(m, m');
    DecimalInjective(k, k');
  }

  lemma UnknownIsNotGenerated(m: nat, m': nat, k: nat)
    ensures UnknownId(m) != GeneratedId(m', k)
  {
    assert UnknownId(m)[5] == 'u' && GeneratedId(m', k)[5] == 'm';
  }

  /** `removeFromToolUseQueue` */
  function RemoveFirst(queue: seq<string>, id: string): seq<string> {
    if queue == [] then []
    else if queue[0] == id then queue[1..]
    else [queue[0]] + RemoveFirst(queue[1..], id)
  }

  method RemoveFromQueue(queue: seq<string>, id: string) returns (r: seq<string>)
    ensures r == RemoveFirst(queue, id)
  {
    var i := 0;
    while i < |queue|
      invariant i <= |queue|
      invariant RemoveFirst(queue, id) == queue[..i] + RemoveFirst(queue[i..], id)
    {
      if queue[i] == id {
        return queue[..i] + queue[i + 1..];
      }
      assert queue[..i + 1] == queue[..i] + [queue[i]];
      i := i + 1;
    }
    return queue;
  }

  // ----- Blocks of one message -----

  /** The ids of the tool_use blocks, in order. */
  function UseIds(blocks: seq<Block>): seq<string> {
    if blocks == [] then []
    else
      var last := blocks[|blocks| - 1];
      UseIds(blocks[..|blocks| - 1]) + (if last.ToolUse? then [last.id] else [])
  }

  predicate HasToolUse(blocks: seq<Block>) {
    UseIds(blocks) != []
  }

  function ResultIds(blocks: seq<Block>): seq<string> {
    if blocks == [] then []
    else
      var last := blocks[|blocks| - 1];
      ResultIds(blocks[..|blocks| - 1]) + (if last.ToolResult? then [last.id] else [])
  }

  /** A tool_use block without an id gets the one for the `k`-th call of its message. */
  function FixId(block: Block, msgIdx: nat, k: nat): Block {
    if block.ToolUse? && block.id == "" then ToolUse(GeneratedId(msgIdx, k), block.name) else block
  }

  function FixIds(blocks: seq<Block>, msgIdx: nat): seq<Block> {
    if blocks == [] then []
    else
      var front := FixIds(blocks[..|blocks| - 1], msgIdx);
      front + [FixId(blocks[|blocks| - 1], msgIdx, |UseIds(front)|)]
  }

  function CallBlock(c: Call, msgIdx: nat, k: nat): Block {
    ToolUse(if c.id == "" then GeneratedId(msgIdx, k) else c.id, if c.name == "" then "unknown_tool" else c.name)
  }

  function CallBlocks(calls: seq<Call>, msgIdx: nat): (r: seq<Block>)
    ensures |r| == |calls| && forall i :: 0 <= i < |r| ==> r[i].ToolUse?
  {
    if calls == [] then []
    else
      var k := |calls| - 1;
      CallBlocks(calls[..k], msgIdx) + [CallBlock(calls[k], msgIdx, k)]
  }

  function ThinkingBlocks(m: Message): seq<Block> {
    if m.role == "assistant" && m.reasoning != "" then [Thinking(m.reasoning)] else []
  }

  /** All blocks of a user or assistant message. */
  function MessageBlocks(m: Message, msgIdx: nat): seq<Block> {
    var written := ThinkingBlocks(m) + m.blocks;
    FixIds(written, msgIdx)
    + (if m.role == "assistant" && !HasToolUse(written) then CallBlocks(m.calls, msgIdx) else [])
  }

  /** The turns a list of blocks becomes. */
  function TurnOf(role: Role, blocks: seq<Block>): seq<Turn> {
    if blocks == [] then
      if role == Assistant then [Turn(role, Plain(" "))] else []
    else if |blocks| == 1 && blocks[0].TextBlock? then [Turn(role, blocks[0].value)]
    else [Turn(role, Blocks(blocks))]
  }

  predicate IsSystem(m: Message) {
    m.role == "system" || m.role == "developer"
  }

  predicate IsTool(m: Message) {
    m.role == "tool"
  }

  function RoleOf(m: Message): Role {
    if m.role == "assistant" then Assistant else User
  }

  /** The id a tool result carries. */
  function ResultId(p: Progress, m: Message, msgIdx: nat): string {
    if m.toolCallId != "" then m.toolCallId
    else if p.pending != [] then p.pending[0]
    else UnknownId(msgIdx)
  }

  function Advance(p: Progress, m: Message, msgIdx: nat): Progress {
    if IsSystem(m) then
      if m.text == "" then p else p.(system := p.system + [m.text])
    else if IsTool(m) then
      var result := ToolResult(ResultId(p, m, msgIdx), if m.text == "" then "Done" else m.text);
      p.(turns := p.turns + [Turn(User, Blocks([result]))],
         pending := if m.toolCallId != "" then RemoveFirst(p.pending, m.toolCallId)
                    else if p.pending != [] then p.pending[1..] else [])
    else
      var blocks := MessageBlocks(m, msgIdx);
      p.(turns := p.turns + TurnOf(RoleOf(m), blocks), pending := p.pending + UseIds(blocks))
  }

  function Progressed(msgs: seq<Message>): Progress {
    if msgs == [] then START
    else Advance(Progressed(msgs[..|msgs| - 1]), msgs[|msgs| - 1], |msgs| - 1)
  }

  // ----- The loops of the source -----

  lemma {:induction false} UseIdsAppend(a: seq<Block>, b: seq<Block>)
    ensures UseIds(a + b) == UseIds(a) + UseIds(b)
    ensures ResultIds(a + b) == ResultIds(a) + ResultIds(b)
  {
    if b == [] {
      assert a + b == a;
    } else {
      assert (a + b)[..|a + b| - 1] == a + b[..|b| - 1];
      UseIdsAppend(a, b[..|b| - 1]);
    }
  }

  lemma FixOneMore(blocks: seq<Block>, block: Block, msgIdx: nat)
    ensures var front := FixIds(blocks, msgIdx);
            var fixed := FixId(block, msgIdx, |UseIds(front)|);
            && FixIds(blocks + [block], msgIdx) == front + [fixed]
            && UseIds(front + [fixed]) == UseIds(front) + (if block.ToolUse? then [fixed.id] else [])
            && UseIds(blocks + [block]) == UseIds(blocks) + (if block.ToolUse? then [block.id] else [])
  {
    var front := FixIds(blocks, msgIdx);
    var fixed := FixId(block, msgIdx, |UseIds(front)|);
    assert (blocks + [block])[..|blocks|] == blocks;
    assert (front + [fixed])[..|front|] == front;
  }

  method FixBlockIds(blocks: seq<Block>, msgIdx: nat, queue: seq<string>)
    returns (r: seq<Block>, hasToolUse: bool, pending: seq<string>)
    ensures r == FixIds(blocks, msgIdx)
    ensures hasToolUse <==> HasToolUse(blocks)
    ensures pending == queue + UseIds(r)
  {
    r, hasToolUse, pending := [], false, queue;
    var k := 0;
    ghost var prefix, ids := [], [];
    for i := 0 to |blocks|
      invariant prefix == blocks[..i]
      invariant r == FixIds(prefix, msgIdx) && ids == UseIds(r)
      invariant hasToolUse <==> HasToolUse(prefix)
      invariant pending == queue + ids && k == |ids|
    {
      FixOneMore(prefix, blocks[i], msgIdx);
      TakeOneMore(blocks, i);
      prefix := prefix + [blocks[i]];
      var block := FixId(blocks[i], msgIdx, k);
      if block.ToolUse? {
        AppendAssociative(queue, ids, [block.id]);
        hasToolUse := true;
        pending := pending + [block.id];
        ids := ids + [block.id];
        k := k + 1;
      }
      r := r + [block];
    }
    assert prefix == blocks;
  }

  lemma CallsOneMore(calls: seq<Call>, c: Call, msgIdx: nat)
    ensures CallBlocks(calls + [c], msgIdx) == CallBlocks(calls, msgIdx) + [CallBlock(c, msgIdx, |calls|)]
  {
    assert (calls + [c])[..|calls|] == calls;
  }

  lemma UseOneMore(blocks: seq<Block>, block: Block)
    requires block.ToolUse?
    ensures UseIds(blocks + [block]) == UseIds(blocks) + [block.id]
  {
    assert (blocks + [block])[..|blocks|] == blocks;
  }

  method AddCalls(calls: seq<Call>, msgIdx: nat, queue: seq<string>) returns (r: seq<Block>, pending: seq<string>)
    ensures r == CallBlocks(calls, msgIdx)
    ensures pending == queue + UseIds(r)
  {
    r, pending := [], queue;
    ghost var prefix, ids := [], [];
    for k := 0 to |calls|
      invariant prefix == calls[..k]
      invariant r == CallBlocks(prefix, msgIdx) && ids == UseIds(r)
      invariant pending == queue + ids
    {
      var name := if calls[k].name == "" then "unknown_tool" else calls[k].name;
      var id := if calls[k].id == "" then GeneratedId(msgIdx, k) else calls[k].id;
      CallsOneMore(prefix, calls[k], msgIdx);
      UseOneMore(r, ToolUse(id, name));
      TakeOneMore(calls, k);
      AppendAssociative(queue, ids, [id]);
      pending := pending + [id];
      r := r + [ToolUse(id, name)];
      prefix, ids := prefix + [calls[k]], ids + [id];
    }
    assert prefix == calls;
  }

  /** The blocks of one user or assistant message, with their ids put in the queue. */
  method BuildBlocks(m: Message, msgIdx: nat, queue: seq<string>) returns (blocks: seq<Block>, pending: seq<string>)
    ensures blocks == MessageBlocks(m, msgIdx)
    ensures pending == queue + UseIds(blocks)
  {
    var written := m.blocks;
    if m.role == "assistant" && m.reasoning != "" {
      written := [Thinking(m.reasoning)] + m.blocks;
    }
    assert written == ThinkingBlocks(m) + m.blocks;
    var fixed, hasToolUse, ids := FixBlockIds(written, msgIdx, queue);
    if m.role == "assistant" && !hasToolUse {
      var more;
      more, pending := AddCalls(m.calls, msgIdx, ids);
      UseIdsAppend(fixed, more);
      AppendAssociative(queue, UseIds(fixed), UseIds(more));
      blocks := fixed + more;
    } else {
      assert fixed + [] == fixed;
      blocks, pending := fixed, ids;
    }
  }

  method TranslateMessages(msgs: seq<Message>)
    returns (system: seq<string>, turns: seq<Turn>, pending: seq<string>)
    ensures Progress(system, turns, pending) == Progressed(msgs)
  {
    system, turns, pending := [], [], [];
    for i := 0 to |msgs|
      invariant Progress(system, turns, pending) == Progressed(msgs[..i])
    {
      var m := msgs[i];
      assert msgs[..i + 1][..i] == msgs[..i];
      if m.role == "system" || m.role == "developer" {
        if m.text != "" {
          system := system + [m.text];
        }
        continue;
      }
      if m.role == "tool" {
        var id := m.toolCallId;
        if id == "" {
          if |pending| > 0 {
            id := pending[0];
            pending := pending[1..];
          } else {
            id := UnknownId(i);
          }
        } else {
          pending := RemoveFromQueue(pending, id);
        }
        turns := turns + [Turn(User, Blocks([ToolResult(id, if m.text == "" then "Done" else m.text)]))];
        continue;
      }
      var role := if m.role == "assistant" then Assistant else User;
      var blocks;
      blocks, pending := BuildBlocks(m, i, pending);
      if |blocks| == 0 {
        if role == Assistant {
          turns := turns + [Turn(role, Plain(" "))];
        }
      } else if |blocks| == 1 && blocks[0].TextBlock? {
        turns := turns + [Turn(role, blocks[0].value)];
      } else {
        turns := turns + [Turn(role, Blocks(blocks))];
      }
    }
    assert msgs[..|msgs|] == msgs;
  }

  // ----- Coalescing -----

  /** `toBlocks` of mergeContent */
  function ToBlocks(c: Content): seq<Block> {
    match c
    case Plain(text) => if text == "" || text == " " then [] else [TextBlock(Plain(text))]
    case Blocks(blocks) => blocks
    case Odd(rendered) => if rendered == "" then [] else [TextBlock(Plain(rendered))]
  }

  function MergeContent(existing: Content, incoming: Content): Content {
    var blocks := ToBlocks(existing) + ToBlocks(incoming);
    if blocks == [] then Plain(" ") else Blocks(blocks)
  }

  /** Merging contents appends their blocks. */
  lemma MergeIsHomomorphism(a: Content, b: Content)
    ensures ToBlocks(MergeContent(a, b)) == ToBlocks(a) + ToBlocks(b)
  {
  }

  datatype Said = Said(role: Role, block: Block)

  function SaidIn(role: Role, blocks: seq<Block>): (r: seq<Said>)
    ensures |r| == |blocks| && forall i :: 0 <= i < |r| ==> r[i] == Said(role, blocks[i])
  {
    seq(|blocks|, i requires 0 <= i < |blocks| => Said(role, blocks[i]))
  }

  /** Every block of a conversation with the role that says it, in order. */
  function Flatten(turns: seq<Turn>): seq<Said> {
    if turns == [] then []
    else
      var last := turns[|turns| - 1];
      Flatten(turns[..|turns| - 1]) + SaidIn(last.role, ToBlocks(last.content))
  }

  ghost predicate Alternates(turns: seq<Turn>) {
    forall i :: 0 <= i < |turns| - 1 ==> turns[i].role != turns[i + 1].role
  }

  lemma SaidInAppend(role: Role, a: seq<Block>, b: seq<Block>)
    ensures SaidIn(role, a + b) == SaidIn(role, a) + SaidIn(role, b)
  {
  }

  lemma FlattenAppend(turns: seq<Turn>, turn: Turn)
    ensures Flatten(turns + [turn]) == Flatten(turns) + SaidIn(turn.role, ToBlocks(turn.content))
  {
    assert (turns + [turn])[..|turns|] == turns;
  }

  lemma MergeLast(front: seq<Turn>, last: Turn, content: Content)
    ensures Flatten(front + [last.(content := MergeContent(last.content, content))]) ==
            Flatten(front + [last]) + SaidIn(last.role, ToBlocks(content))
  {
    var merged := last.(content := MergeContent(last.content, content));
    FlattenAppend(front, last);
    FlattenAppend(front, merged);
    MergeIsHomomorphism(last.content, content);
    var a, b := ToBlocks(last.content), ToBlocks(content);
    SaidInAppend(last.role, a, b);
    AppendAssociative(Flatten(front), SaidIn(last.role, a), SaidIn(last.role, b));
  }

  /** Neighbouring turns of one role become one; nothing said is lost, moved or given to
      the other role. */
  method CoalesceMessages(msgs: seq<Turn>) returns (result: seq<Turn>)
    ensures Alternates(result)
    ensures Flatten(result) == Flatten(msgs)
    ensures msgs == [] <==> result == []
    ensures msgs != [] ==> result[0].role == msgs[0].role
  {
    if |msgs| <= 1 {
      return msgs;
    }
    result := [];
    for i := 0 to |msgs|
      invariant Alternates(result)
      invariant Flatten(result) == Flatten(msgs[..i])
      invariant i == 0 <==> result == []
      invariant i > 0 ==> result[0].role == msgs[0].role
    {
      var msg := msgs[i];
      TakeOneMore(msgs, i);
      FlattenAppend(msgs[..i], msg);
      if |result| > 0 && result[|result| - 1].role == msg.role {
        var front, last := result[..|result| - 1], result[|result| - 1];
        assert result == front + [last];
        MergeLast(front, last, msg.content);
        result := front + [last.(content := MergeContent(last.content, msg.content))];
      } else {
        FlattenAppend(result, msg);
        result := result + [msg];
      }
    }
    assert msgs[..|msgs|] == msgs;
  }

  const HELLO := Turn(User, Plain("Hello"))

  lemma {:induction false} FlattenCons(first: Turn, turns: seq<Turn>)
    ensures Flatten([first] + turns) == SaidIn(first.role, ToBlocks(first.content)) + Flatten(turns)
  {
    var all := [first] + turns;
    if turns == [] {
      assert all == [first] && all[..0] == [];
    } else {
      assert all[..|all| - 1] == [first] + turns[..|turns| - 1];
      FlattenCons(first, turns[..|turns| - 1]);
    }
  }

  // ----- Pairing of tool results with tool calls -----

  function BlocksOf(said: seq<Said>): (r: seq<Block>)
    ensures |r| == |said| && forall i :: 0 <= i < |r| ==> r[i] == said[i].block
  {
    seq(|said|, i requires 0 <= i < |said| => said[i].block)
  }

  /** Ids of the tool calls of a conversation, and of its tool results, in order. */
  function Uses(turns: seq<Turn>): seq<string> {
    UseIds(BlocksOf(Flatten(turns)))
  }

  function Results(turns: seq<Turn>): seq<string> {
    ResultIds(BlocksOf(Flatten(turns)))
  }

  lemma IdsAppend(turns: seq<Turn>, turn: Turn)
    ensures Uses(turns + [turn]) == Uses(turns) + UseIds(ToBlocks(turn.content))
    ensures Results(turns + [turn]) == Results(turns) + ResultIds(ToBlocks(turn.content))
  {
    FlattenAppend(turns, turn);
    var a, b := Flatten(turns), ToBlocks(turn.content);
    assert BlocksOf(a + SaidIn(turn.role, b)) == BlocksOf(a) + b;
    UseIdsAppend(BlocksOf(a), b);
  }

  predicate BlankBlock(b: Block) {
    && !b.ToolResult?
    && (b.ToolUse? ==> b.id == "")
    && (b.TextBlock? ==> !b.value.Blocks?)
  }

  ghost predicate Blank(blocks: seq<Block>) {
    forall k :: 0 <= k < |blocks| ==> BlankBlock(blocks[k])
  }

  /** The text of every text block is text. */
  ghost predicate PlainTexts(blocks: seq<Block>) {
    forall k :: 0 <= k < |blocks| && blocks[k].TextBlock? ==> !blocks[k].value.Blocks?
  }

  /** No id comes with the request: neither on calls nor on results. */
  ghost predicate NoIds(msgs: seq<Message>) {
    forall i :: 0 <= i < |msgs| ==>
      && msgs[i].toolCallId == ""
      && Blank(msgs[i].blocks)
      && (forall k :: 0 <= k < |msgs[i].calls| ==> msgs[i].calls[k].id == "")
  }

  /** How many tool calls a message makes. */
  function UseCount(m: Message): nat {
    if IsSystem(m) || IsTool(m) then 0
    else if HasToolUse(m.blocks) then |UseIds(m.blocks)|
    else if m.role == "assistant" then |m.calls|
    else 0
  }

  function TotalUses(msgs: seq<Message>): nat {
    if msgs == [] then 0 else TotalUses(msgs[..|msgs| - 1]) + UseCount(msgs[|msgs| - 1])
  }

  function TotalResults(msgs: seq<Message>): nat {
    if msgs == [] then 0
    else TotalResults(msgs[..|msgs| - 1]) + (if IsTool(msgs[|msgs| - 1]) then 1 else 0)
  }

  /** No prefix of the conversation has more tool messages than tool calls. */
  predicate Balanced(msgs: seq<Message>) {
    msgs == [] || (Balanced(msgs[..|msgs| - 1]) && TotalResults(msgs) <= TotalUses(msgs))
  }

  function IdsOf(msgIdx: nat, n: nat): (r: seq<string>)
    ensures |r| == n && forall k :: 0 <= k < n ==> r[k] == GeneratedId(msgIdx, k)
  {
    seq(n, k requires 0 <= k < n => GeneratedId(msgIdx, k))
  }

  /** All generated ids of a conversation, in order. */
  function ExpectedIds(msgs: seq<Message>): seq<string> {
    if msgs == [] then []
    else ExpectedIds(msgs[..|msgs| - 1]) + IdsOf(|msgs| - 1, UseCount(msgs[|msgs| - 1]))
  }

  lemma {:induction false} FixedBlankIds(blocks: seq<Block>, msgIdx: nat)
    requires Blank(blocks)
    ensures UseIds(FixIds(blocks, msgIdx)) == IdsOf(msgIdx, |UseIds(blocks)|)
    ensures ResultIds(FixIds(blocks, msgIdx)) == []
    ensures PlainTexts(FixIds(blocks, msgIdx))
  {
    if blocks != [] {
      var front, last := blocks[..|blocks| - 1], blocks[|blocks| - 1];
      assert blocks == front + [last];
      FixedBlankIds(front, msgIdx);
      FixOneMore(front, last, msgIdx);
      var fixed := FixIds(front, msgIdx);
      assert (fixed + [FixId(last, msgIdx, |UseIds(fixed)|)])[..|fixed|] == fixed;
    }
  }

  lemma {:induction false} BlankCallIds(calls: seq<Call>, msgIdx: nat)
    requires forall k :: 0 <= k < |calls| ==> calls[k].id == ""
    ensures UseIds(CallBlocks(calls, msgIdx)) == IdsOf(msgIdx, |calls|)
    ensures ResultIds(CallBlocks(calls, msgIdx)) == []
    ensures PlainTexts(CallBlocks(calls, msgIdx))
  {
    if calls != [] {
      var k := |calls| - 1;
      var front, last := calls[..k], calls[k];
      BlankCallIds(front, msgIdx);
      TakeOneMore(calls, k);
      CallsOneMore(front, last, msgIdx);
      IdsOneMore(msgIdx, k);
      CallBlockIds(CallBlocks(front, msgIdx), last, msgIdx, k);
    }
  }

  lemma IdsOneMore(msgIdx: nat, k: nat)
    ensures IdsOf(msgIdx, k + 1) == IdsOf(msgIdx, k) + [GeneratedId(msgIdx, k)]
  {
  }

  lemma CallBlockIds(blocks: seq<Block>, c: Call, msgIdx: nat, k: nat)
    requires c.id == ""
    ensures var more := blocks + [CallBlock(c, msgIdx, k)];
            && UseIds(more) == UseIds(blocks) + [GeneratedId(msgIdx, k)]
            && ResultIds(more) == ResultIds(blocks)
            && (PlainTexts(blocks) ==> PlainTexts(more))
  {
    UseOneMore(blocks, CallBlock(c, msgIdx, k));
    assert (blocks + [CallBlock(c, msgIdx, k)])[..|blocks|] == blocks;
  }

  lemma WrittenIds(m: Message)
    requires Blank(m.blocks)
    ensures Blank(ThinkingBlocks(m) + m.blocks)
    ensures UseIds(ThinkingBlocks(m) + m.blocks) == UseIds(m.blocks)
  {
    var thinking := ThinkingBlocks(m);
    UseIdsAppend(thinking, m.blocks);
    assert UseIds(thinking) == [] by {
      assert thinking != [] ==> thinking[..0] == [];
    }
  }

  lemma WrittenPart(m: Message, msgIdx: nat) returns (fixed: seq<Block>)
    requires Blank(m.blocks)
    ensures fixed == FixIds(ThinkingBlocks(m) + m.blocks, msgIdx)
    ensures UseIds(fixed) == IdsOf(msgIdx, |UseIds(m.blocks)|)
    ensures ResultIds(fixed) == [] && PlainTexts(fixed)
    ensures HasToolUse(ThinkingBlocks(m) + m.blocks) <==> UseIds(m.blocks) != []
  {
    WrittenIds(m);
    FixedBlankIds(ThinkingBlocks(m) + m.blocks, msgIdx);
    fixed := FixIds(ThinkingBlocks(m) + m.blocks, msgIdx);
  }

  lemma MessageIds(m: Message, msgIdx: nat)
    requires Blank(m.blocks) && (forall k :: 0 <= k < |m.calls| ==> m.calls[k].id == "")
    requires !IsSystem(m) && !IsTool(m)
    ensures UseIds(MessageBlocks(m, msgIdx)) == IdsOf(msgIdx, UseCount(m))
    ensures ResultIds(MessageBlocks(m, msgIdx)) == []
    ensures PlainTexts(MessageBlocks(m, msgIdx))
  {
    var fixed := WrittenPart(m, msgIdx);
    if m.role == "assistant" && UseIds(m.blocks) == [] {
      CallsAfter(fixed, m.calls, msgIdx);
    } else {
      assert fixed + [] == fixed;
    }
  }

  lemma CallsAfter(fixed: seq<Block>, calls: seq<Call>, msgIdx: nat)
    requires UseIds(fixed) == ResultIds(fixed) == [] && PlainTexts(fixed)
    requires forall k :: 0 <= k < |calls| ==> calls[k].id == ""
    ensures var all := fixed + CallBlocks(calls, msgIdx);
            UseIds(all) == IdsOf(msgIdx, |calls|) && ResultIds(all) == [] && PlainTexts(all)
  {
    var blocks := CallBlocks(calls, msgIdx);
    BlankCallIds(calls, msgIdx);
    UseIdsAppend(fixed, blocks);
    PlainAppend(fixed, blocks);
  }

  lemma PlainAppend(a: seq<Block>, b: seq<Block>)
    requires PlainTexts(a) && PlainTexts(b)
    ensures PlainTexts(a + b)
  {
  }

  lemma TextHasNoIds(blocks: seq<Block>)
    requires |blocks| <= 1 && (blocks != [] ==> blocks[0].TextBlock?)
    ensures UseIds(blocks) == [] && ResultIds(blocks) == []
  {
    assert blocks != [] ==> blocks[..0] == [];
  }

  lemma ContentIds(role: Role, blocks: seq<Block>, turn: Turn)
    requires PlainTexts(blocks) && TurnOf(role, blocks) == [turn]
    ensures UseIds(ToBlocks(turn.content)) == UseIds(blocks)
    ensures ResultIds(ToBlocks(turn.content)) == ResultIds(blocks)
  {
    if blocks == [] || (|blocks| == 1 && blocks[0].TextBlock?) {
      assert turn == TurnOf(role, blocks)[0];
      TextHasNoIds(blocks);
      TextHasNoIds(ToBlocks(turn.content));
    } else {
      assert turn == TurnOf(role, blocks)[0] == Turn(role, Blocks(blocks));
    }
  }

  lemma TurnKeepsIds(turns: seq<Turn>, role: Role, blocks: seq<Block>)
    requires PlainTexts(blocks)
    ensures Uses(turns + TurnOf(role, blocks)) == Uses(turns) + UseIds(blocks)
    ensures Results(turns + TurnOf(role, blocks)) == Results(turns) + ResultIds(blocks)
  {
    var added := TurnOf(role, blocks);
    if added == [] {
      assert turns + added == turns;
    } else {
      var turn := added[0];
      assert added == [turn];
      ContentIds(role, blocks, turn);
      IdsAppend(turns, turn);
    }
  }

  lemma ToolTurnIds(turns: seq<Turn>, result: Block)
    requires result.ToolResult?
    ensures Uses(turns + [Turn(User, Blocks([result]))]) == Uses(turns)
    ensures Results(turns + [Turn(User, Blocks([result]))]) == Results(turns) + [result.id]
  {
    IdsAppend(turns, Turn(User, Blocks([result])));
    assert [result][..0] == [];
  }

  /** While the conversation is balanced the i-th result answers the i-th call and the
      queue holds the calls not yet answered; from the first unbalanced message on, some
      result carries an id of no call. */
  lemma {:induction false} QueueIsFifo(msgs: seq<Message>)
    requires NoIds(msgs)
    ensures var p := Progressed(msgs);
            && Uses(p.turns) == ExpectedIds(msgs)
            && |Uses(p.turns)| == TotalUses(msgs) && |Results(p.turns)| == TotalResults(msgs)
            && (Balanced(msgs) ==>
                  && Results(p.turns) <= Uses(p.turns)
                  && p.pending == Uses(p.turns)[|Results(p.turns)|..])
            && (!Balanced(msgs) ==>
                  exists k, j: nat :: 0 <= k < |Results(p.turns)| && Results(p.turns)[k] == UnknownId(j))
  {
    if msgs != [] {
      var front, m, idx := msgs[..|msgs| - 1], msgs[|msgs| - 1], |msgs| - 1;
      QueueIsFifo(front);
      var p, q := Progressed(front), Progressed(msgs);
      if IsSystem(m) {
        assert IdsOf(idx, 0) == [];
      } else if IsTool(m) {
        var result := ToolResult(ResultId(p, m, idx), if m.text == "" then "Done" else m.text);
        ToolTurnIds(p.turns, result);
        assert IdsOf(idx, 0) == [];
        ToolMessage(p, q, front, m, idx);
      } else {
        PlainMessage(p, q, front, m, idx);
        assert Balanced(msgs) <==> Balanced(front);
      }
    }
  }

  lemma PlainMessage(p: Progress, q: Progress, front: seq<Message>, m: Message, idx: nat)
    requires Blank(m.blocks) && (forall k :: 0 <= k < |m.calls| ==> m.calls[k].id == "")
    requires !IsSystem(m) && !IsTool(m) && q == Advance(p, m, idx)
    requires Balanced(front) ==>
               Results(p.turns) <= Uses(p.turns) && p.pending == Uses(p.turns)[|Results(p.turns)|..]
    ensures Uses(q.turns) == Uses(p.turns) + IdsOf(idx, UseCount(m))
    ensures Results(q.turns) == Results(p.turns)
    ensures Balanced(front) ==>
              Results(q.turns) <= Uses(q.turns) && q.pending == Uses(q.turns)[|Results(q.turns)|..]
  {
    MessageIds(m, idx);
    TurnKeepsIds(p.turns, RoleOf(m), MessageBlocks(m, idx));
    if Balanced(front) {
      LongerQueue(Results(p.turns), Uses(p.turns), IdsOf(idx, UseCount(m)));
    }
  }

  lemma LongerQueue(results: seq<string>, uses: seq<string>, more: seq<string>)
    requires results <= uses
    ensures results <= uses + more
    ensures (uses + more)[|results|..] == uses[|results|..] + more
  {
  }

  lemma ToolMessage(p: Progress, q: Progress, front: seq<Message>, m: Message, idx: nat)
    requires IsTool(m) && m.toolCallId == "" && !IsSystem(m)
    requires q == Advance(p, m, idx)
    requires Uses(q.turns) == Uses(p.turns)
    requires Results(q.turns) == Results(p.turns) + [ResultId(p, m, idx)]
    requires Balanced(front) ==>
               Results(p.turns) <= Uses(p.turns) && p.pending == Uses(p.turns)[|Results(p.turns)|..]
    requires !Balanced(front) ==>
               exists k, j: nat :: 0 <= k < |Results(p.turns)| && Results(p.turns)[k] == UnknownId(j)
    ensures Balanced(front) && |Results(q.turns)| <= |Uses(q.turns)| ==>
              Results(q.turns) <= Uses(q.turns) && q.pending == Uses(q.turns)[|Results(q.turns)|..]
    ensures !(Balanced(front) && |Results(q.turns)| <= |Uses(q.turns)|) ==>
              exists k, j: nat :: 0 <= k < |Results(q.turns)| && Results(q.turns)[k] == UnknownId(j)
  {
    var r, u := Results(p.turns), Uses(p.turns);
    if Balanced(front) {
      if |r| < |u| {
        assert p.pending[0] == u[|r|];
        assert q.pending == u[|r| + 1..];
      } else {
        assert Results(q.turns)[|r|] == UnknownId(idx);
      }
    } else {
      var k, j: nat :| 0 <= k < |r| && r[k] == UnknownId(j);
      assert Results(q.turns)[k] == UnknownId(j);
    }
  }

  ghost predicate Distinct(ids: seq<string>) {
    forall i, j :: 0 <= i < j < |ids| ==> ids[i] != ids[j]
  }

  lemma {:induction false} ExpectedAreGenerated(msgs: seq<Message>, i: nat)
    requires i < |ExpectedIds(msgs)|
    ensures exists m: nat, k: nat :: m < |msgs| && ExpectedIds(msgs)[i] == GeneratedId(m, k)
  {
    var front := ExpectedIds(msgs[..|msgs| - 1]);
    if i < |front| {
      ExpectedAreGenerated(msgs[..|msgs| - 1], i);
    } else {
      assert ExpectedIds(msgs)[i] == GeneratedId(|msgs| - 1, i - |front|);
    }
  }

  lemma {:induction false} ExpectedAreDistinct(msgs: seq<Message>)
    ensures Distinct(ExpectedIds(msgs))
  {
    if msgs != [] {
      var front, idx := ExpectedIds(msgs[..|msgs| - 1]), |msgs| - 1;
      var ids := ExpectedIds(msgs);
      ExpectedAreDistinct(msgs[..idx]);
      forall i, j | 0 <= i < j < |ids|
        ensures ids[i] != ids[j]
      {
        if j >= |front| {
          assert ids[j] == GeneratedId(idx, j - |front|);
          if i < |front| {
            ExpectedAreGenerated(msgs[..idx], i);
            var m: nat, k: nat :| m < idx && front[i] == GeneratedId(m, k);
            if ids[i] == ids[j] {
              GeneratedIdInjective(m, k, idx, j - |front|);
            }
          } else {
            assert ids[i] == GeneratedId(idx, i - |front|);
            if ids[i] == ids[j] {
              GeneratedIdInjective(idx, i - |front|, idx, j - |front|);
            }
          }
        }
      }
    }
  }

  /** When no ids come with the request, results answer calls first-in first-out, on
      pairwise distinct ids, exactly when no prefix has more results than calls. */
  lemma FifoPairing(msgs: seq<Message>)
    requires NoIds(msgs)
    ensures var turns := Progressed(msgs).turns;
            && Distinct(Uses(turns))
            && |Uses(turns)| == TotalUses(msgs) && |Results(turns)| == TotalResults(msgs)
            && (Results(turns) <= Uses(turns) <==> Balanced(msgs))
  {
    QueueIsFifo(msgs);
    ExpectedAreDistinct(msgs);
    var turns := Progressed(msgs).turns;
    if !Balanced(msgs) {
      var k, j: nat :| 0 <= k < |Results(turns)| && Results(turns)[k] == UnknownId(j);
      if k < |Uses(turns)| {
        ExpectedAreGenerated(msgs, k);
        var m: nat, i: nat :| m < |msgs| && ExpectedIds(msgs)[k] == GeneratedId(m, i);
        UnknownIsNotGenerated(j, m, i);
      }
    }
  }

  /** `a` is `b` with some elements left out; `at` says where they stand in `b`. */
  ghost predicate Picks(a: seq<string>, b: seq<string>, at: seq<nat>) {
    && |at| == |a|
    && (forall i :: 0 <= i < |a| ==> at[i] < |b| && a[i] == b[at[i]])
    && (forall i, j :: 0 <= i < j < |at| ==> at[i] < at[j])
  }

  /** Removing an explicit id takes out its own entry and keeps the order of the rest. */
  lemma {:induction false} RemoveFirstKeepsOrder(queue: seq<string>, id: string) returns (p: nat)
    ensures id !in queue ==> RemoveFirst(queue, id) == queue
    ensures id in queue ==>
              && p < |queue| && queue[p] == id && id !in queue[..p]
              && RemoveFirst(queue, id) == queue[..p] + queue[p + 1..]
  {
    p := 0;
    if queue != [] && queue[0] != id {
      var inTail := RemoveFirstKeepsOrder(queue[1..], id);
      p := inTail + 1;
      assert queue == [queue[0]] + queue[1..];
      if id in queue {
        assert id in queue[1..];
        assert queue[..p] == [queue[0]] + queue[1..][..inTail];
        assert queue[1..][inTail + 1..] == queue[p + 1..];
      }
    }
  }

  lemma PicksExtend(a: seq<string>, b: seq<string>, at: seq<nat>, more: seq<string>) returns (later: seq<nat>)
    requires Picks(a, b, at)
    ensures Picks(a + more, b + more, later)
  {
    later := at + seq(|more|, i requires 0 <= i < |more| => |b| + i);
  }

  lemma PicksDrop(a: seq<string>, b: seq<string>, at: seq<nat>, p: nat)
    requires Picks(a, b, at) && p < |a|
    ensures Picks(a[..p] + a[p + 1..], b, at[..p] + at[p + 1..])
  {
  }

  /** Taking out an entry of the queue. */
  lemma PendingAfterTool(p: Progress, m: Message, idx: nat, calls: seq<string>, at: seq<nat>) returns (later: seq<nat>)
    requires !IsSystem(m) && IsTool(m) && Picks(p.pending, calls, at)
    ensures Picks(Advance(p, m, idx).pending, calls, later)
  {
    later := at;
    if m.toolCallId != "" {
      var k := RemoveFirstKeepsOrder(p.pending, m.toolCallId);
      if m.toolCallId in p.pending {
        PicksDrop(p.pending, calls, at, k);
        later := at[..k] + at[k + 1..];
      }
    } else if p.pending != [] {
      PicksDrop(p.pending, calls, at, 0);
      assert p.pending[..0] + p.pending[1..] == p.pending[1..];
      later := at[..0] + at[1..];
    }
  }

  /** Whatever ids come with the request, the queue only ever holds ids of calls made so
      far, each at most once, in the order of the calls. */
  lemma {:induction false} QueueKeepsCallOrder(msgs: seq<Message>) returns (calls: seq<string>, at: seq<nat>)
    ensures Picks(Progressed(msgs).pending, calls, at)
    ensures calls == AllCallIds(msgs)
  {
    calls, at := [], [];
    if msgs != [] {
      var front, m, idx := msgs[..|msgs| - 1], msgs[|msgs| - 1], |msgs| - 1;
      calls, at := QueueKeepsCallOrder(front);
      var p := Progressed(front);
      if IsSystem(m) {
        assert calls + [] == calls;
      } else if IsTool(m) {
        at := PendingAfterTool(p, m, idx, calls, at);
        assert calls + [] == calls;
      } else {
        var more := UseIds(MessageBlocks(m, idx));
        at := PicksExtend(p.pending, calls, at, more);
        calls := calls + more;
      }
    }
  }

  /** Every tool call id of the conversation, given or generated. */
  function AllCallIds(msgs: seq<Message>): seq<string> {
    if msgs == [] then []
    else
      var m := msgs[|msgs| - 1];
      AllCallIds(msgs[..|msgs| - 1])
      + (if IsSystem(m) || IsTool(m) then [] else UseIds(MessageBlocks(m, |msgs| - 1)))
  }

  lemma GreetingKeepsIds(turns: seq<Turn>, raw: seq<Turn>)
    requires Flatten(turns) == Flatten(raw) || Flatten(turns) == [Said(User, TextBlock(Plain("Hello")))] + Flatten(raw)
    ensures Uses(turns) == Uses(raw) && Results(turns) == Results(raw)
  {
    var hello := TextBlock(Plain("Hello"));
    if Flatten(turns) != Flatten(raw) {
      assert BlocksOf(Flatten(turns)) == [hello] + BlocksOf(Flatten(raw));
      UseIdsAppend([hello], BlocksOf(Flatten(raw)));
      assert [hello][..0] == [];
      assert UseIds([hello]) == [] && ResultIds([hello]) == [];
    }
  }

  /** The whole message part of the translation: a non-empty conversation that starts
      with the user and strictly alternates, saying exactly what the turns said, after an
      added greeting when they did not start with the user. */
  method Translate(msgs: seq<Message>) returns (system: seq<string>, turns: seq<Turn>)
    ensures system == Progressed(msgs).system
    ensures turns != [] && turns[0].role == User && Alternates(turns)
    ensures var raw := Progressed(msgs).turns;
            Flatten(turns) ==
            if raw != [] && raw[0].role == User then Flatten(raw)
            else [Said(User, TextBlock(Plain("Hello")))] + Flatten(raw)
    ensures NoIds(msgs) ==>
              Distinct(Uses(turns)) && (Results(turns) <= Uses(turns) <==> Balanced(msgs))
  {
    var raw, pending;
    system, raw, pending := TranslateMessages(msgs);
    turns := CoalesceMessages(raw);
    FlattenCons(HELLO, turns);
    assert SaidIn(User, ToBlocks(HELLO.content)) == [Said(User, TextBlock(Plain("Hello")))];
    if |turns| == 0 {
      turns := [HELLO];
    } else if turns[0].role != User {
      turns := [HELLO] + turns;
    }
    GreetingKeepsIds(turns, raw);
    if NoIds(msgs) {
      FifoPairing(msgs);
    }
  }
}
