/** Responses API requests: input items to chat messages, tool-pair repair, and the stored history
    of chained turns. */
module Conversation {
  import opened Common

  datatype Role = System | User | Assistant | Tool

  datatype Block = TextBlock(text: string) | ImageBlock(url: string)

  datatype Content = NoContent | Plain(text: string) | Blocks(blocks: seq<Block>)

  /** `id` is `None` for a JSON null and `Some("")` when it is missing. */
  datatype ToolCall = ToolCall(id: Option<string>, name: string, arguments: string)

  datatype Message = Message(role: Role, content: Content, toolCalls: seq<ToolCall>, toolCallId: Option<string>)

  function TextOfBlocks(blocks: seq<Block>): string {
    if blocks == [] then ""
    else if blocks[0].ImageBlock? then TextOfBlocks(blocks[1..])
    else
      var rest := TextOfBlocks(blocks[1..]);
      if exists b | b in blocks[1..] :: b.TextBlock? then blocks[0].text + " " + rest else blocks[0].text
  }

  function TextOf(content: Content): string {
    match content
    case NoContent => ""
    case Plain(text) => text
    case Blocks(blocks) => TextOfBlocks(blocks)
  }

  // ---------- message content ----------

  /** A part of a content list; an image without a URL has "". */
  datatype PartIn = TextPart(text: string) | ImagePart(url: string) | RefusalPart(text: string) | UnknownPart | NotAPart

  datatype ContentIn = NoContentIn | TextIn(text: string) | PartsIn(parts: seq<PartIn>) | BadContentIn

  /** A part nothing in chat corresponds to. */
  predicate Rejected(p: PartIn) {
    p.UnknownPart? || p == ImagePart("")
  }

  /** The blocks of the parts; what is not an object is skipped. */
  function BlocksOf(parts: seq<PartIn>): seq<Block> {
    if parts == [] then []
    else
      BlocksOf(parts[..|parts| - 1]) +
        match parts[|parts| - 1]
        case TextPart(text) => [TextBlock(text)]
        case RefusalPart(text) => [TextBlock(text)]
        case ImagePart(url) => [ImageBlock(url)]
        case _ => []
  }

  function JoinLines(blocks: seq<Block>): string
    requires forall b | b in blocks :: b.TextBlock?
  {
    if blocks == [] then ""
    else if |blocks| == 1 then blocks[0].text
    else JoinLines(blocks[..|blocks| - 1]) + "\n" + blocks[|blocks| - 1].text
  }

  /** Pure text becomes one string, which every provider accepts. */
  function ChatContent(content: ContentIn): Option<Content> {
    match content
    case NoContentIn => Some(NoContent)
    case TextIn(text) => Some(Plain(text))
    case BadContentIn => None
    case PartsIn(parts) =>
      if exists p | p in parts :: Rejected(p) then None
      else
        var blocks := BlocksOf(parts);
        Some(if forall b | b in blocks :: b.TextBlock? then Plain(JoinLines(blocks)) else Blocks(blocks))
  }

  /** `_content_to_chat`. */
  method ContentToChat(content: ContentIn) returns (r: Option<Content>)
    ensures r == ChatContent(content)
  {
    match content {
      case NoContentIn => return Some(NoContent);
      case TextIn(text) => return Some(Plain(text));
      case BadContentIn => return None;
      case PartsIn(parts) =>
        var blocks := [];
        for i := 0 to |parts|
          invariant blocks == BlocksOf(parts[..i])
          invariant forall k | 0 <= k < i :: !Rejected(parts[k])
        {
          assert parts[..i + 1][..i] == parts[..i];
          match parts[i] {
            case TextPart(text) => blocks := blocks + [TextBlock(text)];
            case RefusalPart(text) => blocks := blocks + [TextBlock(text)];
            case ImagePart(url) =>
              if url == "" {
                assert Rejected(parts[i]) && parts[i] in parts;
                return None;
              }
              blocks := blocks + [ImageBlock(url)];
            case UnknownPart =>
              return None;
            case NotAPart =>
          }
        }
        assert parts[..|parts|] == parts;
        if forall b | b in blocks :: b.TextBlock? {
          return Some(Plain(JoinLines(blocks)));
        }
        return Some(Blocks(blocks));
    }
  }

  /** So content stays a list of blocks exactly when it holds an image. */
  lemma {:induction false} BlocksHoldImages(parts: seq<PartIn>)
    ensures (forall b | b in BlocksOf(parts) :: b.TextBlock?) <==> forall p | p in parts :: !p.ImagePart?
    decreases |parts|
  {
    if parts != [] {
      var init, last := parts[..|parts| - 1], parts[|parts| - 1];
      BlocksHoldImages(init);
      assert parts == init + [last];
      assert last in parts && forall b | b in BlocksOf(init) :: b in BlocksOf(parts);
      if last.ImagePart? {
        assert ImageBlock(last.url) in BlocksOf(parts);
      } else {
        assert forall b | b in BlocksOf(parts) :: b in BlocksOf(init) || b.TextBlock?;
        assert forall p | p in parts :: p in init || p == last;
        assert forall p | p in init :: p in parts;
      }
    }
  }

  // ---------- input items ----------

  /** One element of `input`. The output of a tool is given as text. */
  datatype InputItem =
    | CallIn(callId: string, itemId: string, name: string, arguments: string)
    | OutputIn(outputFor: Option<string>, output: string)
    | MessageIn(roleName: string, content: ContentIn)
    | ReferenceIn(ref: string)
    | OtherIn
    | NotAnObject

  function RoleOf(name: string): Option<Role> {
    if name == "developer" || name == "system" then Some(System)
    else if name == "user" then Some(User)
    else if name == "assistant" then Some(Assistant)
    else None
  }

  function CallOf(item: InputItem, drawn: string): ToolCall
    requires item.CallIn?
  {
    ToolCall(Some(if item.callId != "" then item.callId else if item.itemId != "" then item.itemId else drawn),
             item.name, if item.arguments != "" then item.arguments else "{}")
  }

  /** What a conversation says, one utterance at a time: grouping calls into turns is invisible here. */
  datatype Utterance =
    | Calls(call: ToolCall)
    | Answers(outputFor: Option<string>, output: Content)
    | Says(role: Role, content: Content)

  /** An item the request is not rejected for. */
  predicate Acceptable(item: InputItem) {
    match item
    case NotAnObject => false
    case MessageIn(roleName, content) => RoleOf(roleName).Some? && ChatContent(content).Some?
    case _ => true
  }

  function Meaning(item: InputItem, drawn: string): seq<Utterance> {
    match item
    case CallIn(_, _, _, _) => [Calls(CallOf(item, drawn))]
    case OutputIn(outputFor, output) => [Answers(outputFor, Plain(output))]
    case MessageIn(roleName, content) =>
      if RoleOf(roleName).Some? && ChatContent(content).Some?
      then [Says(RoleOf(roleName).value, ChatContent(content).value)] else []
    case _ => []
  }

  function CallsIn(calls: seq<ToolCall>): seq<Utterance> {
    seq(|calls|, i requires 0 <= i < |calls| => Calls(calls[i]))
  }

  function Utterances(m: Message): seq<Utterance> {
    if m.role.Tool? then [Answers(m.toolCallId, m.content)]
    else if HoldsCalls(m) then
      (if m.content.NoContent? then [] else [Says(Assistant, m.content)]) + CallsIn(m.toolCalls)
    else [Says(m.role, m.content)]
  }

  function AllUtterances(messages: seq<Message>): seq<Utterance> {
    if messages == [] then []
    else AllUtterances(messages[..|messages| - 1]) + Utterances(messages[|messages| - 1])
  }

  predicate HoldsCalls(m: Message) {
    m.role.Assistant? && m.toolCalls != []
  }

  /** Consecutive calls are never spread over two assistant turns. */
  ghost predicate NoSplitTurn(messages: seq<Message>) {
    forall i | 0 < i < |messages| :: !(HoldsCalls(messages[i - 1]) && HoldsCalls(messages[i]))
  }

  /** Only assistant turns without content hold calls, and only tool results name a call. */
  ghost predicate Tidy(messages: seq<Message>) {
    forall m | m in messages ::
      (m.toolCalls != [] ==> m.role.Assistant? && m.content.NoContent?) && (m.toolCallId.Some? ==> m.role.Tool?)
  }

  lemma JoiningATurn(messages: seq<Message>, call: ToolCall)
    requires messages != [] && HoldsCalls(messages[|messages| - 1])
    ensures var n, last := |messages| - 1, messages[|messages| - 1];
      AllUtterances(messages[n := last.(toolCalls := last.toolCalls + [call])])
      == AllUtterances(messages) + [Calls(call)]
  {
    var n, last := |messages| - 1, messages[|messages| - 1];
    var joined := messages[n := last.(toolCalls := last.toolCalls + [call])];
    assert joined[..n] == messages[..n];
    assert CallsIn(last.toolCalls + [call]) == CallsIn(last.toolCalls) + [Calls(call)];
    assert Utterances(joined[n]) == Utterances(last) + [Calls(call)];
    assert AllUtterances(messages[..n]) + (Utterances(last) + [Calls(call)])
        == (AllUtterances(messages[..n]) + Utterances(last)) + [Calls(call)];
  }

  lemma OneMoreMessage(messages: seq<Message>, m: Message)
    ensures AllUtterances(messages + [m]) == AllUtterances(messages) + Utterances(m)
  {
    assert (messages + [m])[..|messages|] == messages;
  }

  /** `_append_item`; `None` is a rejected request. */
  method AppendItem(messages: seq<Message>, item: InputItem, drawn: string) returns (r: Option<seq<Message>>)
    ensures r.Some? <==> Acceptable(item)
    ensures r.Some? ==> AllUtterances(r.value) == AllUtterances(messages) + Meaning(item, drawn)
    ensures r.Some? && NoSplitTurn(messages) ==> NoSplitTurn(r.value)
    ensures r.Some? && Tidy(messages) ==> Tidy(r.value)
  {
    hide AllUtterances, ChatContent;
    match item {
      case CallIn(_, _, _, _) =>
        var call := CallOf(item, drawn);
        var n := |messages| - 1;
        if n >= 0 && HoldsCalls(messages[n]) {
          r := Some(messages[n := messages[n].(toolCalls := messages[n].toolCalls + [call])]);
          JoiningATurn(messages, call);
        } else {
          var m := Message(Assistant, NoContent, [call], None);
          r := Some(messages + [m]);
          OneMoreMessage(messages, m);
          assert CallsIn([call]) == [Calls(call)];
        }
      case OutputIn(outputFor, output) =>
        var m := Message(Tool, Plain(output), [], outputFor);
        r := Some(messages + [m]);
        OneMoreMessage(messages, m);
      case MessageIn(roleName, content) =>
        if RoleOf(roleName).None? {
          return None;
        }
        var chat := ContentToChat(content);
        if chat.None? {
          return None;
        }
        var m := Message(RoleOf(roleName).value, chat.value, [], None);
        r := Some(messages + [m]);
        OneMoreMessage(messages, m);
      case NotAnObject =>
        r := None;
      case _ =>
        r := Some(messages);
        assert AllUtterances(messages) + [] == AllUtterances(messages);
    }
  }

  /** What an item stands for once references are looked up. An unknown reference stands for nothing,
      and so does one that leads to another reference. */
  function Resolved(item: InputItem, store: map<string, InputItem>): InputItem {
    if item.ReferenceIn? then
      if item.ref != "" && item.ref in store && store[item.ref] != NotAnObject then store[item.ref] else OtherIn
    else item
  }

  function AllMeanings(items: seq<InputItem>, store: map<string, InputItem>, drawn: nat -> string): seq<Utterance> {
    if items == [] then []
    else
      var n := |items| - 1;
      AllMeanings(items[..n], store, drawn) + Meaning(Resolved(items[n], store), drawn(n))
  }

  /** The loop over the items. The messages say exactly what the items say, in order, with
      consecutive calls in one turn; the request is rejected exactly for an unacceptable item. */
  method ItemsToMessages(items: seq<InputItem>, store: map<string, InputItem>, drawn: nat -> string)
    returns (r: Option<seq<Message>>)
    ensures r.Some? <==> forall i | 0 <= i < |items| :: Acceptable(Resolved(items[i], store))
    ensures r.Some? ==> AllUtterances(r.value) == AllMeanings(items, store, drawn)
    ensures r.Some? ==> NoSplitTurn(r.value) && Tidy(r.value)
  {
    hide Acceptable, Meaning, AllUtterances, Resolved;
    var messages := [];
    assert AllUtterances(messages) == [] by { EmptySaysNothing(); }
    for i := 0 to |items|
      invariant AllUtterances(messages) == AllMeanings(items[..i], store, drawn)
      invariant NoSplitTurn(messages) && Tidy(messages)
      invariant forall k | 0 <= k < i :: Acceptable(Resolved(items[k], store))
    {
      var grown := AppendItem(messages, Resolved(items[i], store), drawn(i));
      assert items[..i + 1][..i] == items[..i];
      if grown.None? {
        return None;
      }
      messages := grown.value;
    }
    assert items[..|items|] == items;
    r := Some(messages);
  }

  /** The `input` field: absent, a string, a list of items, or something else. */
  datatype Input = NoInput | TextInput(text: string) | ItemsInput(items: seq<InputItem>) | BadInput

  /** The request is not rejected for its input. */
  predicate InputAcceptable(input: Input, store: map<string, InputItem>) {
    match input
    case BadInput => false
    case ItemsInput(items) => forall i | 0 <= i < |items| :: Acceptable(Resolved(items[i], store))
    case _ => true
  }

  function InputMeaning(input: Input, store: map<string, InputItem>, drawn: nat -> string): seq<Utterance> {
    match input
    case TextInput(text) => [Says(User, Plain(text))]
    case ItemsInput(items) => AllMeanings(items, store, drawn)
    case _ => []
  }

  /** `input_to_messages`. */
  method InputToMessages(input: Input, store: map<string, InputItem>, drawn: nat -> string)
    returns (r: Option<seq<Message>>)
    ensures r.Some? <==> InputAcceptable(input, store)
    ensures r.Some? ==> AllUtterances(r.value) == InputMeaning(input, store, drawn)
    ensures r.Some? ==> NoSplitTurn(r.value) && Tidy(r.value)
  {
    hide AllUtterances, Acceptable, Resolved;
    match input {
      case NoInput =>
        EmptySaysNothing();
        return Some([]);
      case TextInput(text) =>
        var m := Message(User, Plain(text), [], None);
        OneMoreMessage([], m);
        EmptySaysNothing();
        assert [] + [m] == [m] && [] + Utterances(m) == Utterances(m);
        return Some([m]);
      case BadInput =>
        return None;
      case ItemsInput(items) =>
        r := ItemsToMessages(items, store, drawn);
    }
  }

  lemma EmptySaysNothing()
    ensures AllUtterances([]) == []
  {
  }

  // ---------- tool-pair repair ----------

  /** The call ids an assistant turn announces. */
  function Announces(m: Message): set<string> {
    if m.role.Assistant? then set i | 0 <= i < |m.toolCalls| && m.toolCalls[i].id.Some? :: m.toolCalls[i].id.value
    else {}
  }

  function Known(messages: seq<Message>): set<string> {
    if messages == [] then {}
    else Known(messages[..|messages| - 1]) + Announces(messages[|messages| - 1])
  }

  function AnsweredId(m: Message): string {
    if m.toolCallId.Some? then m.toolCallId.value else ""
  }

  predicate Orphan(m: Message, known: set<string>) {
    m.role.Tool? && AnsweredId(m) !in known
  }

  /** An orphan result as plain user text. */
  function Demoted(m: Message): Message {
    var id := if m.toolCallId.Some? then m.toolCallId.value else "None";
    Message(User, Plain("[tool result for call " + id + "]\n" + TextOf(m.content)), [], None)
  }

  function Mended(m: Message, known: set<string>): Message {
    if Orphan(m, known) then Demoted(m) else m
  }

  function Repair(messages: seq<Message>): seq<Message> {
    if messages == [] then []
    else
      var n := |messages| - 1;
      Repair(messages[..n]) + [Mended(messages[n], Known(messages[..n]))]
  }

  /** `_repair_tool_pairs`. */
  method RepairToolPairs(messages: seq<Message>) returns (out: seq<Message>)
    ensures out == Repair(messages)
  {
    hide Announces;
    var known: set<string> := {};
    out := [];
    for i := 0 to |messages|
      invariant known == Known(messages[..i])
      invariant out == Repair(messages[..i])
    {
      var m := messages[i];
      assert messages[..i + 1][..i] == messages[..i];
      ghost var before := known;
      if m.role.Assistant? && m.toolCalls != [] {
        known := known + Announces(m);
      } else {
        QuietTurn(m);
      }
      if m.role.Tool? && AnsweredId(m) !in known {
        out := out + [Demoted(m)];
        continue;
      }
      out := out + [m];
    }
    assert messages[..|messages|] == messages;
  }

  lemma QuietTurn(m: Message)
    requires !HoldsCalls(m)
    ensures Announces(m) == {}
  {
  }

  /** Every tool message has its call in an earlier assistant turn. */
  ghost predicate Paired(messages: seq<Message>) {
    forall i | 0 <= i < |messages| && messages[i].role.Tool? ::
      exists j :: 0 <= j < i && AnsweredId(messages[i]) in Announces(messages[j])
  }

  lemma {:induction false} KnownIsEarlier(messages: seq<Message>, id: string)
    ensures id in Known(messages) <==> exists j :: 0 <= j < |messages| && id in Announces(messages[j])
    decreases |messages|
  {
    hide Announces;
    if messages != [] {
      var n := |messages| - 1;
      KnownIsEarlier(messages[..n], id);
      assert forall j | 0 <= j < n :: messages[..n][j] == messages[j];
    }
  }

  /** Repair works message by message: it keeps the length and only looks back. */
  lemma {:induction false} RepairAt(messages: seq<Message>, i: nat)
    requires i < |messages|
    ensures |Repair(messages)| == |messages|
    ensures Repair(messages)[i] == Mended(messages[i], Known(messages[..i]))
    decreases |messages|
  {
    hide Known, Mended;
    var n := |messages| - 1;
    if n > 0 {
      RepairAt(messages[..n], if i < n then i else 0);
      if i < n {
        assert messages[..n][..i] == messages[..i];
      }
    }
  }

  lemma RepairLength(messages: seq<Message>)
    ensures |Repair(messages)| == |messages|
  {
    if messages != [] {
      RepairAt(messages, 0);
    }
  }

  lemma {:induction false} RepairPrefix(a: seq<Message>, b: seq<Message>)
    ensures Repair(a) <= Repair(a + b)
    decreases |b|
  {
    RepairLength(a);
    RepairLength(a + b);
    forall i | 0 <= i < |a| ensures Repair(a + b)[i] == Repair(a)[i] {
      RepairAt(a + b, i);
      RepairAt(a, i);
      assert (a + b)[..i] == a[..i];
    }
  }

  /** Repair hides no call: the same ids are announced. */
  lemma {:induction false} RepairKeepsKnown(messages: seq<Message>)
    ensures Known(Repair(messages)) == Known(messages)
    decreases |messages|
  {
    hide Announces;
    if messages != [] {
      var n := |messages| - 1;
      RepairKeepsKnown(messages[..n]);
      var last := Mended(messages[n], Known(messages[..n]));
      assert Repair(messages)[..n] == Repair(messages[..n]) by { RepairLength(messages[..n]); }
      QuietTurn(Demoted(messages[n]));
      if messages[n].role.Tool? {
        QuietTurn(messages[n]);
      }
    }
  }

  /** Repair changes nothing exactly when every tool result already has its call before it. */
  lemma RepairIsIdentityIff(messages: seq<Message>)
    ensures Repair(messages) == messages <==> Paired(messages)
  {
    hide Announces, Known, Repair;
    RepairLength(messages);
    forall i | 0 <= i < |messages|
      ensures Repair(messages)[i] == messages[i] <==>
        (messages[i].role.Tool? ==> exists j :: 0 <= j < i && AnsweredId(messages[i]) in Announces(messages[j]))
    {
      RepairAt(messages, i);
      KnownIsEarlier(messages[..i], AnsweredId(messages[i]));
      assert forall j | 0 <= j < i :: messages[..i][j] == messages[j];
    }
    if Repair(messages) == messages {
      assert forall i | 0 <= i < |messages| :: Repair(messages)[i] == messages[i];
    }
  }

  /** Repairing in instalments is repairing at once: what was repaired is never touched again. */
  lemma RepairIsPrefixStable(a: seq<Message>, b: seq<Message>)
    ensures Repair(Repair(a) + b) == Repair(a + b)
    ensures Repair(a) <= Repair(a + b)
  {
    hide Repair, Known, Mended;
    RepairLength(a);
    RepairLength(a + b);
    RepairLength(Repair(a) + b);
    RepairPrefix(a, b);
    forall i | 0 <= i < |a + b| ensures Repair(Repair(a) + b)[i] == Repair(a + b)[i] {
      RepairAt(Repair(a) + b, i);
      RepairAt(a + b, i);
      if i < |a| {
        assert (Repair(a) + b)[..i] == Repair(a)[..i];
        RepairAt(a, i);
        assert (a + b)[..i] == a[..i];
        MendedTwice(a, i);
      } else {
        assert (Repair(a) + b)[..i] == Repair(a) + b[..i - |a|];
        assert (a + b)[..i] == a + b[..i - |a|];
        KnownAfterRepair(a, b[..i - |a|]);
      }
    }
  }

  lemma {:induction false} KnownAfterRepair(a: seq<Message>, b: seq<Message>)
    ensures Known(Repair(a) + b) == Known(a + b)
    decreases |b|
  {
    hide Repair, Announces;
    if b == [] {
      assert Repair(a) + b == Repair(a) && a + b == a;
      RepairKeepsKnown(a);
    } else {
      var n := |b| - 1;
      KnownAfterRepair(a, b[..n]);
      assert (Repair(a) + b)[..|Repair(a)| + n] == Repair(a) + b[..n];
      assert (a + b)[..|a| + n] == a + b[..n];
    }
  }

  lemma MendedTwice(a: seq<Message>, i: nat)
    requires i < |a|
    ensures |Repair(a)| == |a|
    ensures Mended(Repair(a)[i], Known(Repair(a)[..i])) == Mended(a[i], Known(a[..i]))
  {
    hide Repair, Known;
    RepairLength(a);
    RepairLength(a[..i]);
    RepairAt(a, i);
    RepairPrefix(a[..i], a[i..]);
    assert a[..i] + a[i..] == a;
    assert Repair(a)[..i] == Repair(a[..i]);
    RepairKeepsKnown(a[..i]);
  }

  lemma RepairIsIdempotent(a: seq<Message>)
    ensures Repair(Repair(a)) == Repair(a)
    ensures Paired(Repair(a))
  {
    RepairIsPrefixStable(a, []);
    assert Repair(a) + [] == Repair(a) && a + [] == a;
    RepairIsIdentityIff(Repair(a));
  }

  // ---------- chained turns ----------

  /** The assistant message kept in the history. */
  function AssistantTurn(text: string, calls: seq<ToolCall>): Message {
    Message(Assistant, if calls != [] && text == "" then NoContent else Plain(text), calls, None)
  }

  function Prelude(instructions: string): seq<Message> {
    if instructions == "" then [] else [Message(System, Plain(instructions), [], None)]
  }

  /** `to_chat_request`: what is sent and what is stored; an empty conversation is rejected. */
  method ToChatRequest(history: seq<Message>, input: seq<Message>, instructions: string)
    returns (r: Option<(seq<Message>, seq<Message>)>)
    ensures r.None? <==> history + input == []
    ensures r.Some? ==> r.value.1 == Repair(history + input)
    ensures r.Some? ==> r.value.0 == Prelude(instructions) + r.value.1
    ensures r.Some? && instructions == "" ==> r.value.0 == r.value.1
    ensures r.Some? && instructions != "" ==>
      r.value.0 == [Message(System, Plain(instructions), [], None)] + r.value.1
  {
    var conversation := RepairToolPairs(history + input);
    RepairLength(history + input);
    if conversation == [] {
      return None;
    }
    var messages := conversation;
    if instructions != "" {
      messages := [Message(System, Plain(instructions), [], None)] + messages;
    }
    r := Some((messages, conversation));
  }

  /** One stored turn: the input of the request and the assistant's reply. */
  datatype Exchange = Exchange(input: seq<Message>, text: string, calls: seq<ToolCall>)

  /** The history stored after a chain of turns. */
  function Stored(chain: seq<Exchange>): seq<Message> {
    if chain == [] then []
    else
      var last := chain[|chain| - 1];
      Repair(Stored(chain[..|chain| - 1]) + last.input) + [AssistantTurn(last.text, last.calls)]
  }

  /** Everything said over the chain, unrepaired. */
  function Transcript(chain: seq<Exchange>): seq<Message> {
    if chain == [] then []
    else
      var last := chain[|chain| - 1];
      Transcript(chain[..|chain| - 1]) + last.input + [AssistantTurn(last.text, last.calls)]
  }

  lemma AssistantTurnsStay(messages: seq<Message>, reply: Message)
    requires reply.role.Assistant?
    ensures Repair(messages + [reply]) == Repair(messages) + [reply]
  {
    assert (messages + [reply])[..|messages|] == messages;
  }

  /** Storing turn by turn gives the repair of the whole transcript, with every tool result paired. */
  lemma {:induction false} StoredIsRepairedTranscript(chain: seq<Exchange>)
    ensures Stored(chain) == Repair(Transcript(chain)) && Paired(Stored(chain))
    decreases |chain|
  {
    hide Repair;
    if chain == [] {
      assert Stored(chain) == Repair(Transcript(chain)) by { RepairLength([]); }
    } else {
      var before, last := chain[..|chain| - 1], chain[|chain| - 1];
      StoredIsRepairedTranscript(before);
      RepairIsPrefixStable(Transcript(before), last.input);
      AssistantTurnsStay(Transcript(before) + last.input, AssistantTurn(last.text, last.calls));
    }
    RepairIsIdempotent(Transcript(chain));
  }

  /** No later turn rewrites the history an earlier one stored. */
  lemma {:induction false} HistoryIsNeverRewritten(chain: seq<Exchange>, k: nat)
    requires k <= |chain|
    ensures Stored(chain[..k]) <= Stored(chain)
    decreases |chain|
  {
    hide Repair;
    if k == |chain| {
      assert chain[..k] == chain;
    } else {
      var before, last := chain[..|chain| - 1], chain[|chain| - 1];
      HistoryIsNeverRewritten(before, k);
      assert before[..k] == chain[..k];
      StoredIsRepairedTranscript(before);
      RepairIsIdempotent(Transcript(before));
      RepairPrefix(Stored(before), last.input);
    }
  }

  // ---------- output items ----------

  datatype OutputItem =
    | MessageItem(id: string, parts: seq<string>)
    | CallItem(id: string, callId: string, name: string, arguments: string)

  predicate OnePart(item: OutputItem) {
    item.MessageItem? ==> |item.parts| == 1
  }

  predicate OnePartEach(items: seq<OutputItem>) {
    forall item | item in items :: OnePart(item)
  }

  /** `tool_call.get("id") or new_function_call_id()`. */
  function EmittedCallId(call: ToolCall, drawn: string): string {
    if call.id.Some? && call.id.value != "" then call.id.value else drawn
  }

  function FunctionCallItem(call: ToolCall, itemId: string, drawn: string): OutputItem {
    CallItem(itemId, EmittedCallId(call, drawn), call.name, if call.arguments != "" then call.arguments else "{}")
  }

  /** `output_items`, with the ids drawn for the message and for each call. */
  method OutputItems(text: string, calls: seq<ToolCall>, messageId: string,
                     itemIds: nat -> string, drawn: nat -> string) returns (items: seq<OutputItem>)
    ensures var lead := if text != "" || calls == [] then [MessageItem(messageId, [text])] else [];
      && |items| == |lead| + |calls| && lead <= items
      && forall k | 0 <= k < |calls| ::
           items[|lead| + k] == FunctionCallItem(calls[k], itemIds(k), drawn(k))
    ensures OnePartEach(items)
  {
    items := [];
    if text != "" || calls == [] {
      items := items + [MessageItem(messageId, [text])];
    }
    ghost var lead := items;
    for k := 0 to |calls|
      invariant |items| == |lead| + k && lead <= items && OnePartEach(items)
      invariant forall j | 0 <= j < k :: items[|lead| + j] == FunctionCallItem(calls[j], itemIds(j), drawn(j))
    {
      items := items + [FunctionCallItem(calls[k], itemIds(k), drawn(k))];
    }
  }

  /** An output sent back with the call id of an emitted function_call is recognised in every later
      turn exactly when upstream gave the call an id (the id drawn otherwise is not in the history). */
  lemma ReturnedOutputIsPairedIff(
    before: seq<Message>, text: string, calls: seq<ToolCall>, k: nat, drawn: string, after: seq<Message>, m: Message)
    requires k < |calls| && m.role.Tool? && m.toolCallId == Some(EmittedCallId(calls[k], drawn))
    requires drawn !in Known(before + [AssistantTurn(text, calls)] + after)
    ensures var conversation := before + [AssistantTurn(text, calls)] + after + [m];
      Repair(conversation) == Repair(before + [AssistantTurn(text, calls)] + after) +
        [if calls[k].id.Some? && calls[k].id.value != "" then m else Demoted(m)]
  {
    hide Announces;
    var reply := AssistantTurn(text, calls);
    var earlier := before + [reply] + after;
    var conversation := earlier + [m];
    assert conversation[..|earlier|] == earlier;
    if calls[k].id.Some? && calls[k].id.value != "" {
      var id := calls[k].id.value;
      AnnouncedByItsTurn(reply, k);
      assert earlier[|before|] == reply;
      KnownIsEarlier(earlier, id);
    }
  }

  lemma AnnouncedByItsTurn(m: Message, k: nat)
    requires m.role.Assistant? && k < |m.toolCalls| && m.toolCalls[k].id.Some?
    ensures m.toolCalls[k].id.value in Announces(m)
  {
  }
}
