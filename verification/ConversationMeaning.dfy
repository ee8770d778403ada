/** What messages, content and output items carry; and that nothing else could carry it. */
module ConversationMeaning {
  import opened Common
  import opened Conversation

  // ---------- the messages are determined by what they say ----------

  lemma LastUtterances(messages: seq<Message>)
    requires messages != []
    ensures AllUtterances(messages)
      == AllUtterances(messages[..|messages| - 1]) + Utterances(messages[|messages| - 1])
  {
  }

  /** What one tidy message says: calls only, or one thing that is not a call. */
  lemma OneMessageSays(m: Message)
    requires Tidy([m])
    ensures var us := Utterances(m);
      if HoldsCalls(m) then us == CallsIn(m.toolCalls) && |us| > 0 && us[|us| - 1].Calls?
      else |us| == 1 && !us[0].Calls?
  {
    assert m in [m];
    if HoldsCalls(m) {
      assert [] + CallsIn(m.toolCalls) == CallsIn(m.toolCalls);
    }
  }

  lemma SameMessage(m: Message, n: Message)
    requires Tidy([m]) && Tidy([n]) && Utterances(m) == Utterances(n)
    ensures m == n
  {
    assert m in [m] && n in [n];
    OneMessageSays(m);
    OneMessageSays(n);
    if HoldsCalls(m) {
      assert forall i | 0 <= i < |m.toolCalls| :: CallsIn(m.toolCalls)[i] == Calls(m.toolCalls[i]);
      assert forall i | 0 <= i < |n.toolCalls| :: CallsIn(n.toolCalls)[i] == Calls(n.toolCalls[i]);
      assert m.toolCalls == n.toolCalls;
    }
  }

  lemma TidyParts(messages: seq<Message>)
    requires messages != [] && Tidy(messages) && NoSplitTurn(messages)
    ensures var n := |messages| - 1;
      Tidy([messages[n]]) && Tidy(messages[..n]) && NoSplitTurn(messages[..n])
  {
    var n := |messages| - 1;
    assert messages[n] in messages;
    assert forall m | m in messages[..n] :: m in messages;
    forall i | 0 < i < n ensures !(HoldsCalls(messages[..n][i - 1]) && HoldsCalls(messages[..n][i])) {
    }
  }

  lemma LongerTurn(a: seq<Utterance>, m: seq<Utterance>, b: seq<Utterance>, n: seq<Utterance>)
    requires a + m == b + n && |m| < |n|
    ensures a != [] && a[|a| - 1] == n[|n| - |m| - 1] && n[|n| - |m| - 1] in n
  {
    assert |a| + |m| == |b| + |n|;
    var i := |a| - 1;
    assert (a + m)[i] == (b + n)[i];
  }

  /** The last turn of the longer list of calls would be preceded by calls of the same turn. */
  lemma SameLastTurn(a: seq<Utterance>, m: seq<Utterance>, b: seq<Utterance>, n: seq<Utterance>)
    requires a + m == b + n && |m| > 0 && |n| > 0
    requires (forall u | u in m :: u.Calls?) || (|m| == 1 && !m[0].Calls?)
    requires (forall u | u in n :: u.Calls?) || (|n| == 1 && !n[0].Calls?)
    requires (forall u | u in m :: u.Calls?) ==> a == [] || !a[|a| - 1].Calls?
    requires (forall u | u in n :: u.Calls?) ==> b == [] || !b[|b| - 1].Calls?
    ensures a == b && m == n
  {
    var all := a + m;
    assert all[|all| - 1] == m[|m| - 1] && all[|all| - 1] == n[|n| - 1];
    assert m[|m| - 1] in m && n[|n| - 1] in n;
    if |m| < |n| {
      LongerTurn(a, m, b, n);
    } else if |n| < |m| {
      LongerTurn(b, n, a, m);
    }
    assert a == all[..|all| - |m|] && m == all[|all| - |m|..];
    assert b == all[..|all| - |n|] && n == all[|all| - |n|..];
  }

  /** What comes before a turn of calls does not end in a call. */
  lemma NoCallBefore(messages: seq<Message>)
    requires messages != [] && Tidy(messages) && NoSplitTurn(messages) && HoldsCalls(messages[|messages| - 1])
    ensures var before := AllUtterances(messages[..|messages| - 1]);
      before == [] || !before[|before| - 1].Calls?
  {
    var n := |messages| - 1;
    if n > 0 {
      TidyParts(messages);
      TidyParts(messages[..n]);
      LastUtterances(messages[..n]);
      OneMessageSays(messages[..n][n - 1]);
      assert messages[..n][n - 1] == messages[n - 1];
      assert !HoldsCalls(messages[n - 1]);
    }
  }

  lemma CallsOnly(m: Message)
    requires Tidy([m])
    ensures HoldsCalls(m) <==> forall u | u in Utterances(m) :: u.Calls?
    ensures |Utterances(m)| > 0 && (!HoldsCalls(m) ==> |Utterances(m)| == 1 && !Utterances(m)[0].Calls?)
  {
    OneMessageSays(m);
    if HoldsCalls(m) {
      assert forall u | u in CallsIn(m.toolCalls) :: u.Calls?;
    } else {
      assert Utterances(m)[0] in Utterances(m);
    }
  }

  /** Two tidy lists of messages that say the same, neither of which splits a turn, are the same list: what
      `InputToMessages` promises leaves no freedom. */
  lemma {:induction false} MessagesAreDetermined(a: seq<Message>, b: seq<Message>)
    requires Tidy(a) && NoSplitTurn(a) && Tidy(b) && NoSplitTurn(b)
    requires AllUtterances(a) == AllUtterances(b)
    ensures a == b
    decreases |a|
  {
    hide AllUtterances, Utterances, Tidy, NoSplitTurn;
    if a == [] || b == [] {
      SaysSomething(a);
      SaysSomething(b);
    } else {
      var i, j := |a| - 1, |b| - 1;
      TidyParts(a);
      TidyParts(b);
      LastUtterances(a);
      LastUtterances(b);
      CallsOnly(a[i]);
      CallsOnly(b[j]);
      if HoldsCalls(a[i]) { NoCallBefore(a); }
      if HoldsCalls(b[j]) { NoCallBefore(b); }
      SameLastTurn(AllUtterances(a[..i]), Utterances(a[i]), AllUtterances(b[..j]), Utterances(b[j]));
      SameMessage(a[i], b[j]);
      MessagesAreDetermined(a[..i], b[..j]);
      assert a == a[..i] + [a[i]] && b == b[..j] + [b[j]];
    }
  }

  lemma SaysSomething(messages: seq<Message>)
    requires Tidy(messages) && NoSplitTurn(messages)
    ensures AllUtterances(messages) == [] <==> messages == []
  {
    if messages != [] {
      TidyParts(messages);
      LastUtterances(messages);
      CallsOnly(messages[|messages| - 1]);
    }
  }

  // ---------- content ----------

  /** The texts with a separator between each two. */
  function Joined(texts: seq<string>, separator: string): string {
    if texts == [] then "" else if |texts| == 1 then texts[0] else texts[0] + separator + Joined(texts[1..], separator)
  }

  /** The texts and refusals among the parts, in order. */
  function PartTexts(parts: seq<PartIn>): seq<string> {
    if parts == [] then []
    else
      (match parts[0] case TextPart(t) => [t] case RefusalPart(t) => [t] case _ => []) + PartTexts(parts[1..])
  }

  function BlockTexts(blocks: seq<Block>): seq<string> {
    if blocks == [] then []
    else (match blocks[0] case TextBlock(t) => [t] case ImageBlock(_) => []) + BlockTexts(blocks[1..])
  }

  lemma {:induction false} JoinedSnoc(texts: seq<string>, last: string, separator: string)
    ensures Joined(texts + [last], separator)
      == if texts == [] then last else Joined(texts, separator) + separator + last
    decreases |texts|
  {
    if texts == [] {
      assert [] + [last] == [last];
    } else {
      assert (texts + [last])[1..] == texts[1..] + [last];
      JoinedSnoc(texts[1..], last, separator);
      if |texts| > 1 {
        assert texts[0] + separator + (Joined(texts[1..], separator) + separator + last)
          == (texts[0] + separator + Joined(texts[1..], separator)) + separator + last;
      }
    }
  }

  lemma {:induction false} BlockTextsAppend(a: seq<Block>, b: seq<Block>)
    ensures BlockTexts(a + b) == BlockTexts(a) + BlockTexts(b)
    decreases |a|
  {
    if a == [] {
      assert a + b == b;
    } else {
      assert (a + b)[0] == a[0] && (a + b)[1..] == a[1..] + b;
      BlockTextsAppend(a[1..], b);
    }
  }

  lemma {:induction false} PartTextsAppend(a: seq<PartIn>, b: seq<PartIn>)
    ensures PartTexts(a + b) == PartTexts(a) + PartTexts(b)
    decreases |a|
  {
    if a == [] {
      assert a + b == b;
    } else {
      assert (a + b)[0] == a[0] && (a + b)[1..] == a[1..] + b;
      PartTextsAppend(a[1..], b);
    }
  }

  lemma {:induction false} LinesAreJoined(blocks: seq<Block>)
    requires forall b | b in blocks :: b.TextBlock?
    ensures JoinLines(blocks) == Joined(BlockTexts(blocks), "\n") && |BlockTexts(blocks)| == |blocks|
    decreases |blocks|
  {
    if blocks != [] {
      var n := |blocks| - 1;
      LinesAreJoined(blocks[..n]);
      assert blocks == blocks[..n] + [blocks[n]];
      BlockTextsAppend(blocks[..n], [blocks[n]]);
      OneText(blocks[n]);
      JoinedSnoc(BlockTexts(blocks[..n]), blocks[n].text, "\n");
    }
  }

  lemma OneText(b: Block)
    ensures BlockTexts([b]) == match b case TextBlock(t) => [t] case ImageBlock(_) => []
  {
    assert [b][1..] == [];
  }

  /** The text of blocks is their texts with blanks between them. */
  lemma {:induction false} TextIsJoined(blocks: seq<Block>)
    ensures TextOfBlocks(blocks) == Joined(BlockTexts(blocks), " ")
    ensures BlockTexts(blocks) == [] <==> forall b | b in blocks :: b.ImageBlock?
    decreases |blocks|
  {
    if blocks != [] {
      TextIsJoined(blocks[1..]);
      assert blocks == [blocks[0]] + blocks[1..];
      var rest := BlockTexts(blocks[1..]);
      if blocks[0].TextBlock? {
        assert ([blocks[0].text] + rest)[1..] == rest;
      } else {
        assert [] + rest == rest;
      }
    }
  }

  lemma {:induction false} BlocksCarryTheParts(parts: seq<PartIn>)
    ensures BlockTexts(BlocksOf(parts)) == PartTexts(parts)
    ensures forall url :: ImageBlock(url) in BlocksOf(parts) <==> ImagePart(url) in parts
    decreases |parts|
  {
    if parts != [] {
      var n := |parts| - 1;
      BlocksCarryTheParts(parts[..n]);
      assert parts == parts[..n] + [parts[n]];
      PartTextsAppend(parts[..n], [parts[n]]);
      assert [parts[n]][1..] == [];
      var block := match parts[n]
        case TextPart(t) => [TextBlock(t)]
        case RefusalPart(t) => [TextBlock(t)]
        case ImagePart(url) => [ImageBlock(url)]
        case _ => [];
      assert BlocksOf(parts) == BlocksOf(parts[..n]) + block;
      BlockTextsAppend(BlocksOf(parts[..n]), block);
      if block != [] {
        OneText(block[0]);
      }
    }
  }

  /** A list of parts is rejected exactly for an unknown part or an image without a URL; without images it
      becomes one string, a line per text; with images, blocks that carry every text and every image. */
  lemma PartsBecome(parts: seq<PartIn>)
    ensures ChatContent(PartsIn(parts)).None? <==> UnknownPart in parts || ImagePart("") in parts
    ensures ChatContent(PartsIn(parts)).Some? && (forall p | p in parts :: !p.ImagePart?) ==>
      ChatContent(PartsIn(parts)).value == Plain(Joined(PartTexts(parts), "\n"))
    ensures ChatContent(PartsIn(parts)).Some? && (exists p :: p in parts && p.ImagePart?) ==>
      && ChatContent(PartsIn(parts)).value.Blocks?
      && BlockTexts(ChatContent(PartsIn(parts)).value.blocks) == PartTexts(parts)
      && forall url :: ImageBlock(url) in ChatContent(PartsIn(parts)).value.blocks <==> ImagePart(url) in parts
  {
    hide BlocksOf, JoinLines;
    BlocksHoldImages(parts);
    BlocksCarryTheParts(parts);
    assert (exists p | p in parts :: Rejected(p)) <==> UnknownPart in parts || ImagePart("") in parts by {
      assert Rejected(UnknownPart) && Rejected(ImagePart(""));
    }
    if forall b | b in BlocksOf(parts) :: b.TextBlock? {
      LinesAreJoined(BlocksOf(parts));
    }
  }

  /** The four role names there are. */
  lemma RolesMean(name: string)
    ensures RoleOf(name) == Some(System) <==> name == "system" || name == "developer"
    ensures RoleOf(name) == Some(User) <==> name == "user"
    ensures RoleOf(name) == Some(Assistant) <==> name == "assistant"
    ensures RoleOf(name) != Some(Tool)
  {
  }

  /** An item is a reason to reject the request exactly when it is no object, or a message with an unknown
      role, or with content that is neither text nor a list of known parts. */
  lemma RejectedItems(item: InputItem)
    ensures !Acceptable(item) <==>
      || item.NotAnObject?
      || (item.MessageIn? &&
            (|| item.roleName !in {"system", "developer", "user", "assistant"}
             || item.content.BadContentIn?
             || (item.content.PartsIn? && (UnknownPart in item.content.parts || ImagePart("") in item.content.parts))))
  {
    hide BlocksOf, JoinLines;
    if item.MessageIn? {
      RolesMean(item.roleName);
      if item.content.PartsIn? {
        PartsBecome(item.content.parts);
      }
    }
  }

  /** A reference stands for the stored item of that id, if it is an object; otherwise it is passed over, and
      so is one that leads to another reference. */
  lemma ReferencesMean(ref: string, store: map<string, InputItem>, drawn: string)
    ensures var found := ref != "" && ref in store && !store[ref].NotAnObject?;
      var item := Resolved(ReferenceIn(ref), store);
      && (found ==> item == store[ref])
      && (!found || store[ref].ReferenceIn? ==> Acceptable(item) && Meaning(item, drawn) == [])
    ensures forall item: InputItem | !item.ReferenceIn? :: Resolved(item, store) == item
  {
  }

  /** An input is rejected exactly when it is neither missing, text nor a list, or for one of its items. */
  lemma RejectedInputs(input: Input, store: map<string, InputItem>)
    ensures !InputAcceptable(input, store) <==>
      || input.BadInput?
      || (input.ItemsInput? && exists item :: item in input.items && !Acceptable(Resolved(item, store)))
  {
  }

  /** An orphan result becomes a user message that ends with the whole result and names the call before it. */
  lemma DemotedCarriesTheResult(m: Message)
    ensures var d, id := Demoted(m), if m.toolCallId.Some? then m.toolCallId.value else "None";
      && d.role == User && d.toolCalls == [] && d.toolCallId == None && d.content.Plain?
      && exists before, after :: d.content.text == before + id + after + TextOf(m.content)
  {
    var id := if m.toolCallId.Some? then m.toolCallId.value else "None";
    assert Demoted(m).content.text == "[tool result for call " + id + "]\n" + TextOf(m.content);
  }

  // ---------- output that comes back as input ----------

  /** An output item as a client sends it back. */
  function SentBack(item: OutputItem): InputItem {
    match item
    case MessageItem(_, parts) =>
      MessageIn("assistant", PartsIn(seq(|parts|, i requires 0 <= i < |parts| => TextPart(parts[i]))))
    case CallItem(id, callId, name, arguments) => CallIn(callId, id, name, arguments)
  }

  /** A call with the arguments an empty string stands for. */
  function WithId(call: ToolCall, id: string): ToolCall {
    ToolCall(Some(id), call.name, if call.arguments == "" then "{}" else call.arguments)
  }

  /** A function_call item sent back is the same call, under the id it was emitted with. */
  lemma CallComesBack(call: ToolCall, itemId: string, drawn: string, again: string)
    requires drawn != ""
    ensures Meaning(SentBack(FunctionCallItem(call, itemId, drawn)), again)
      == [Calls(WithId(call, if call.id.Some? && call.id.value != "" then call.id.value else drawn))]
  {
  }

  /** A call item is never left without an id: its own, else the item's, else one that is drawn. */
  lemma CallGetsAnId(callId: string, itemId: string, name: string, arguments: string, drawn: string)
    ensures var means := Meaning(CallIn(callId, itemId, name, arguments), drawn);
      && |means| == 1 && means[0].Calls? && means[0].call.name == name
      && means[0].call.arguments == (if arguments == "" then "{}" else arguments)
      && (callId != "" ==> means[0].call.id == Some(callId))
      && (callId == "" && itemId != "" ==> means[0].call.id == Some(itemId))
      && (callId == "" && itemId == "" ==> means[0].call.id == Some(drawn))
  {
  }

  /** A message item sent back is the assistant saying the same text. */
  lemma MessageComesBack(id: string, text: string, again: string)
    ensures Meaning(SentBack(MessageItem(id, [text])), again) == [Says(Assistant, Plain(text))]
  {
    hide ChatContent, JoinLines, TextOfBlocks, BlocksOf;
    var parts := [TextPart(text)];
    assert SentBack(MessageItem(id, [text])).content.parts == parts;
    assert parts[1..] == [];
    PartsBecome(parts);
  }

  /** The reply kept in the history says what the output items say: the text, unless there are only calls,
      and then the calls. */
  lemma ReplyIsKept(text: string, calls: seq<ToolCall>)
    ensures Utterances(AssistantTurn(text, calls)) ==
      (if text != "" || calls == [] then [Says(Assistant, Plain(text))] else [])
      + seq(|calls|, i requires 0 <= i < |calls| => Calls(calls[i]))
    ensures AssistantTurn(text, calls).role == Assistant && AssistantTurn(text, calls).toolCalls == calls
    ensures AssistantTurn(text, calls).toolCallId == None
  {
  }
}
