/** The two printers of Responses API events, and a strict client that reads them back. */
module ResponseEvents {
  import opened Common
  import opened Conversation

  /** An item while it is being sent is "in_progress". */
  datatype Status = Pending | Completed

  datatype Event =
    | ResponseCreated
    | ResponseInProgress
    | ItemAdded(index: nat, item: OutputItem, status: Status)
    | PartAdded(itemId: string, index: nat, text: string)
    | TextDelta(itemId: string, index: nat, text: string)
    | TextDone(itemId: string, index: nat, text: string)
    | PartDone(itemId: string, index: nat, text: string)
    | ArgumentsDelta(itemId: string, index: nat, text: string)
    | ArgumentsDone(itemId: string, index: nat, text: string)
    | ItemDone(index: nat, item: OutputItem, status: Status)
    | ResponseCompleted(output: seq<OutputItem>, outputText: string)

  datatype Numbered = Numbered(number: nat, event: Event)

  function Join(parts: seq<string>): string {
    if parts == [] then "" else Join(parts[..|parts| - 1]) + parts[|parts| - 1]
  }

  /** The `output_text` mirror of a completed response. */
  function OutputText(items: seq<OutputItem>): string {
    if items == [] then ""
    else
      var last := items[|items| - 1];
      OutputText(items[..|items| - 1]) + if last.MessageItem? then Join(last.parts) else ""
  }

  // ---------- replay_events ----------

  function TextDeltaOf(itemId: string, index: nat, text: string): seq<Event> {
    if text == "" then [] else [TextDelta(itemId, index, text)]
  }

  function DeltaEvents(itemId: string, index: nat, chunks: seq<string>): seq<Event> {
    if chunks == [] then []
    else DeltaEvents(itemId, index, chunks[..|chunks| - 1]) + TextDeltaOf(itemId, index, chunks[|chunks| - 1])
  }

  function Opening(itemId: string, index: nat): seq<Event> {
    [ItemAdded(index, MessageItem(itemId, []), Pending), PartAdded(itemId, index, "")]
  }

  function Settling(itemId: string, index: nat, text: string, item: OutputItem): seq<Event> {
    [TextDone(itemId, index, text), PartDone(itemId, index, text), ItemDone(index, item, Completed)]
  }

  function ItemEvents(index: nat, item: OutputItem): seq<Event> {
    match item
    case MessageItem(id, parts) =>
      Opening(id, index) + TextDeltaOf(id, index, Join(parts)) + Settling(id, index, Join(parts), item)
    case CallItem(id, _, _, arguments) =>
      [ItemAdded(index, item.(arguments := ""), Pending), ArgumentsDelta(id, index, arguments),
       ArgumentsDone(id, index, arguments), ItemDone(index, item, Completed)]
  }

  function AllItemEvents(items: seq<OutputItem>): seq<Event> {
    if items == [] then []
    else AllItemEvents(items[..|items| - 1]) + ItemEvents(|items| - 1, items[|items| - 1])
  }

  function Replayed(items: seq<OutputItem>): seq<Event> {
    [ResponseCreated, ResponseInProgress] + AllItemEvents(items) + [ResponseCompleted(items, OutputText(items))]
  }

  /** The sequence numbers are 1, 2, 3, ... */
  ghost predicate Numbers(out: seq<Numbered>, events: seq<Event>) {
    |out| == |events| && forall i | 0 <= i < |out| :: out[i] == Numbered(i + 1, events[i])
  }

  /** The client sees the events themselves, under numbers that start at 1 and leave none out. */
  lemma NumbersMean(out: seq<Numbered>, events: seq<Event>)
    requires Numbers(out, events)
    ensures |out| == |events| && forall i | 0 <= i < |out| :: out[i].event == events[i]
    ensures out != [] ==> out[0].number == 1
    ensures forall i | 0 < i < |out| :: out[i].number == out[i - 1].number + 1
  {
  }

  /** The generators' shared counter and what they have emitted so far. */
  class Printer {
    var seqNo: nat
    var out: seq<Numbered>
    ghost var events: seq<Event>

    ghost predicate Valid()
      reads this
    {
      seqNo == |events| && Numbers(out, events)
    }

    constructor ()
      ensures Valid() && events == []
    {
      seqNo, out, events := 0, [], [];
    }

    /** `ev`. */
    method Emit(event: Event)
      requires Valid()
      modifies this
      ensures Valid() && events == old(events) + [event]
    {
      seqNo := seqNo + 1;
      out := out + [Numbered(seqNo, event)];
      events := events + [event];
    }
  }

  method Replay(items: seq<OutputItem>) returns (out: seq<Numbered>)
    ensures Numbers(out, Replayed(items))
  {
    hide ItemEvents, OutputText;
    var p := new Printer();
    p.Emit(ResponseCreated);
    p.Emit(ResponseInProgress);
    for index := 0 to |items|
      invariant fresh(p) && p.Valid()
      invariant p.events == [ResponseCreated, ResponseInProgress] + AllItemEvents(items[..index])
    {
      ReplayItem(p, index, items[index]);
      assert items[..index + 1][..index] == items[..index];
    }
    assert items[..|items|] == items;
    p.Emit(ResponseCompleted(items, OutputText(items)));
    out := p.out;
  }

  method ReplayItem(p: Printer, index: nat, item: OutputItem)
    requires p.Valid()
    modifies p
    ensures p.Valid() && p.events == old(p.events) + ItemEvents(index, item)
  {
    hide Join, Numbers;
    match item {
      case MessageItem(id, parts) =>
        var text := Join(parts);
        p.Emit(ItemAdded(index, item.(parts := []), Pending));
        p.Emit(PartAdded(id, index, ""));
        if text != "" {
          p.Emit(TextDelta(id, index, text));
        }
        p.Emit(TextDone(id, index, text));
        p.Emit(PartDone(id, index, text));
      case CallItem(id, _, _, arguments) =>
        p.Emit(ItemAdded(index, item.(arguments := ""), Pending));
        p.Emit(ArgumentsDelta(id, index, arguments));
        p.Emit(ArgumentsDone(id, index, arguments));
    }
    p.Emit(ItemDone(index, item, Completed));
  }

  // ---------- stream_events ----------

  /** The text of each upstream chunk ("" when it has none); the stream may break with an error. */
  datatype Upstream = Upstream(chunks: seq<string>, broke: bool)

  /** What is sent for the chunks received so far. */
  function Sent(itemId: string, chunks: seq<string>): seq<Event> {
    [ResponseCreated, ResponseInProgress]
    + if chunks == [] then [] else Opening(itemId, 0) + DeltaEvents(itemId, 0, chunks)
  }

  function Closing(itemId: string, text: string): seq<Event> {
    Settling(itemId, 0, text, MessageItem(itemId, [text])) + [ResponseCompleted([MessageItem(itemId, [text])], text)]
  }

  function Streamed(itemId: string, up: Upstream): seq<Event> {
    if up.broke then Sent(itemId, up.chunks)
    else [ResponseCreated, ResponseInProgress]
         + (Opening(itemId, 0) + DeltaEvents(itemId, 0, up.chunks))
         + Closing(itemId, Join(up.chunks))
  }

  lemma JoinOneMore(parts: seq<string>, i: nat)
    requires i < |parts|
    ensures Join(parts[..i + 1]) == Join(parts[..i]) + parts[i]
  {
    assert parts[..i + 1][..i] == parts[..i];
  }

  lemma OneMoreChunk(itemId: string, chunks: seq<string>, i: nat)
    requires i < |chunks|
    ensures Sent(itemId, chunks[..i + 1]) ==
      Sent(itemId, chunks[..i]) + (if i == 0 then Opening(itemId, 0) else []) + TextDeltaOf(itemId, 0, chunks[i])
    ensures Join(chunks[..i + 1]) == Join(chunks[..i]) + chunks[i]
  {
    hide TextDeltaOf, Join, Opening;
    assert Join(chunks[..i + 1]) == Join(chunks[..i]) + chunks[i] by { JoinOneMore(chunks, i); }
    var before, last := DeltaEvents(itemId, 0, chunks[..i]), TextDeltaOf(itemId, 0, chunks[i]);
    assert DeltaEvents(itemId, 0, chunks[..i + 1]) == before + last by {
      assert chunks[..i + 1][..i] == chunks[..i];
    }
    if i == 0 {
      assert before == [];
    } else {
      assert [ResponseCreated, ResponseInProgress] + (Opening(itemId, 0) + (before + last))
          == [ResponseCreated, ResponseInProgress] + (Opening(itemId, 0) + before) + [] + last;
    }
  }

  method SendOpening(p: Printer, itemId: string)
    requires p.Valid()
    modifies p
    ensures p.Valid() && p.events == old(p.events) + Opening(itemId, 0)
  {
    p.Emit(ItemAdded(0, MessageItem(itemId, []), Pending));
    p.Emit(PartAdded(itemId, 0, ""));
  }

  method SendClosing(p: Printer, itemId: string, text: string)
    requires p.Valid()
    modifies p
    ensures p.Valid() && p.events == old(p.events) + Closing(itemId, text)
  {
    p.Emit(TextDone(itemId, 0, text));
    p.Emit(PartDone(itemId, 0, text));
    var item := MessageItem(itemId, [text]);
    p.Emit(ItemDone(0, item, Completed));
    p.Emit(ResponseCompleted([item], text));
  }

  /** `remembered` is what `on_complete` is called with. */
  method Stream(itemId: string, up: Upstream) returns (out: seq<Numbered>, remembered: Option<(string, OutputItem)>)
    ensures Numbers(out, Streamed(itemId, up))
    ensures remembered == if up.broke then None
                          else Some((Join(up.chunks), MessageItem(itemId, [Join(up.chunks)])))
  {
    hide Join, Numbers, Opening, Closing;
    var p := new Printer();
    p.Emit(ResponseCreated);
    p.Emit(ResponseInProgress);
    var started := false;
    var text := "";
    assert text == Join([]) by { JoinNothing(); }
    for i := 0 to |up.chunks|
      invariant fresh(p) && p.Valid() && started == (i > 0)
      invariant text == Join(up.chunks[..i])
      invariant p.events == Sent(itemId, up.chunks[..i])
    {
      hide Sent;
      OneMoreChunk(itemId, up.chunks, i);
      if !started {
        started := true;
        SendOpening(p, itemId);
      }
      var delta := up.chunks[i];
      if delta != "" {
        text := text + delta;
        p.Emit(TextDelta(itemId, 0, delta));
      }
    }
    assert up.chunks[..|up.chunks|] == up.chunks;
    if up.broke {
      assert p.events == Streamed(itemId, up);
      return p.out, None;
    }
    if !started {
      SendOpening(p, itemId);
    }
    SendClosing(p, itemId, text);
    remembered := Some((text, MessageItem(itemId, [text])));
    assert p.events == Streamed(itemId, up);
    out := p.out;
  }

  lemma JoinNothing()
    ensures Join([]) == ""
  {
  }

  // ---------- the client ----------

  datatype Phase =
    | Start | Announced | Between | Finished
    | Opened(item: OutputItem) | Filling(item: OutputItem) | TextSettled(item: OutputItem) | Settled(item: OutputItem)

  /** What a client has rebuilt so far from the events alone. */
  datatype Client = Client(items: seq<OutputItem>, phase: Phase)

  const NEW_CLIENT := Client([], Start)

  /** A client that accepts an event only in its place: one item open at a time, in index order,
      addressed by its own id, with every "done" payload equal to what the deltas add up to. */
  function Receive(c: Client, e: Event): Option<Client> {
    match (c.phase, e)
    case (Start, ResponseCreated) => Some(c.(phase := Announced))
    case (Announced, ResponseInProgress) => Some(c.(phase := Between))
    case (Between, ItemAdded(i, item, Pending)) =>
      if i == |c.items| && (if item.MessageItem? then item.parts == [] else item.arguments == "")
      then Some(c.(phase := Opened(item))) else None
    case (Opened(MessageItem(id, _)), PartAdded(eid, i, t)) =>
      if eid == id && i == |c.items| && t == "" then Some(c.(phase := Filling(MessageItem(id, [""])))) else None
    case (Filling(MessageItem(id, parts)), TextDelta(eid, i, d)) =>
      if eid == id && i == |c.items| then Some(c.(phase := Filling(MessageItem(id, [Join(parts) + d])))) else None
    case (Filling(MessageItem(id, parts)), TextDone(eid, i, t)) =>
      if eid == id && i == |c.items| && [t] == parts then Some(c.(phase := TextSettled(c.phase.item))) else None
    case (TextSettled(MessageItem(id, parts)), PartDone(eid, i, t)) =>
      if eid == id && i == |c.items| && [t] == parts then Some(c.(phase := Settled(c.phase.item))) else None
    case (Opened(CallItem(id, callId, name, _)), ArgumentsDelta(eid, i, d)) =>
      if eid == id && i == |c.items| then Some(c.(phase := Filling(CallItem(id, callId, name, d)))) else None
    case (Filling(CallItem(id, _, _, arguments)), ArgumentsDone(eid, i, a)) =>
      if eid == id && i == |c.items| && a == arguments then Some(c.(phase := Settled(c.phase.item))) else None
    case (Settled(built), ItemDone(i, item, Completed)) =>
      if i == |c.items| && item == built then Some(Client(c.items + [built], Between)) else None
    case (Between, ResponseCompleted(output, outputText)) =>
      if output == c.items && outputText == OutputText(c.items) then Some(c.(phase := Finished)) else None
    case _ => None
  }

  function Feed(c: Client, events: seq<Event>): Option<Client> {
    if events == [] then Some(c)
    else
      match Feed(c, events[..|events| - 1])
      case None => None
      case Some(d) => Receive(d, events[|events| - 1])
  }

  lemma {:induction false} FeedAppend(c: Client, a: seq<Event>, b: seq<Event>)
    ensures Feed(c, a + b) == if Feed(c, a).Some? then Feed(Feed(c, a).value, b) else None
    decreases |b|
  {
    hide Receive;
    if b == [] {
      assert a + b == a;
    } else {
      var n := |b| - 1;
      assert (a + b)[..|a| + n] == a + b[..n];
      FeedAppend(c, a, b[..n]);
    }
  }

  lemma FeedMore(c: Client, a: seq<Event>, e: Event)
    ensures Feed(c, a + [e]) == if Feed(c, a).Some? then Receive(Feed(c, a).value, e) else None
  {
    FeedAppend(c, a, [e]);
  }

  function Then(c: Option<Client>, e: Event): Option<Client> {
    if c.Some? then Receive(c.value, e) else None
  }

  lemma FeedThree(c: Client, a: Event, b: Event, d: Event)
    ensures Feed(c, [a, b]) == Then(Receive(c, a), b)
    ensures Feed(c, [a, b, d]) == Then(Then(Receive(c, a), b), d)
  {
    hide Receive;
    FeedMore(c, [a], b);
    FeedMore(c, [a, b], d);
    assert [a] + [b] == [a, b] && [a, b] + [d] == [a, b, d];
  }

  // ---------- printing is invertible ----------

  lemma DeltaIsUnderstood(done: seq<OutputItem>, id: string, text: string, delta: string)
    ensures Receive(Client(done, Filling(MessageItem(id, [text]))), TextDelta(id, |done|, delta))
      == Some(Client(done, Filling(MessageItem(id, [text + delta]))))
  {
    JoinOne(text);
  }

  lemma OnePartInit(items: seq<OutputItem>)
    requires items != []
    ensures var n := |items| - 1; OnePartEach(items) <==> OnePartEach(items[..n]) && OnePart(items[n])
  {
    assert items == items[..|items| - 1] + [items[|items| - 1]];
  }

  lemma {:induction false} FillingUp(done: seq<OutputItem>, id: string, chunks: seq<string>)
    ensures Feed(Client(done, Filling(MessageItem(id, [""]))), DeltaEvents(id, |done|, chunks))
      == Some(Client(done, Filling(MessageItem(id, [Join(chunks)]))))
    decreases |chunks|
  {
    hide Receive;
    if chunks != [] {
      var n := |chunks| - 1;
      FillingUp(done, id, chunks[..n]);
      var before := DeltaEvents(id, |done|, chunks[..n]);
      if chunks[n] == "" {
        assert before + [] == before;
        assert Join(chunks) == Join(chunks[..n]);
      } else {
        FeedMore(Client(done, Filling(MessageItem(id, [""]))), before, TextDelta(id, |done|, chunks[n]));
        DeltaIsUnderstood(done, id, Join(chunks[..n]), chunks[n]);
      }
    }
  }

  lemma JoinOne(part: string)
    ensures Join([part]) == part
  {
    assert Join([part]) == Join([]) + part;
  }

  lemma OpeningIsUnderstood(done: seq<OutputItem>, id: string)
    ensures Feed(Client(done, Between), Opening(id, |done|)) == Some(Client(done, Filling(MessageItem(id, [""]))))
  {
    hide Feed;
    FeedThree(Client(done, Between), Opening(id, |done|)[0], Opening(id, |done|)[1], ResponseCreated);
  }

  lemma SettlingIsUnderstood(done: seq<OutputItem>, id: string, text: string, item: OutputItem)
    ensures Feed(Client(done, Filling(MessageItem(id, [text]))), Settling(id, |done|, text, item))
      == if item == MessageItem(id, [text]) then Some(Client(done + [item], Between)) else None
  {
    hide Feed;
    var e := Settling(id, |done|, text, item);
    FeedThree(Client(done, Filling(MessageItem(id, [text]))), e[0], e[1], e[2]);
  }

  /** A whole message: rebuilt from its deltas, and rejected if the "done" item is not that message. */
  lemma MessageIsUnderstood(done: seq<OutputItem>, id: string, chunks: seq<string>, item: OutputItem)
    ensures Feed(Client(done, Between),
                 Opening(id, |done|) + DeltaEvents(id, |done|, chunks) + Settling(id, |done|, Join(chunks), item))
      == if item == MessageItem(id, [Join(chunks)]) then Some(Client(done + [item], Between)) else None
  {
    hide Feed, Receive, Opening, Settling, DeltaEvents;
    OpeningIsUnderstood(done, id);
    FillingUp(done, id, chunks);
    SettlingIsUnderstood(done, id, Join(chunks), item);
    FeedAppend(Client(done, Between), Opening(id, |done|), DeltaEvents(id, |done|, chunks));
    FeedAppend(Client(done, Between), Opening(id, |done|) + DeltaEvents(id, |done|, chunks),
               Settling(id, |done|, Join(chunks), item));
  }

  lemma CallIsUnderstood(done: seq<OutputItem>, item: OutputItem)
    requires item.CallItem?
    ensures Feed(Client(done, Between), ItemEvents(|done|, item)) == Some(Client(done + [item], Between))
  {
    hide Feed;
    var e := ItemEvents(|done|, item);
    FeedThree(Client(done, Between), e[0], e[1], e[2]);
    FeedMore(Client(done, Between), [e[0], e[1], e[2]], e[3]);
    assert [e[0], e[1], e[2]] + [e[3]] == e;
  }

  /** An item is rebuilt exactly when it is a call or a message of one part. */
  lemma ItemIsUnderstood(done: seq<OutputItem>, item: OutputItem)
    ensures Feed(Client(done, Between), ItemEvents(|done|, item)) ==
      if OnePart(item) then Some(Client(done + [item], Between)) else None
  {
    if item.CallItem? {
      CallIsUnderstood(done, item);
    } else {
      hide Feed, Opening, Settling;
      var text := Join(item.parts);
      MessageIsUnderstood(done, item.id, [text], item);
      JoinOne(text);
      assert DeltaEvents(item.id, |done|, [text]) == TextDeltaOf(item.id, |done|, text) by {
        assert DeltaEvents(item.id, |done|, [text][..0]) == [];
      }
      if |item.parts| == 1 {
        JoinOne(item.parts[0]);
        assert item.parts == [item.parts[0]];
      }
    }
  }

  lemma {:induction false} ItemsAreUnderstood(items: seq<OutputItem>)
    ensures Feed(Client([], Between), AllItemEvents(items)) ==
      if OnePartEach(items) then Some(Client(items, Between)) else None
    decreases |items|
  {
    hide Feed, OnePartEach, ItemEvents, OnePart;
    if items == [] {
      NothingToRead(Client([], Between));
      NoneToCheck();
    } else {
      var n := |items| - 1;
      ItemsAreUnderstood(items[..n]);
      OneMoreUnderstood(items[..n], AllItemEvents(items[..n]), items[n]);
      OnePartInit(items);
      assert items == items[..n] + [items[n]];
    }
  }

  lemma NoneToCheck()
    ensures OnePartEach([])
  {
  }

  lemma OneMoreUnderstood(done: seq<OutputItem>, events: seq<Event>, item: OutputItem)
    requires Feed(Client([], Between), events) == if OnePartEach(done) then Some(Client(done, Between)) else None
    ensures Feed(Client([], Between), events + ItemEvents(|done|, item)) ==
      if OnePartEach(done) && OnePart(item) then Some(Client(done + [item], Between)) else None
  {
    hide Feed, ItemEvents, OnePartEach, OnePart;
    FeedAppend(Client([], Between), events, ItemEvents(|done|, item));
    ItemIsUnderstood(done, item);
  }

  lemma HeaderIsUnderstood(events: seq<Event>)
    ensures Feed(NEW_CLIENT, [ResponseCreated, ResponseInProgress] + events) == Feed(Client([], Between), events)
  {
    FeedThree(NEW_CLIENT, ResponseCreated, ResponseInProgress, ResponseCreated);
    FeedAppend(NEW_CLIENT, [ResponseCreated, ResponseInProgress], events);
  }

  /** The replay printer is invertible: a strict client rebuilds the response's items exactly, for
      every list whose messages have one part, and for no other. */
  lemma ReplayIsInvertibleIff(items: seq<OutputItem>)
    ensures Feed(NEW_CLIENT, Replayed(items)) ==
      if OnePartEach(items) then Some(Client(items, Finished)) else None
  {
    hide Feed, AllItemEvents, OnePartEach;
    var last := ResponseCompleted(items, OutputText(items));
    assert Replayed(items) == [ResponseCreated, ResponseInProgress] + (AllItemEvents(items) + [last]);
    HeaderIsUnderstood(AllItemEvents(items) + [last]);
    ItemsAreUnderstood(items);
    FeedMore(Client([], Between), AllItemEvents(items), last);
  }

  /** A stream that ends normally: the client rebuilds the item that is remembered, and its text is
      everything upstream sent. */
  lemma WholeStreamIsUnderstood(itemId: string, up: Upstream)
    requires !up.broke
    ensures Feed(NEW_CLIENT, Streamed(itemId, up)) == Some(Client([MessageItem(itemId, [Join(up.chunks)])], Finished))
  {
    hide Feed, Opening, DeltaEvents, Settling, Join, OutputText;
    var text := Join(up.chunks);
    var item := MessageItem(itemId, [text]);
    var body := Opening(itemId, 0) + DeltaEvents(itemId, 0, up.chunks) + Settling(itemId, 0, text, item);
    var last := ResponseCompleted([item], text);
    assert Streamed(itemId, up) == [ResponseCreated, ResponseInProgress] + (body + [last]);
    HeaderIsUnderstood(body + [last]);
    MessageIsUnderstood([], itemId, up.chunks, item);
    FeedMore(Client([], Between), body, last);
    assert [] + [item] == [item];
    assert OutputText([item]) == text by { TextOfOne(item); }
  }

  lemma TextOfOne(item: OutputItem)
    requires item.MessageItem? && |item.parts| == 1
    ensures OutputText([item]) == item.parts[0]
  {
    JoinOne(item.parts[0]);
    assert OutputText([item]) == OutputText([]) + Join(item.parts);
    assert item.parts == [item.parts[0]];
  }

  /** A stream that breaks: the client is never told it is complete, and holds exactly the text
      received so far in one open item. */
  lemma BrokenStreamStaysOpen(itemId: string, up: Upstream)
    requires up.broke
    ensures Feed(NEW_CLIENT, Streamed(itemId, up)) == Some(Client([],
      if up.chunks == [] then Between else Filling(MessageItem(itemId, [Join(up.chunks)]))))
  {
    hide Feed, Opening, DeltaEvents, Receive;
    if up.chunks == [] {
      HeaderIsUnderstood([]);
      assert Streamed(itemId, up) == [ResponseCreated, ResponseInProgress] + [];
      NothingToRead(Client([], Between));
    } else {
      HeaderIsUnderstood(Opening(itemId, 0) + DeltaEvents(itemId, 0, up.chunks));
      OpeningIsUnderstood([], itemId);
      FillingUp([], itemId, up.chunks);
      FeedAppend(Client([], Between), Opening(itemId, 0), DeltaEvents(itemId, 0, up.chunks));
    }
  }

  lemma NothingToRead(c: Client)
    ensures Feed(c, []) == Some(c)
  {
  }

  // ---------- what every accepted stream has in common ----------

  function DeltaText(events: seq<Event>): string {
    if events == [] then ""
    else
      var last := events[|events| - 1];
      DeltaText(events[..|events| - 1]) + if last.TextDelta? then last.text else ""
  }

  function AddedIndices(events: seq<Event>): seq<nat> {
    if events == [] then []
    else
      var last := events[|events| - 1];
      AddedIndices(events[..|events| - 1]) + if last.ItemAdded? then [last.index] else []
  }

  function DoneIndices(events: seq<Event>): seq<nat> {
    if events == [] then []
    else
      var last := events[|events| - 1];
      DoneIndices(events[..|events| - 1]) + if last.ItemDone? then [last.index] else []
  }

  predicate ItemOpen(p: Phase) {
    p.Opened? || p.Filling? || p.TextSettled? || p.Settled?
  }

  function OpenText(p: Phase): string {
    if ItemOpen(p) && p.item.MessageItem? then Join(p.item.parts) else ""
  }

  function UpTo(n: nat): seq<nat> {
    if n == 0 then [] else UpTo(n - 1) + [n - 1]
  }

  /** A message is opened empty. */
  predicate OpenedEmpty(p: Phase) {
    p.Opened? && p.item.MessageItem? ==> p.item.parts == []
  }

  lemma ReceiveKeepsText(c: Client, e: Event)
    requires Receive(c, e).Some? && OpenedEmpty(c.phase) && !e.ItemDone?
    ensures var d := Receive(c, e).value;
      && OpenedEmpty(d.phase) && d.items == c.items
      && OpenText(d.phase) == OpenText(c.phase) + if e.TextDelta? then e.text else ""
  {
    hide Join, OutputText;
    if e.TextDelta? {
      JoinOne(Join(c.phase.item.parts) + e.text);
    } else if e.PartAdded? {
      JoinOne("");
      JoinNothing();
    } else if e.ItemAdded? {
      JoinNothing();
    }
  }

  lemma ClosingKeepsText(c: Client, e: Event)
    requires Receive(c, e).Some? && e.ItemDone?
    ensures var d := Receive(c, e).value;
      && OpenedEmpty(d.phase) && OpenText(d.phase) == ""
      && OutputText(d.items) == OutputText(c.items) + OpenText(c.phase)
  {
    hide Join;
    var d := Receive(c, e).value;
    assert d.items[..|c.items|] == c.items;
  }

  /** The text the client holds. */
  function Held(c: Client): string {
    OutputText(c.items) + OpenText(c.phase)
  }

  lemma ReceiveAddsDelta(c: Client, e: Event)
    requires Receive(c, e).Some? && OpenedEmpty(c.phase)
    ensures OpenedEmpty(Receive(c, e).value.phase)
    ensures Held(Receive(c, e).value) == Held(c) + if e.TextDelta? then e.text else ""
  {
    hide Receive, OutputText, OpenText;
    if e.ItemDone? {
      ClosingKeepsText(c, e);
    } else {
      ReceiveKeepsText(c, e);
    }
  }

  lemma ReceiveKeepsOrder(c: Client, e: Event)
    requires Receive(c, e).Some?
    ensures var d := Receive(c, e).value;
      && (e.ItemAdded? ==> e.index == |c.items| && !ItemOpen(c.phase) && ItemOpen(d.phase))
      && (e.ItemDone? ==> e.index == |c.items| && ItemOpen(c.phase) && !ItemOpen(d.phase) && |d.items| == |c.items| + 1)
      && (!e.ItemDone? ==> |d.items| == |c.items|)
      && (!e.ItemAdded? && !e.ItemDone? ==> ItemOpen(c.phase) == ItemOpen(d.phase))
  {
    hide Join, OutputText;
  }

  /** Whatever a client accepts opens and closes each item once, in order. */
  lemma {:induction false} AcceptedItemsAreInOrder(events: seq<Event>)
    requires Feed(NEW_CLIENT, events).Some?
    ensures var c := Feed(NEW_CLIENT, events).value;
      && AddedIndices(events) == UpTo(|c.items| + if ItemOpen(c.phase) then 1 else 0)
      && DoneIndices(events) == UpTo(|c.items|)
    decreases |events|
  {
    hide Receive, ItemOpen;
    if events == [] {
      StartsEmpty();
    } else {
      var n := |events| - 1;
      AcceptedItemsAreInOrder(events[..n]);
      ReceiveKeepsOrder(Feed(NEW_CLIENT, events[..n]).value, events[n]);
    }
  }

  lemma StartsEmpty()
    ensures !ItemOpen(NEW_CLIENT.phase) && Held(NEW_CLIENT) == "" && OpenedEmpty(NEW_CLIENT.phase)
  {
  }

  /** And its deltas are exactly the text of what it has rebuilt. */
  lemma {:induction false} DeltasAreTheText(events: seq<Event>)
    requires Feed(NEW_CLIENT, events).Some?
    ensures var c := Feed(NEW_CLIENT, events).value;
      OpenedEmpty(c.phase) && DeltaText(events) == Held(c)
    decreases |events|
  {
    hide Receive, OpenedEmpty, Held;
    if events == [] {
      StartsEmpty();
    } else {
      var n := |events| - 1;
      DeltasAreTheText(events[..n]);
      ReceiveAddsDelta(Feed(NEW_CLIENT, events[..n]).value, events[n]);
    }
  }
}
