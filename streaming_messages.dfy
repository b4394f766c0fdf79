/**
 * The streamed-messages accumulator (examples/streaming-messages/src/main.rs):
 * a conversation, a list of messages each holding a list of content
 * blocks, grows as the events of a message stream arrive.
 *
 * `Extend` and `ExtendAll` say what one event and a whole stream of
 * events do to the list; the class `Conversation` owns the list and
 * updates it in place, one event at a time, as the example's consumer
 * loop does.
 */
module StreamingMessages {
  import opened Wrappers
  import opened Error

  datatype Role = User | Assistant

  /** A content block: text, or a block of another kind, kept opaque. */
  datatype ContentBlock = Text(text: string) | OtherBlock

  datatype Message = Message(role: Role, content: seq<ContentBlock>)

  /** An increment to a content block: text, or an increment of another kind. */
  datatype ContentBlockDelta = TextDelta(text: string) | OtherDelta

  /**
   * One event of a message stream. `Other` stands for every event kind
   * the accumulator ignores.
   */
  datatype MessagesStreamEvent =
    | MessageStart(message: Message)
    | ContentBlockStart(index: nat, contentBlock: ContentBlock)
    | ContentBlockDelta(index: nat, delta: ContentBlockDelta)
    | Other

  /** One item of the stream: an event, or an error delivered in its place. */
  type StreamItem = Result<MessagesStreamEvent, AnthropicError>

  function Last(ms: seq<Message>): Message
    requires ms != []
  {
    ms[|ms| - 1]
  }

  /** `m` with `block` added at the end of its content. */
  function AppendBlock(m: Message, block: ContentBlock): Message
  {
    m.(content := m.content + [block])
  }

  /** `m` with `delta` added at the end of the text of its block `index`. */
  function AppendText(m: Message, index: nat, delta: string): Message
    requires index < |m.content| && m.content[index].Text?
  {
    m.(content := m.content[index := Text(m.content[index].text + delta)])
  }

  /**
   * The accumulator handles `event` without panicking: a block start or
   * a delta needs a last message, and a delta needs that message to
   * have a text block at its index and to be a text delta itself.
   */
  predicate CanExtend(ms: seq<Message>, event: MessagesStreamEvent): (ok: bool)
    // a message start and an ignored event never panic
    ensures event.MessageStart? || event.Other? ==> ok
    // on an empty list, they are the only events that do not panic
    ensures ms == [] ==> (ok <==> event.MessageStart? || event.Other?)
  {
    match event
    case MessageStart(_) => true
    case ContentBlockStart(_, _) => ms != []
    case ContentBlockDelta(i, d) =>
      && ms != []
      && i < |Last(ms).content|
      && Last(ms).content[i].Text?
      && d.TextDelta?
    case Other => true
  }

  /** The message list after one event. */
  function Extend(ms: seq<Message>, event: MessagesStreamEvent): (r: seq<Message>)
    requires CanExtend(ms, event)
    // only a message start adds a message, and it adds exactly one, at the end
    ensures |r| == if event.MessageStart? then |ms| + 1 else |ms|
    ensures event.MessageStart? ==> r[..|ms|] == ms && r[|ms|] == event.message
    // a block start adds the block to the last message and touches nothing else
    ensures event.ContentBlockStart? ==>
              && r[..|ms| - 1] == ms[..|ms| - 1]
              && Last(r).role == Last(ms).role
              && Last(r).content == Last(ms).content + [event.contentBlock]
    // a delta extends the text of one block of the last message and touches nothing else
    ensures event.ContentBlockDelta? ==>
              && r[..|ms| - 1] == ms[..|ms| - 1]
              && Last(r).role == Last(ms).role
              && |Last(r).content| == |Last(ms).content|
              && Last(r).content[event.index]
                 == Text(Last(ms).content[event.index].text + event.delta.text)
              && (forall j :: 0 <= j < |Last(ms).content| && j != event.index ==>
                    Last(r).content[j] == Last(ms).content[j])
    // every other event leaves the list alone
    ensures event.Other? ==> r == ms
  {
    match event
    case MessageStart(m) => ms + [m]
    case ContentBlockStart(_, block) => ms[|ms| - 1 := AppendBlock(Last(ms), block)]
    case ContentBlockDelta(i, d) => ms[|ms| - 1 := AppendText(Last(ms), i, d.text)]
    case Other => ms
  }

  /** The consumer hands a received event to the accumulator and skips an error. */
  predicate CanReceive(ms: seq<Message>, item: StreamItem)
  {
    item.Ok? ==> CanExtend(ms, item.value)
  }

  function Receive(ms: seq<Message>, item: StreamItem): (r: seq<Message>)
    requires CanReceive(ms, item)
    ensures item.Err? ==> r == ms
    ensures item.Ok? ==> r == Extend(ms, item.value)
  {
    match item
    case Ok(event) => Extend(ms, event)
    case Err(_) => ms
  }

  /**
   * The message list after the consumer loop has taken every item of
   * `items` in arrival order, or `None` when some item would make the
   * accumulator panic.
   */
  function ExtendAll(ms: seq<Message>, items: seq<StreamItem>): (r: Option<seq<Message>>)
    // a stream of errors alone leaves the list as it was
    ensures (forall k :: 0 <= k < |items| ==> items[k].Err?) ==> r == Some(ms)
    // the list never shrinks and grows by at most one message per item
    ensures r.Some? ==> |ms| <= |r.value| <= |ms| + |items|
    // the messages before the last one of the starting list are never touched
    ensures r.Some? && ms != [] ==> r.value[..|ms| - 1] == ms[..|ms| - 1]
    decreases |items|
  {
    if items == [] then Some(ms)
    else
      match ExtendAll(ms, items[..|items| - 1])
      case None => None
      case Some(before) =>
        var item := items[|items| - 1];
        if CanReceive(before, item) then Some(Receive(before, item)) else None
  }

  /** The number of message starts among the received events. */
  function StartCount(items: seq<StreamItem>): nat
    decreases |items|
  {
    if items == [] then 0
    else
      var item := items[|items| - 1];
      StartCount(items[..|items| - 1]) + if item.Ok? && item.value.MessageStart? then 1 else 0
  }

  /** The received events alone, in arrival order, without the errors. */
  function Events(items: seq<StreamItem>): (r: seq<StreamItem>)
    ensures forall k :: 0 <= k < |r| ==> r[k].Ok?
    decreases |items|
  {
    if items == [] then []
    else
      var item := items[|items| - 1];
      Events(items[..|items| - 1]) + if item.Ok? then [item] else []
  }

  /** The concatenation of `texts` in order. */
  function Concat(texts: seq<string>): string
    decreases |texts|
  {
    if texts == [] then "" else Concat(texts[..|texts| - 1]) + texts[|texts| - 1]
  }

  /** Taking two streams one after the other is taking their concatenation. */
  lemma {:induction false} ExtendAllAppend(ms: seq<Message>, a: seq<StreamItem>, b: seq<StreamItem>)
    ensures ExtendAll(ms, a + b) ==
              match ExtendAll(ms, a)
              case None => None
              case Some(mid) => ExtendAll(mid, b)
    decreases |b|
  {
    if b == [] {
      assert a + b == a;
    } else {
      var b' := b[..|b| - 1];
      assert (a + b)[..|a + b| - 1] == a + b';
      ExtendAllAppend(ms, a, b');
    }
  }

  /** A stream the loop takes without panicking has every prefix taken without panicking. */
  lemma {:induction false} ExtendAllPrefix(ms: seq<Message>, items: seq<StreamItem>, n: nat)
    requires n <= |items|
    requires ExtendAll(ms, items).Some?
    ensures ExtendAll(ms, items[..n]).Some?
    decreases |items| - n
  {
    if n < |items| {
      var shorter := items[..|items| - 1];
      assert shorter[..n] == items[..n];
      ExtendAllPrefix(ms, shorter, n);
    } else {
      assert items[..n] == items;
    }
  }

  /**
   * Over a whole stream, the list grows by exactly one message per
   * message start and by no more than one message per item.
   */
  lemma {:induction false} ExtendAllMessageCount(ms: seq<Message>, items: seq<StreamItem>)
    requires ExtendAll(ms, items).Some?
    ensures |ExtendAll(ms, items).value| == |ms| + StartCount(items)
    ensures StartCount(items) <= |items|
    decreases |items|
  {
    if items != [] {
      ExtendAllMessageCount(ms, items[..|items| - 1]);
    }
  }

  /** Errors in the stream do not affect the conversation. */
  lemma {:induction false} ExtendAllSkipsErrors(ms: seq<Message>, items: seq<StreamItem>)
    ensures ExtendAll(ms, items) == ExtendAll(ms, Events(items))
    decreases |items|
  {
    if items != [] {
      var init := items[..|items| - 1];
      var item := items[|items| - 1];
      ExtendAllSkipsErrors(ms, init);
      if item.Ok? {
        ExtendAllAppend(ms, Events(init), [item]);
      } else {
        assert Events(items) == Events(init);
      }
    }
  }

  /**
   * Text deltas for one text block of the last message, received in
   * order, leave that block holding its old text followed by the deltas'
   * texts in arrival order; nothing else changes.
   */
  lemma {:induction false} TextDeltasConcatenate(
    ms: seq<Message>, index: nat, text: string, items: seq<StreamItem>, deltas: seq<string>)
    requires ms != [] && index < |Last(ms).content|
    requires Last(ms).content[index] == Text(text)
    requires |items| == |deltas|
    requires forall k :: 0 <= k < |items| ==>
               items[k] == Ok(MessagesStreamEvent.ContentBlockDelta(index, TextDelta(deltas[k])))
    ensures ExtendAll(ms, items) ==
              Some(ms[|ms| - 1 := Last(ms).(content := Last(ms).content[index := Text(text + Concat(deltas))])])
    decreases |items|
  {
    var last := Last(ms);
    if items == [] {
      assert text + Concat(deltas) == text;
      assert last.content[index := Text(text)] == last.content;
      assert ms[|ms| - 1 := last] == ms;
    } else {
      var n := |items| - 1;
      var init, initDeltas := items[..n], deltas[..n];
      TextDeltasConcatenate(ms, index, text, init, initDeltas);
      var before := ms[|ms| - 1 := last.(content := last.content[index := Text(text + Concat(initDeltas))])];
      assert text + Concat(initDeltas) + deltas[n] == text + Concat(deltas);
      var event := MessagesStreamEvent.ContentBlockDelta(index, TextDelta(deltas[n]));
      var after := AppendText(Last(before), index, deltas[n]);
      assert after.content == last.content[index := Text(text + Concat(deltas))];
      assert before[|ms| - 1 := after] == ms[|ms| - 1 := after];
    }
  }

  /** The conversation the example accumulates, updated in place. */
  class Conversation {
    var messages: seq<Message>

    constructor (initial: seq<Message>)
      ensures messages == initial
    {
      messages := initial;
    }

    /** Folds one event into the conversation. */
    method ExtendMessages(event: MessagesStreamEvent)
      requires CanExtend(messages, event)
      modifies this
      ensures messages == Extend(old(messages), event)
    {
      match event {
        case MessageStart(m) =>
          messages := messages + [m];
        case ContentBlockStart(_, block) =>
          var last := messages[|messages| - 1];
          messages := messages[|messages| - 1 := last.(content := last.content + [block])];
        case ContentBlockDelta(i, d) =>
          var last := messages[|messages| - 1];
          var updated := Text(last.content[i].text + d.text);
          messages := messages[|messages| - 1 := last.(content := last.content[i := updated])];
        case Other =>
      }
    }

    /**
     * The consumer loop: each event of the stream, in arrival order, is
     * folded into the conversation; an error item is reported and skipped.
     */
    method Consume(stream: seq<StreamItem>)
      requires ExtendAll(messages, stream).Some?
      modifies this
      ensures Some(messages) == ExtendAll(old(messages), stream)
    {
      var i := 0;
      while i < |stream|
        invariant 0 <= i <= |stream|
        invariant ExtendAll(old(messages), stream[..i]) == Some(messages)
      {
        ExtendAllPrefix(old(messages), stream, i + 1);
        assert stream[..i + 1][..i] == stream[..i];
        match stream[i] {
          case Ok(event) =>
            ExtendMessages(event);
          case Err(_) =>
        }
        i := i + 1;
      }
      assert stream[..i] == stream;
    }
  }
}
