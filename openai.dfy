/**
 * The OpenAI adapter's local logic: the one-to-one message conversion and
 * the rule by which `stream` turns completion chunks into text fragments.
 */
module OpenAI {
  import opened Wrappers
  import opened Messages
  import opened Strings

  /** One element of the request's `messages` array: a dict with string keys. */
  type Entry = map<string, string>

  /** The dict built for one message: its role's string value and its text. */
  function ToEntry(m: Message): Entry
  {
    map["role" := RoleValue(RoleOf(m)), "content" := m.content]
  }

  /** `_convert_messages`: one dict per message, by list comprehension. */
  function ConvertMessages(messages: seq<Message>): (entries: seq<Entry>)
    ensures |entries| == |messages|
    ensures forall i :: 0 <= i < |entries| ==> entries[i].Keys == {"role", "content"}
  {
    seq(|messages|, i requires 0 <= i < |messages| => ToEntry(messages[i]))
  }

  /** Reads a dict of the request back: `None` unless it has exactly the keys
      `role` and `content` and the role is a value of the enumeration. */
  function ParseEntry(e: Entry): Option<(Role, string)>
  {
    if e.Keys == {"role", "content"} then
      match RoleFromValue(e["role"])
      case Some(r) => Some((r, e["content"]))
      case None => None
    else None
  }

  /** Reads a whole `messages` array back, failing if any dict fails. */
  function ParseEntries(entries: seq<Entry>): Option<seq<(Role, string)>>
  {
    if entries == [] then Some([])
    else
      match (ParseEntries(entries[..|entries| - 1]), ParseEntry(entries[|entries| - 1]))
      case (Some(front), Some(last)) => Some(front + [last])
      case _ => None
  }

  /** The role and text of each message, in conversation order. */
  function RolesAndContents(messages: seq<Message>): seq<(Role, string)>
  {
    seq(|messages|, i requires 0 <= i < |messages| => (RoleOf(messages[i]), messages[i].content))
  }

  /** Converting and reading back gives every message's role and content, in
      the order of the conversation: nothing is reordered, dropped or
      extracted, system messages included. */
  lemma {:induction false} ConvertRoundTrip(messages: seq<Message>)
    ensures ParseEntries(ConvertMessages(messages)) == Some(RolesAndContents(messages))
    decreases |messages|
  {
    if messages != [] {
      var n := |messages|;
      var front := messages[..n - 1];
      assert ConvertMessages(messages)[..n - 1] == ConvertMessages(front);
      ConvertRoundTrip(front);
      var last := messages[n - 1];
      RoleValues();
      assert ParseEntry(ToEntry(last)) == Some((RoleOf(last), last.content));
      assert RolesAndContents(messages) == RolesAndContents(front) + [(RoleOf(last), last.content)];
    }
  }

  /** A system message stays in the array, in its place, with role `system`. */
  lemma SystemMessagesStayInline(messages: seq<Message>, i: nat)
    requires i < |messages| && messages[i].SystemMessage?
    ensures ConvertMessages(messages)[i] == map["role" := "system", "content" := messages[i].content]
  {
  }

  /** An image message's media type and data are not represented: it is sent
      as the text message with the same role and content. */
  lemma ImageFieldsDropped(r: Role, c: string, mediaType: string, data: string)
    ensures ToEntry(ImageMessage(r, c, mediaType, data)) == ToEntry(PlainMessage(r, c))
  {
  }

  datatype Delta = Delta(content: Option<string>)
  datatype Choice = Choice(delta: Delta)

  /** A completion chunk as the stream delivers it. */
  datatype Chunk = Chunk(choices: seq<Choice>)

  /** What a consumer of `stream` observes: the fragments yielded, in order,
      and whether the generator raised (`choices[0]` of a chunk without
      choices raises `IndexError`). */
  datatype StreamRun = StreamRun(yielded: seq<string>, raised: bool)

  /** The text a chunk carries; `None` and `""` both read as no text. */
  function DeltaText(c: Chunk): string
    requires c.choices != []
  {
    match c.choices[0].delta.content
    case Some(s) => s
    case None => ""
  }

  /** `stream` over a finite sequence of chunks: yields the first choice's
      delta content whenever it is non-empty, and stops with an error at the
      first chunk that has no choices. */
  function DeltaStream(chunks: seq<Chunk>): (run: StreamRun)
    ensures forall k :: 0 <= k < |run.yielded| ==> run.yielded[k] != ""
    ensures |run.yielded| <= |chunks|
  {
    if chunks == [] then StreamRun([], false)
    else if chunks[0].choices == [] then StreamRun([], true)
    else
      var rest := DeltaStream(chunks[1..]);
      if DeltaText(chunks[0]) != "" then StreamRun([DeltaText(chunks[0])] + rest.yielded, rest.raised)
      else rest
  }

  /** Each arriving chunk adds at most its own delta, at the end of what was
      already yielded; after the error nothing more is yielded. */
  lemma {:induction false} ArrivalOrder(chunks: seq<Chunk>, c: Chunk)
    ensures DeltaStream(chunks + [c]) ==
      var before := DeltaStream(chunks);
      if before.raised then before
      else if c.choices == [] then StreamRun(before.yielded, true)
      else if DeltaText(c) != "" then StreamRun(before.yielded + [DeltaText(c)], false)
      else before
    decreases |chunks|
  {
    if chunks != [] {
      assert (chunks + [c])[1..] == chunks[1..] + [c];
      ArrivalOrder(chunks[1..], c);
    }
  }

  /** Texts of the chunks, in arrival order. */
  function DeltaTexts(chunks: seq<Chunk>): seq<string>
    requires forall i :: 0 <= i < |chunks| ==> chunks[i].choices != []
  {
    seq(|chunks|, i requires 0 <= i < |chunks| && chunks[i].choices != [] => DeltaText(chunks[i]))
  }

  /** When every chunk has a choice, the stream completes and the yielded
      fragments join to exactly the text of all deltas: no text is lost,
      duplicated or reordered, and only empty deltas are skipped. */
  lemma {:induction false} StreamKeepsAllText(chunks: seq<Chunk>)
    requires forall i :: 0 <= i < |chunks| ==> chunks[i].choices != []
    ensures !DeltaStream(chunks).raised
    ensures Concat(DeltaStream(chunks).yielded) == Concat(DeltaTexts(chunks))
    decreases |chunks|
  {
    if chunks != [] {
      var rest := chunks[1..];
      StreamKeepsAllText(rest);
      assert DeltaTexts(chunks) == [DeltaText(chunks[0])] + DeltaTexts(rest);
      ConcatAppend([DeltaText(chunks[0])], DeltaTexts(rest));
      ConcatAppend([DeltaText(chunks[0])], DeltaStream(rest).yielded);
      assert Concat([DeltaText(chunks[0])]) == Concat([]) + DeltaText(chunks[0]);
    }
  }

  /** A chunk without choices ends the stream with an error; what was yielded
      before it stands and nothing after it is yielded. */
  lemma {:induction false} ErrorKeepsPrefix(chunks: seq<Chunk>, i: nat)
    requires i < |chunks| && chunks[i].choices == []
    requires forall j :: 0 <= j < i ==> chunks[j].choices != []
    ensures DeltaStream(chunks) == StreamRun(DeltaStream(chunks[..i]).yielded, true)
    decreases i
  {
    if i > 0 {
      assert chunks[..i][1..] == chunks[1..][..i - 1];
      ErrorKeepsPrefix(chunks[1..], i - 1);
    }
  }
}
