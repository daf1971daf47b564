/**
 * The Anthropic adapter's local logic: pulling the system prompt out of the
 * conversation, encoding image messages as content blocks, the single forced
 * tool that carries structured output, and the choice of the `tool_use`
 * block in the reply.
 */
module Anthropic {
  import opened Wrappers
  import opened Messages

  /** The source type of every image block. */
  const Base64 := "base64"

  datatype ImageSource = ImageSource(sourceType: string, mediaType: string, data: string)

  /** One element of a content list: `{"type": "text", ...}` or `{"type": "image", ...}`. */
  datatype Block = TextBlock(text: string) | ImageBlock(source: ImageSource)

  /** The value under an entry's `content` key: a string, or a list of blocks. */
  datatype Body = Text(text: string) | Blocks(blocks: seq<Block>)

  /** One element of the request's `messages` array: `{"role": ..., "content": ...}`. */
  datatype Entry = Entry(role: Role, content: Body)

  /** The content list built for an image message: a text block when the
      message has text, then always the image block, last. */
  function ImageBlocks(m: Message): (blocks: seq<Block>)
    requires m.ImageMessage?
    ensures |blocks| == if m.content == "" then 1 else 2
    ensures blocks[|blocks| - 1] == ImageBlock(ImageSource(Base64, m.mediaType, m.base64Data))
    ensures |blocks| == 2 ==> blocks[0] == TextBlock(m.content)
  {
    (if m.content != "" then [TextBlock(m.content)] else [])
      + [ImageBlock(ImageSource(Base64, m.mediaType, m.base64Data))]
  }

  /** The entry built for a message that is not a `SystemMessage`. */
  function ConvertEntry(m: Message): Entry
    requires !m.SystemMessage?
  {
    if m.ImageMessage? then Entry(m.role, Blocks(ImageBlocks(m)))
    else Entry(RoleOf(m), Text(m.content))
  }

  /** The system prompt of a conversation: the content of the last
      `SystemMessage`, each one overwriting the one before, or `""`. */
  function SystemOf(messages: seq<Message>): string
  {
    if messages == [] then ""
    else if messages[|messages| - 1].SystemMessage? then messages[|messages| - 1].content
    else SystemOf(messages[..|messages| - 1])
  }

  /** How many messages are not instances of `SystemMessage`. */
  function CountNonSystem(messages: seq<Message>): (n: nat)
    ensures n <= |messages|
  {
    if messages == [] then 0
    else
      var last := messages[|messages| - 1];
      CountNonSystem(messages[..|messages| - 1]) + (if last.SystemMessage? then 0 else 1)
  }

  /** The `messages` array: the entries of the non-system messages, appended
      one by one in conversation order. */
  function Converted(messages: seq<Message>): (entries: seq<Entry>)
    ensures |entries| == CountNonSystem(messages)
  {
    if messages == [] then []
    else
      var last := messages[|messages| - 1];
      Converted(messages[..|messages| - 1]) + (if last.SystemMessage? then [] else [ConvertEntry(last)])
  }

  /** `_convert_messages`: one pass over the conversation that overwrites the
      system text at each `SystemMessage` and appends an entry for every
      other message. */
  method ConvertMessages(messages: seq<Message>) returns (system: string, converted: seq<Entry>)
    ensures system == SystemOf(messages)
    ensures converted == Converted(messages)
  {
    system := "";
    converted := [];
    for i := 0 to |messages|
      invariant system == SystemOf(messages[..i])
      invariant converted == Converted(messages[..i])
    {
      var msg := messages[i];
      assert messages[..i + 1][..i] == messages[..i];
      if msg.SystemMessage? {
        system := msg.content;
        assert Converted(messages[..i + 1]) == Converted(messages[..i]) + [];
        continue;
      }
      if msg.ImageMessage? {
        var content: seq<Block> := [];
        if msg.content != "" {
          content := content + [TextBlock(msg.content)];
        }
        content := content + [ImageBlock(ImageSource(Base64, msg.mediaType, msg.base64Data))];
        assert content == ImageBlocks(msg);
        converted := converted + [Entry(msg.role, Blocks(content))];
        continue;
      }
      converted := converted + [Entry(RoleOf(msg), Text(msg.content))];
    }
    assert messages[..|messages|] == messages;
  }

  /** The returned system text is the content of the last `SystemMessage`. */
  lemma {:induction false} LastSystemMessageWins(messages: seq<Message>, i: nat)
    requires i < |messages| && messages[i].SystemMessage?
    requires forall j :: i < j < |messages| ==> !messages[j].SystemMessage?
    ensures SystemOf(messages) == messages[i].content
    decreases |messages|
  {
    if i < |messages| - 1 {
      LastSystemMessageWins(messages[..|messages| - 1], i);
    }
  }

  /** Without any `SystemMessage` the returned system text is empty. */
  lemma {:induction false} NoSystemMessageNoSystemText(messages: seq<Message>)
    requires forall j :: 0 <= j < |messages| ==> !messages[j].SystemMessage?
    ensures SystemOf(messages) == ""
    decreases |messages|
  {
    if messages != [] {
      NoSystemMessageNoSystemText(messages[..|messages| - 1]);
    }
  }

  /** Every message that is not a `SystemMessage` has its entry in the array,
      at the position given by the number of such messages before it. */
  lemma {:induction false} EntryOfMessage(messages: seq<Message>, i: nat)
    requires i < |messages| && !messages[i].SystemMessage?
    ensures CountNonSystem(messages[..i]) < |Converted(messages)|
    ensures Converted(messages)[CountNonSystem(messages[..i])] == ConvertEntry(messages[i])
    decreases |messages|
  {
    var n := |messages|;
    var front := messages[..n - 1];
    if i < n - 1 {
      assert front[..i] == messages[..i];
      EntryOfMessage(front, i);
    } else {
      assert messages[..i] == front;
    }
  }

  /** Entries keep the conversation order: of two non-system messages the
      earlier one has the smaller position. */
  lemma {:induction false} EntriesInConversationOrder(messages: seq<Message>, i: nat, j: nat)
    requires i < j <= |messages| && !messages[i].SystemMessage?
    ensures CountNonSystem(messages[..i]) < CountNonSystem(messages[..j])
    decreases j
  {
    var prefix := messages[..j];
    assert prefix[..j - 1] == messages[..j - 1];
    if i < j - 1 {
      EntriesInConversationOrder(messages, i, j - 1);
    } else {
      assert messages[..i] == prefix[..j - 1];
    }
  }

  /** When every message carrying the system role is a `SystemMessage`, no
      entry of the array has the system role. */
  lemma {:induction false} NoResidualSystemRole(messages: seq<Message>)
    requires forall j :: 0 <= j < |messages| ==> messages[j].SystemMessage? || RoleOf(messages[j]) != System
    ensures forall k :: 0 <= k < |Converted(messages)| ==> Converted(messages)[k].role != System
    decreases |messages|
  {
    if messages != [] {
      NoResidualSystemRole(messages[..|messages| - 1]);
    }
  }

  /** Only the class is tested: a base `Message` with the system role is sent
      inside the array with that role. */
  lemma PlainSystemRoleStaysInArray(c: string)
    ensures SystemOf([PlainMessage(System, c)]) == ""
    ensures Converted([PlainMessage(System, c)]) == [Entry(System, Text(c))]
  {
  }

  /** Reads an entry back into role, text and attachment; `None` for a shape
      the conversion never produces. */
  function DecodeEntry(e: Entry): Option<Turn>
  {
    match e.content
    case Text(c) => Some(Turn(e.role, c, None))
    case Blocks(bs) =>
      if |bs| == 1 && bs[0].ImageBlock? && bs[0].source.sourceType == Base64 then
        Some(Turn(e.role, "", Some(Image(bs[0].source.mediaType, bs[0].source.data))))
      else if |bs| == 2 && bs[0].TextBlock? && bs[0].text != ""
              && bs[1].ImageBlock? && bs[1].source.sourceType == Base64 then
        Some(Turn(e.role, bs[0].text, Some(Image(bs[1].source.mediaType, bs[1].source.data))))
      else None
  }

  /** The entry of a message loses nothing: role, text, media type and data
      are all read back from it. */
  lemma EntryRoundTrip(m: Message)
    requires !m.SystemMessage?
    ensures DecodeEntry(ConvertEntry(m)) == Some(TurnOf(m))
  {
  }

  /** The one tool offered for structured output. */
  datatype Tool<S> = Tool(name: string, description: string, inputSchema: S)

  /** `tool_choice`: `{"type": "tool", "name": ...}`. */
  datatype ToolChoice = ToolChoice(choiceType: string, name: string)

  datatype StructuredRequest<S> = StructuredRequest(tools: seq<Tool<S>>, toolChoice: ToolChoice)

  /** The tool list and tool choice sent by `invoke_structured`, for the JSON
      schema of the response model. */
  function StructuredOutputRequest<S>(schema: S): (r: StructuredRequest<S>)
    ensures |r.tools| == 1
    ensures r.tools[0].name == "output" && r.tools[0].inputSchema == schema
    ensures r.toolChoice.choiceType == "tool"
    ensures forall t :: t in r.tools ==> t.name == r.toolChoice.name
  {
    StructuredRequest([Tool("output", "Output structured data", schema)], ToolChoice("tool", "output"))
  }

  /** A block of the reply's `content`: its `type` and, for a `tool_use`
      block, the `input` the tool was called with. */
  datatype ResponseBlock<J> = ResponseBlock(blockType: string, input: J)

  /** The error raised when the search for a `tool_use` block runs out of
      blocks. Inside the `invoke_structured` coroutine it reaches the caller
      as a `RuntimeError`. */
  datatype SelectError = StopIteration

  predicate IsFirstToolUse<J>(blocks: seq<ResponseBlock<J>>, i: int)
  {
    0 <= i < |blocks| && blocks[i].blockType == "tool_use"
    && forall j :: 0 <= j < i ==> blocks[j].blockType != "tool_use"
  }

  /** The structured result's source: the input of the first `tool_use`
      block, or `StopIteration` when the reply has none. */
  method SelectToolUse<J>(blocks: seq<ResponseBlock<J>>) returns (r: Result<J, SelectError>)
    ensures r.Err? <==> forall i :: 0 <= i < |blocks| ==> blocks[i].blockType != "tool_use"
    ensures r.Ok? ==> exists i :: IsFirstToolUse(blocks, i) && r.value == blocks[i].input
  {
    for i := 0 to |blocks|
      invariant forall j :: 0 <= j < i ==> blocks[j].blockType != "tool_use"
    {
      if blocks[i].blockType == "tool_use" {
        assert IsFirstToolUse(blocks, i);
        return Ok(blocks[i].input);
      }
    }
    return Err(StopIteration);
  }
}
