/**
 * The Gemini adapter's local logic: system messages re-sent as marked user
 * turns, every other role collapsed to `user` or `model`, images as inline
 * data parts, the renaming of generation parameters, the JSON response type
 * forced for structured output, and the filter applied to streamed chunks.
 */
module Gemini {
  import opened Wrappers
  import opened Messages
  import opened Strings

  /** The visible marker put in front of a system message's text. */
  const SystemPrefix := "[System Instructions] "

  /** A `Part`: either text or inline binary data. */
  datatype Part = TextPart(text: string) | InlineDataPart(mimeType: string, data: string)

  /** A `Content`: one turn of the request. */
  datatype Content = Content(role: string, parts: seq<Part>)

  /** The Gemini role of a turn: the role's value compared with the string
      `user`, everything else being the model. */
  function Speaker(r: Role): (s: string)
    ensures s == "user" <==> r == User
    ensures s == "user" || s == "model"
  {
    if RoleValue(r) == "user" then "user" else "model"
  }

  /** The turn built for one message. */
  function ConvertMessage(m: Message): (c: Content)
    ensures c.role == "user" || c.role == "model"
    ensures 1 <= |c.parts| <= 2
  {
    if m.SystemMessage? then
      Content("user", [TextPart(SystemPrefix + m.content)])
    else if m.ImageMessage? then
      Content(Speaker(m.role),
        (if m.content != "" then [TextPart(m.content)] else []) + [InlineDataPart(m.mediaType, m.base64Data)])
    else
      Content(Speaker(RoleOf(m)), [TextPart(m.content)])
  }

  /** `_convert_messages`: one pass that appends one turn per message,
      building an image message's parts one by one. */
  method ConvertMessages(messages: seq<Message>) returns (converted: seq<Content>)
    ensures |converted| == |messages|
    ensures forall i :: 0 <= i < |messages| ==> converted[i] == ConvertMessage(messages[i])
  {
    converted := [];
    for i := 0 to |messages|
      invariant |converted| == i
      invariant forall k :: 0 <= k < i ==> converted[k] == ConvertMessage(messages[k])
    {
      var msg := messages[i];
      if msg.SystemMessage? {
        converted := converted + [Content("user", [TextPart(SystemPrefix + msg.content)])];
        continue;
      }
      if msg.ImageMessage? {
        var parts: seq<Part> := [];
        if msg.content != "" {
          parts := parts + [TextPart(msg.content)];
        }
        parts := parts + [InlineDataPart(msg.mediaType, msg.base64Data)];
        var role := if RoleValue(msg.role) == "user" then "user" else "model";
        converted := converted + [Content(role, parts)];
        continue;
      }
      var role := if RoleValue(RoleOf(msg)) == "user" then "user" else "model";
      converted := converted + [Content(role, [TextPart(msg.content)])];
    }
  }

  /** A system message becomes a user turn with one text part: the literal
      marker followed by the message's content. */
  lemma SystemBecomesMarkedUserTurn(c: string)
    ensures ConvertMessage(SystemMessage(c)).role == "user"
    ensures |ConvertMessage(SystemMessage(c)).parts| == 1
    ensures var t := ConvertMessage(SystemMessage(c)).parts[0];
      t.TextPart? && |t.text| == 22 + |c|
      && t.text[..22] == "[System Instructions] " && t.text[22..] == c
  {
  }

  /** Outside system messages, a turn has role `user` exactly when the message
      has the user role; assistant and system roles become `model`. */
  lemma RoleMapping(m: Message)
    requires !m.SystemMessage?
    ensures ConvertMessage(m).role == (if RoleOf(m) == User then "user" else "model")
  {
  }

  /** An image message's turn ends with the inline data, media type and data
      unchanged, and has a leading text part only when its text is non-empty. */
  lemma ImageMessageParts(m: Message)
    requires m.ImageMessage?
    ensures var ps := ConvertMessage(m).parts;
      && ps[|ps| - 1] == InlineDataPart(m.mediaType, m.base64Data)
      && (|ps| == 2 <==> m.content != "")
      && (|ps| == 2 ==> ps[0] == TextPart(m.content))
  {
  }

  /** Any other message gives one text part holding its content, even an
      empty one. */
  lemma TextMessageSinglePart(m: Message)
    requires !m.SystemMessage? && !m.ImageMessage?
    ensures ConvertMessage(m).parts == [TextPart(m.content)]
  {
  }

  /** What can be read back from a turn: its role, its text and its
      attachment. */
  datatype Reading = Reading(speaker: string, text: string, image: Option<Image>)

  /** Reads a turn back; `None` for a part layout the conversion never
      produces. */
  function Recover(c: Content): Option<Reading>
  {
    if |c.parts| == 1 && c.parts[0].TextPart? then
      Some(Reading(c.role, c.parts[0].text, None))
    else if |c.parts| == 1 && c.parts[0].InlineDataPart? then
      Some(Reading(c.role, "", Some(Image(c.parts[0].mimeType, c.parts[0].data))))
    else if |c.parts| == 2 && c.parts[0].TextPart? && c.parts[0].text != "" && c.parts[1].InlineDataPart? then
      Some(Reading(c.role, c.parts[0].text, Some(Image(c.parts[1].mimeType, c.parts[1].data))))
    else None
  }

  /** Text and attachment survive the conversion unchanged; only the role is
      collapsed to `user`/`model`, and a system message's text gains the
      marker. */
  lemma ConversionLosesOnlyRoles(m: Message)
    ensures Recover(ConvertMessage(m)) == Some(Reading(
      if m.SystemMessage? then "user" else Speaker(RoleOf(m)),
      if m.SystemMessage? then SystemPrefix + m.content else m.content,
      TurnOf(m).image))
  {
  }

  /** The marker shim is not a system prompt: a system message and a user
      message that spells out the marker produce the same turn. */
  lemma SystemShimMatchesMarkedUserText(c: string)
    ensures ConvertMessage(SystemMessage(c)) == ConvertMessage(UserMessage(SystemPrefix + c))
  {
  }

  /** A value of the merged parameters. Numbers, stop lists and schema
      classes are passed on without being read, so only strings are told
      apart. */
  datatype Value = Str(s: string) | Opaque(token: int)

  /** The keyword arguments of `GenerateContentConfig` for the merged
      parameters: the renamed keys first, then every key left over. */
  function GenerationConfig(params: map<string, Value>): map<string, Value>
  {
    var renamed :=
      (if "max_tokens" in params then map["max_output_tokens" := params["max_tokens"]] else map[])
      + (if "stop" in params then map["stop_sequences" := params["stop"]] else map[]);
    renamed + (params - {"max_tokens", "stop"})
  }

  /** `max_tokens` and `stop` are renamed to `max_output_tokens` and
      `stop_sequences` and removed; every other key, `temperature` and
      `top_p` among them, is copied unchanged; a passthrough key that
      collides with a renamed one wins, since it is copied last. */
  lemma ConfigRenamesKeys(params: map<string, Value>)
    ensures var config := GenerationConfig(params);
      && "max_tokens" !in config && "stop" !in config
      && ("max_output_tokens" in config <==> "max_tokens" in params || "max_output_tokens" in params)
      && ("stop_sequences" in config <==> "stop" in params || "stop_sequences" in params)
      && ("max_output_tokens" in config ==>
            config["max_output_tokens"] == if "max_output_tokens" in params then params["max_output_tokens"] else params["max_tokens"])
      && ("stop_sequences" in config ==>
            config["stop_sequences"] == if "stop_sequences" in params then params["stop_sequences"] else params["stop"])
      && (forall k :: k in params && k != "max_tokens" && k != "stop" ==> k in config && config[k] == params[k])
      && (forall k :: k in config ==> k in params || k == "max_output_tokens" || k == "stop_sequences")
  {
  }

  /** A known parameter `src` has been moved: the config holds its value
      under `tgt` exactly when the merged parameters had it. */
  ghost predicate MovedTo(merged: map<string, Value>, config: map<string, Value>, src: string, tgt: string)
  {
    && (tgt in config <==> src in merged)
    && (tgt in config ==> config[tgt] == merged[src])
  }

  /** The state of `_build_generation_config` after its four lookups: the
      known keys popped from the parameters and moved into the config. */
  ghost predicate AllMoved(merged: map<string, Value>, params: map<string, Value>, config: map<string, Value>)
  {
    && params == merged - {"max_tokens", "temperature", "top_p", "stop"}
    && config.Keys <= {"max_output_tokens", "temperature", "top_p", "stop_sequences"}
    && MovedTo(merged, config, "max_tokens", "max_output_tokens")
    && MovedTo(merged, config, "temperature", "temperature")
    && MovedTo(merged, config, "top_p", "top_p")
    && MovedTo(merged, config, "stop", "stop_sequences")
  }

  /** Updating a config in that state with the remaining parameters gives
      `GenerationConfig`. */
  lemma MovedKeysGiveConfig(merged: map<string, Value>, params: map<string, Value>, config: map<string, Value>)
    requires AllMoved(merged, params, config)
    ensures config + params == GenerationConfig(merged)
  {
  }

  /** `_build_generation_config` on the merged parameters: moves the four
      known keys into the config one by one, popping them from the
      parameters, then updates the config with what is left. */
  method BuildGenerationConfig(merged: map<string, Value>) returns (config: map<string, Value>)
    ensures config == GenerationConfig(merged)
  {
    var params := merged;
    config := map[];
    if "max_tokens" in params {
      config := config["max_output_tokens" := params["max_tokens"]];
      params := params - {"max_tokens"};
    }
    if "temperature" in params {
      config := config["temperature" := params["temperature"]];
      params := params - {"temperature"};
    }
    if "top_p" in params {
      config := config["top_p" := params["top_p"]];
      params := params - {"top_p"};
    }
    if "stop" in params {
      config := config["stop_sequences" := params["stop"]];
      params := params - {"stop"};
    }
    assert AllMoved(merged, params, config);
    MovedKeysGiveConfig(merged, params, config);
    config := config + params;
  }

  /** The parameters a config was built from, when no passthrough key
      collided with a renamed one. */
  function OriginalParams(config: map<string, Value>): map<string, Value>
  {
    (config - {"max_output_tokens", "stop_sequences"})
    + (if "max_output_tokens" in config then map["max_tokens" := config["max_output_tokens"]] else map[])
    + (if "stop_sequences" in config then map["stop" := config["stop_sequences"]] else map[])
  }

  /** Without a colliding passthrough key the renaming loses nothing: the
      merged parameters are read back from the config. */
  lemma RenamingIsInvertible(params: map<string, Value>)
    requires "max_output_tokens" !in params && "stop_sequences" !in params
    ensures OriginalParams(GenerationConfig(params)) == params
  {
  }

  /** `invoke_structured` forces a JSON response with the model's schema,
      over whatever the parameters said. */
  function StructuredConfig(config: map<string, Value>, schema: Value): (c: map<string, Value>)
    ensures c.Keys == config.Keys + {"response_mime_type", "response_schema"}
    ensures c["response_mime_type"] == Str("application/json") && c["response_schema"] == schema
    ensures forall k :: k in config && k != "response_mime_type" && k != "response_schema" ==> c[k] == config[k]
  {
    config["response_mime_type" := Str("application/json")]["response_schema" := schema]
  }

  /** `chunk.text` read as a string; a chunk without text reads as `""`. */
  function TextOrEmpty(t: Option<string>): string
  {
    if t.Some? then t.value else ""
  }

  /** What `stream` yields for chunks whose `text` arrives in the given
      order: each text that is present and non-empty. */
  function NonEmptyTexts(texts: seq<Option<string>>): (yielded: seq<string>)
    ensures forall k :: 0 <= k < |yielded| ==> yielded[k] != ""
    ensures |yielded| == CountNonEmpty(texts)
  {
    if texts == [] then []
    else
      var last := TextOrEmpty(texts[|texts| - 1]);
      NonEmptyTexts(texts[..|texts| - 1]) + (if last != "" then [last] else [])
  }

  /** The filtering loop of `stream`. */
  method StreamTexts(texts: seq<Option<string>>) returns (yielded: seq<string>)
    ensures yielded == NonEmptyTexts(texts)
  {
    yielded := [];
    for i := 0 to |texts|
      invariant yielded == NonEmptyTexts(texts[..i])
    {
      assert texts[..i + 1][..i] == texts[..i];
      var text := texts[i];
      if text.Some? && text.value != "" {
        yielded := yielded + [text.value];
      }
    }
    assert texts[..|texts|] == texts;
  }

  /** How many chunks carry a non-empty text. */
  function CountNonEmpty(texts: seq<Option<string>>): (n: nat)
    ensures n <= |texts|
  {
    if texts == [] then 0
    else CountNonEmpty(texts[..|texts| - 1]) + (if TextOrEmpty(texts[|texts| - 1]) != "" then 1 else 0)
  }

  /** Exactly the non-empty texts are yielded, each once, in arrival order:
      the i-th chunk's text is yielded right after the texts of the chunks
      before it. */
  lemma {:induction false} YieldedInArrivalOrder(texts: seq<Option<string>>, i: nat)
    requires i < |texts| && TextOrEmpty(texts[i]) != ""
    ensures CountNonEmpty(texts[..i]) < |NonEmptyTexts(texts)|
    ensures NonEmptyTexts(texts)[CountNonEmpty(texts[..i])] == TextOrEmpty(texts[i])
    decreases |texts|
  {
    var n := |texts|;
    var front := texts[..n - 1];
    if i < n - 1 {
      assert front[..i] == texts[..i];
      YieldedInArrivalOrder(front, i);
    } else {
      assert texts[..i] == front;
    }
  }

  /** The text of every chunk, in arrival order, with a missing text read
      as `""`. */
  function ChunkTexts(texts: seq<Option<string>>): (all: seq<string>)
    ensures |all| == |texts|
  {
    if texts == [] then []
    else ChunkTexts(texts[..|texts| - 1]) + [TextOrEmpty(texts[|texts| - 1])]
  }

  /** The yielded fragments join to the text of all chunks: only empty or
      missing texts are skipped and no text is lost. */
  lemma {:induction false} StreamKeepsAllText(texts: seq<Option<string>>)
    ensures Concat(NonEmptyTexts(texts)) == Concat(ChunkTexts(texts))
    decreases |texts|
  {
    if texts != [] {
      var front := texts[..|texts| - 1];
      var last := TextOrEmpty(texts[|texts| - 1]);
      StreamKeepsAllText(front);
      var all := ChunkTexts(front) + [last];
      assert all[..|all| - 1] == ChunkTexts(front);
      assert Concat(ChunkTexts(texts)) == Concat(ChunkTexts(front)) + last;
      if last == "" {
        assert NonEmptyTexts(texts) == NonEmptyTexts(front);
        assert Concat(NonEmptyTexts(texts)) == Concat(NonEmptyTexts(front));
        assert Concat(NonEmptyTexts(front)) == Concat(ChunkTexts(front));
        assert Concat(ChunkTexts(front)) + last == Concat(ChunkTexts(front));
      } else {
        var ys := NonEmptyTexts(front) + [last];
        assert ys[..|ys| - 1] == NonEmptyTexts(front);
      }
    }
  }
}
