# llmify message translation, modelled in Dafny

llmify puts one interface (`invoke`, `invoke_structured`, `stream`) in front of
several LLM vendor SDKs. Callers write a vendor-neutral conversation: a list of
`Message` values, each with a role (`system`, `user` or `assistant`) and text.
An `ImageMessage` also carries a media type and base64 data. Each provider
adapter turns that conversation into its vendor's request shape. This project
models those translations and the small rules around them, and proves what
they promise.

- `wrappers.dfy`: `Wrappers` holds `Option` and `Result`, and `Strings`
  holds the joining of streamed fragments.
- `messages.dfy`: `Messages` holds the role enumeration and its string values. It also holds
  `Message` as a datatype with one variant per Python class (`PlainMessage` is
  the base dataclass built directly with a role). The adapters test the class
  (`isinstance`), so they branch on the variant, as the source does.
- `openai.dfy`: `OpenAI` holds the one-to-one conversion to `{role, content}`
  dicts and the stream rule (yield each non-empty delta). The source writes
  both as pure expressions, so they are functions here.
- `anthropic.dfy`: `Anthropic` holds the loop that pulls out the system prompt
  (the last `SystemMessage` wins) and converts the other messages. It also holds
  the image content-block list, the single forced `output` tool, and the choice
  of the first `tool_use` block in the reply. The loops are methods, proved
  against specification functions.
- `gemini.dfy`: `Gemini` holds the loop that turns system messages into user
  turns with a visible marker and maps every non-user role to `model`. It also
  holds image parts, the renaming of generation parameters, the forced JSON
  response type, and the chunk filter of `stream`.

Notes on how the model reads the code:

- `ImageMessage` is not defined in `llmify/messages.py`. Its fields (`role`,
  `content`, `media_type`, `base64_data`) are read off its uses in the two
  adapters. The Gemini adapter sends `media_type.value` and the Anthropic
  adapter sends `media_type` itself. The model takes the media type to be its
  string value in both.
- Python dataclass equality compares the class before the fields. So two
  messages are equal exactly when they have the same class and equal fields
  (`DataclassEquality`, `DifferentClassesDiffer`).
- The Anthropic adapter removes only `SystemMessage` instances
  (llmify/providers/antrophic.py:68). A base `Message` or an `ImageMessage`
  with the system role stays in the array with that role.
  `NoResidualSystemRole` needs every system-role message to be a
  `SystemMessage`, and `PlainSystemRoleStaysInArray` shows the other case.
- The Gemini adapter maps every role other than `user` to `model`
  (llmify/providers/gemini.py:76 and :80), so a base `Message` with the
  system role also becomes `model` (`RoleMapping`).
- In the OpenAI stream, a chunk whose `choices` list is empty makes
  `choices[0]` raise `IndexError` (llmify/providers/openai.py:43). The model
  records this as `StreamRun.raised`.
- `invoke_structured` in the Anthropic adapter is a coroutine. The
  `StopIteration` that `next(...)` raises when the reply has no `tool_use`
  block (llmify/providers/antrophic.py:117) therefore reaches its caller as a
  `RuntimeError`. `SelectToolUse` models the search and names its failure
  `StopIteration`.

## Model

| member | source | states |
|---|---|---|
| `Messages.RoleValues` | llmify/messages.py:4-7 | the role enumeration has exactly three members with the distinct values `system`, `user`, `assistant`, and each member is found again from its value |
| `Messages.RoleFromValue` | llmify/messages.py:4-7 | a value lookup returns a member whose value is the string looked up, and returns nothing for a string that is no member's value |
| `Messages.RoleFixingConstructors` | llmify/messages.py:15-25 | `SystemMessage(c)`, `UserMessage(c)` and `AssistantMessage(c)` have roles system, user and assistant and keep `c` as content |
| `Messages.DataclassEquality` | llmify/messages.py:10-13 | two text messages of the same class are equal if and only if their roles and contents are equal |
| `Messages.DifferentClassesDiffer` | llmify/messages.py:10-13 | messages of different classes are never equal |
| `OpenAI.ConvertMessages` | llmify/providers/openai.py:21-22 | the converted list has one entry per message, and each entry has exactly the keys `role` and `content` |
| `OpenAI.ConvertRoundTrip` | llmify/providers/openai.py:22 | reading the converted list back gives every message's role and content in conversation order, system messages included |
| `OpenAI.SystemMessagesStayInline` | llmify/providers/openai.py:22 | a system message stays at its own index with role `system` and its content |
| `OpenAI.ImageFieldsDropped` | llmify/providers/openai.py:22 | an image message converts to the same entry as a text message with its role and content; media type and data are not sent |
| `OpenAI.DeltaStream` | llmify/providers/openai.py:42-44 | every yielded fragment is non-empty, and there are no more fragments than chunks |
| `OpenAI.ArrivalOrder` | llmify/providers/openai.py:42-44 | each arriving chunk appends at most its own delta at the end; a chunk without choices ends the stream with an error; nothing is yielded after the error |
| `OpenAI.StreamKeepsAllText` | llmify/providers/openai.py:42-44 | when every chunk has a choice, the stream completes and its fragments join to exactly the text of all deltas |
| `OpenAI.ErrorKeepsPrefix` | llmify/providers/openai.py:42-44 | at the first chunk without choices, the stream raises and keeps what was yielded before that chunk |
| `Anthropic.ImageBlocks` | llmify/providers/antrophic.py:72-83 | an image message's content list has two blocks if its text is non-empty and one otherwise; the text block comes first; the image block is last and carries source type `base64`, the media type and the data unchanged |
| `Anthropic.Converted` | llmify/providers/antrophic.py:65-87 | the converted list has exactly as many entries as there are messages that are not `SystemMessage` instances |
| `Anthropic.ConvertMessages` | llmify/providers/antrophic.py:63-89 | the loop returns the system text `SystemOf` and the entry list `Converted` of the conversation |
| `Anthropic.LastSystemMessageWins` | llmify/providers/antrophic.py:64-70 | the returned system text is the content of the last `SystemMessage` |
| `Anthropic.NoSystemMessageNoSystemText` | llmify/providers/antrophic.py:64-70 | without any `SystemMessage`, the returned system text is `""` |
| `Anthropic.EntryOfMessage` | llmify/providers/antrophic.py:65-87 | every message that is not a `SystemMessage` has its entry in the list, at the index given by the number of such messages before it |
| `Anthropic.EntriesInConversationOrder` | llmify/providers/antrophic.py:65-87 | of two non-system messages, the earlier one's entry has the smaller index |
| `Anthropic.NoResidualSystemRole` | llmify/providers/antrophic.py:67-87 | if every system-role message is a `SystemMessage`, no entry in the list has the system role |
| `Anthropic.PlainSystemRoleStaysInArray` | llmify/providers/antrophic.py:67-87 | a base `Message` with the system role is not extracted: it stays in the list with role system, and the system text stays `""` |
| `Anthropic.EntryRoundTrip` | llmify/providers/antrophic.py:72-87 | a plain entry keeps role and content unchanged; role, text, media type and data are all read back from a message's entry |
| `Anthropic.StructuredOutputRequest` | llmify/providers/antrophic.py:102-113 | exactly one tool is offered, named `output` and carrying the schema; `tool_choice` has type `tool` and names that same tool |
| `Anthropic.SelectToolUse` | llmify/providers/antrophic.py:117 | the result is the input of the first `tool_use` block; the search fails (`StopIteration`, seen by the caller of the coroutine as `RuntimeError`) if and only if there is no such block |
| `Gemini.Speaker` | llmify/providers/gemini.py:80 | the role string is `user` if and only if the message role is user; otherwise it is `model` |
| `Gemini.ConvertMessage` | llmify/providers/gemini.py:57-84 | each turn has role `user` or `model` and one or two parts |
| `Gemini.ConvertMessages` | llmify/providers/gemini.py:55-86 | the loop emits exactly one turn per message, in input order, each equal to that message's `ConvertMessage` |
| `Gemini.SystemBecomesMarkedUserTurn` | llmify/providers/gemini.py:58-63 | a `SystemMessage` with content `c` becomes a `user` turn with one text part: the 22 characters `[System Instructions] ` followed by `c` |
| `Gemini.RoleMapping` | llmify/providers/gemini.py:76-80 | outside system messages, the user role gives `user` and every other role gives `model` |
| `Gemini.ImageMessageParts` | llmify/providers/gemini.py:66-77 | an image turn ends with an inline_data part whose mime type and data are unchanged; a leading text part holding the content is there if and only if the content is non-empty |
| `Gemini.TextMessageSinglePart` | llmify/providers/gemini.py:80-84 | any other message gives exactly one text part equal to its content, even when the content is empty |
| `Gemini.ConversionLosesOnlyRoles` | llmify/providers/gemini.py:55-86 | text and attachment are read back unchanged from every turn; only the role collapses to `user`/`model`, and system text gains the marker |
| `Gemini.SystemShimMatchesMarkedUserText` | llmify/providers/gemini.py:58-63 | a system message and a user message that spells out the marker produce the same turn |
| `Gemini.ConfigRenamesKeys` | llmify/providers/gemini.py:138-148 | `max_tokens` and `stop` become `max_output_tokens` and `stop_sequences` and are removed; other keys (`temperature` and `top_p` among them) are copied unchanged; a passthrough key that collides with a renamed one wins |
| `Gemini.BuildGenerationConfig` | llmify/providers/gemini.py:126-149 | moving the known keys one by one, popping them, then updating with the rest gives `GenerationConfig` |
| `Gemini.RenamingIsInvertible` | llmify/providers/gemini.py:138-148 | when no passthrough key collides with a renamed one, renaming back gives the merged parameters exactly |
| `Gemini.StructuredConfig` | llmify/providers/gemini.py:97-99 | structured calls set `response_mime_type` to `application/json` and `response_schema` to the model's schema, whatever the parameters said; other keys are unchanged |
| `Gemini.NonEmptyTexts` | llmify/providers/gemini.py:123-124 | every yielded text is non-empty, and there are exactly as many as chunks with a non-empty text |
| `Gemini.StreamTexts` | llmify/providers/gemini.py:118-124 | the filtering loop yields `NonEmptyTexts` of the chunk texts |
| `Gemini.YieldedInArrivalOrder` | llmify/providers/gemini.py:123-124 | each chunk with a non-empty text is yielded once, right after the texts of the chunks before it |
| `Gemini.StreamKeepsAllText` | llmify/providers/gemini.py:123-124 | the yielded fragments join to the text of all chunks (`ChunkTexts`, a missing text read as `""`): only empty texts are skipped, and no text is lost, repeated or reordered |

## Left out

- Vendor SDK calls are not modelled: `messages.create`, `messages.stream`, `generate_content`, `generate_content_stream`, `chat.completions.create` and `parse`. They are network I/O in foreign libraries.
- Response extraction is not modelled: `response.content[0].text`, `response.text`, `choices[0].message.content` and `.parsed`. These read foreign response objects.
- The Anthropic `stream` is not modelled. It passes `text_stream` through unfiltered inside an async context manager. Async iteration and connection release are outside the model.
- The Gemini and OpenAI streams are modelled as a filter over a given finite sequence of chunks. Each chunk is only as much as the filter reads: `chunk.text` for Gemini, `choices[0].delta.content` for OpenAI.
- Loading credentials from the environment (`load_dotenv`, `os.getenv`) and building clients are configuration plumbing, so they are left out.
- Pydantic is a foreign library: `model_json_schema`, `model_validate` and `model_validate_json` are left out. Schemas are opaque values. `Anthropic.SelectToolUse` returns the raw tool input without validating it.
- `_merge_params` lives in `llmify/providers/base.py`, which is not part of this model. `Gemini.BuildGenerationConfig` takes the merged map as given.
- The validation that `GenerateContentConfig(**config_dict)` performs on its keys belongs to the SDK, so it is left out.
- Parameter values (floats, integers, stop lists, schema classes) are opaque values. Only strings are told apart.
- The key order of Python dicts is not modelled. Configs are maps.
- `llmify/providers/azure.py` is left out. Its message conversion comes from `BaseOpenAICompatible`, which is not part of this model. Its delta filter (lines 108-110) is the one modelled by `OpenAI.DeltaStream`.
- `llmify/base.py`, the package `__init__` files and the example script hold no translation logic, so they are left out.
- Rejecting an empty conversation and a dedicated error taxonomy are not implemented by the code, so they are not modelled.
- The default values of `ImageMessage`'s role and content are unknown, because the class is not defined in the code. The model takes both as fields.
- If an `ImageMessage` stores a plain `str` media type, `msg.media_type.value` in the Gemini adapter (llmify/providers/gemini.py:72) raises `AttributeError`. That error path is not modelled: the class is not defined in the code, so the model takes the media type to be its string value.
