# bub core, modelled in Dafny

Bub is a chat agent. Its conversation history lives on a *tape*: an ordered
list of entries of kind `message`, `tool_call` and `tool_result`. Before each
model call, the tape is compiled into the role-tagged chat messages an LLM API
expects. The agent's abilities are *tools*, kept in a registry by name. Users
reach the agent through a Telegram channel; the agent answers through a small
send script. Extra abilities come from *skills*: `SKILL.md` files with YAML
front matter, discovered in several roots. The LLM client is built with
provider-specific options.

This project models the pure logic of those six pieces, one Dafny module per
source file:

| module | models |
|---|---|
| `TapeContext` (`tape_context.dfy`) | `src/bub/tape/context.py`: the tape-to-messages fold, tool-call sanitizing, pairing of results with calls |
| `ToolRegistry` (`tool_registry.dfy`) | `src/bub/tools/registry.py`: the allow-list gate, registration, lookup, sorted listings, renderings, model-name renaming, execution set-up, log-value rendering |
| `TelegramChannel` (`telegram_channel.dfy`) | `src/bub/channels/telegram.py`: the message classifier, the group filter, the access checks, reply composition, the media renderings |
| `TelegramSplit` (`telegram_split.dfy`) | `_split_message` of `src/bub/channels/telegram.py` |
| `TelegramSend` (`telegram_send.dfy`) | `src/bub/skills/telegram/scripts/telegram_send.py`: newline unescaping, the request payloads, argument resolution |
| `SkillLoader` (`skill_loader.dfy`) | `src/bub/skills/loader.py`: front matter, skill reading, discovery and lookup |
| `RepublicClient` (`republic_client.dfy`) | `src/bub/integrations/republic_client.py`: the MiniMax error classifier and `build_llm`'s option choices |

There are four support modules:

- `Base`: `Option` and `Result`.
- `Json`: the JSON value type. The JSON library is an abstract `Codec`.
- `Text`: Python's `strip`, `lower`, `in`, `replace`, `splitlines` and `str(int)`.
- `Order`: Python's `<` on strings, and sorted listings of a map's keys.

Python exceptions are modelled as the `Failure` side of a `Result`. Foreign
functions are parameters of the operations that call them:

- `json.dumps`, `json.loads`, `str` and `repr` are fields of a `Codec` record. `Sound(c)` is the minimal law a real codec obeys: `dumps` of a serializable value is accepted by `loads`, `"{}"` is accepted and `""` is not.
- `yaml.safe_load` is a function that returns `YamlError`, `NotMapping` or `Mapping(pairs)`.
- `markdownify` is a `string -> string` function.

The file system of the skill loader has two parts:

- a map from file path to content;
- for each root, its sorted directory listing.

### Tool results clear the pending calls

The pending-call buffer is emptied after every `tool_result` entry, whether
or not its `results` is a list: the helper returns early at
`src/bub/tape/context.py:57-58`, and then `src/bub/tape/context.py:33`
sets `pending_calls = []` unconditionally.
`TapeContext.Step` states it and `TapeContext.ResultAfterResultUnpaired`
shows what follows: a later `tool_result` is never paired with earlier calls.

## Model

| member | source | states |
|---|---|---|
| TapeContext.SanitizeToolCall | src/bub/tape/context.py:95-118 | dict arguments become their JSON encoding (a failure when that encoding raises); a string `json.loads` rejects, and a missing or `None` value, become `"{}"`; any other shape, or a call without a dict `function`, is returned unchanged; only `function.arguments` can differ |
| TapeContext.SanitizeSettles | src/bub/tape/context.py:95-118 | after one successful pass, `arguments` is a string `json.loads` accepts or a shape the sanitizer does not touch |
| TapeContext.SettledIffFixed | src/bub/tape/context.py:95-118 | the sanitizer returns a call unchanged exactly when its arguments are already settled |
| TapeContext.SanitizeIdempotent | src/bub/tape/context.py:95-118 | sanitizing an already sanitized call changes nothing |
| TapeContext.Mappings | src/bub/tape/context.py:85-92 | every kept call is a dict item of the list; nothing is kept exactly when the list holds no dict |
| TapeContext.MappingsKeepsDicts | src/bub/tape/context.py:89-91 | every dict item is kept, at the position right after the dict items that precede it |
| TapeContext.MappingsAppend | src/bub/tape/context.py:89-91 | the dict items keep their order: those of a concatenation are those of each half, in place |
| TapeContext.SanitizeAll | src/bub/tape/context.py:85-92 | fails exactly when some call's sanitizing raises; otherwise result `k` is the sanitized call `k` |
| TapeContext.NormalizeItems | src/bub/tape/context.py:85-92 | the dict items of `calls`, in order and each sanitized; the other items are dropped; fails exactly when one of them fails to sanitize |
| TapeContext.NormalizeToolCalls | src/bub/tape/context.py:85-92 | a value that is not a list gives no calls; for a list, it fails exactly when a dict item fails to sanitize, and otherwise gives one sanitized call per dict item, in order |
| TapeContext.RenderToolResult | src/bub/tape/context.py:121-127 | a string result is returned as it is; any other serializable result is its `json.dumps` encoding, text that `json.loads` accepts; otherwise `str()` of the value |
| TapeContext.BuildToolResultMessage | src/bub/tape/context.py:63-82 | a `tool` message whose content is the rendered result; it has `tool_call_id` and `name` exactly when pending call `index` exists and carries them as non-empty strings; it has no other keys |
| TapeContext.Step | src/bub/tape/context.py:18-35 | one entry fails exactly when that entry makes the source raise; otherwise it only appends the entry's contribution; after a `tool_result` the pending buffer is empty; any other kind leaves it alone |
| TapeContext.MessageEntryStep | src/bub/tape/context.py:38-41 | a `message` entry with a dict payload appends that payload; anything else of a kind other than `tool_call` or `tool_result` changes nothing |
| TapeContext.ToolCallEntryStep | src/bub/tape/context.py:44-48 | the dict calls, sanitized, become the new buffer with their ids and names kept; exactly one assistant message is emitted when there is at least one dict call, none otherwise |
| TapeContext.ToolResultEntryStep | src/bub/tape/context.py:51-60 | a list of n results appends exactly n `tool` messages in order, message `i` built from result `i` and pending call `i`; a non-list appends nothing; the buffer is empty afterwards |
| TapeContext.RunAppend | src/bub/tape/context.py:18-35 | compiling `a + b` is compiling `b` from the state `a` leaves; an error in `a` stops the fold |
| TapeContext.RunShape | src/bub/tape/context.py:18-35 | the fold fails exactly when some entry fails, and it otherwise appends the sum of the entries' own contributions |
| TapeContext.SelectMessages | src/bub/tape/context.py:18-35 | `_select_messages` raises exactly when some entry does, and otherwise emits as many messages as the entries contribute one by one |
| TapeContext.CallThenResultPairing | src/bub/tape/context.py:44-82 | a `tool_call` entry followed by a `tool_result` entry yields one `tool` message per result, each paired by position with the call's id and name when that call exists, and an empty buffer |
| TapeContext.ResultAfterResultUnpaired | src/bub/tape/context.py:31-33 | the messages of a second consecutive `tool_result` carry neither `tool_call_id` nor `name` |
| ToolRegistry.ShortenText | src/bub/tools/registry.py:20-34 | text no longer than `width` is returned unchanged; when the placeholder leaves no room, the placeholder alone is returned; otherwise a prefix of the text followed by the placeholder, exactly `width` long |
| ToolRegistry.CloseWith | src/bub/tools/registry.py:186-191 | appends the closer exactly when the value starts with the opener and does not already end with the closer |
| ToolRegistry.Balance | src/bub/tools/registry.py:186-191 | adds at most one character, keeping the value as a prefix; a value starting with `"`, `{` or `[` ends with the matching closer; other values are unchanged |
| ToolRegistry.LogValue | src/bub/tools/registry.py:182-191 | at most 61 characters, brackets and quotes closed, and a JSON (or `repr`) rendering of at most 60 characters is kept whole |
| ToolRegistry.CallKwargs | src/bub/tools/registry.py:77 | the logged arguments are exactly the given ones apart from `context` |
| ToolRegistry.CallKwargsAppend | src/bub/tools/registry.py:77 | dropping `context` keeps the order of the other arguments: filtering a concatenation filters each half in place |
| ToolRegistry.LogParams | src/bub/tools/registry.py:179-193 | every argument other than `context` appears in the log line as `key=value` with its shortened, balanced rendering; with no other argument the line's parameter part is empty |
| ToolRegistry.ToModelName | src/bub/tools/registry.py:117-119 | same length, no `.`, and every other character unchanged |
| ToolRegistry.ToModelNameIsReplace | src/bub/tools/registry.py:117-119 | the model name is `name.replace(".", "_")` |
| ToolRegistry.ToModelNameIdempotent | src/bub/tools/registry.py:117-119 | renaming twice is renaming once |
| ToolRegistry.Register | src/bub/tools/registry.py:66-104 | with an allow-set, registration is refused, leaving the registry as it was, exactly when neither the case-folded name nor the case-folded model name is in the set; otherwise the name maps to the new descriptor, every other entry is unchanged, and the detail falls back from the argument to the docstring to `""` |
| ToolRegistry.RegisterLastWriteWins | src/bub/tools/registry.py:103-104 | registering a name a second time gives the same registry as registering only the second time |
| ToolRegistry.UpperCaseEntriesAdmitNothing | src/bub/tools/registry.py:68-71 | allow-set entries are not case-folded, so entries that all hold an upper-case letter admit no name |
| ToolRegistry.Has | src/bub/tools/registry.py:108-109 | `has(name)` holds exactly when some stored descriptor carries that name |
| ToolRegistry.Get | src/bub/tools/registry.py:108-112 | `get` finds a descriptor exactly when `has` holds, and it is the stored one under that name |
| ToolRegistry.Descriptors | src/bub/tools/registry.py:114-115 | every stored descriptor exactly once, strictly sorted by name |
| ToolRegistry.Row | src/bub/tools/registry.py:123-128 | the `(command: …)` form appears exactly in model mode when the model name differs from the stored one; every row ends with `": "` and the short description |
| ToolRegistry.CompactRows | src/bub/tools/registry.py:121-129 | one row per descriptor, in name order; outside model mode a row is `name: description` |
| ToolRegistry.ModelSchema | src/bub/tools/registry.py:136-144 | the schema copy for the model differs from the stored schema at most in `function.name`, which becomes the model name when `function` is a dict |
| ToolRegistry.Detail | src/bub/tools/registry.py:131-134 | an unknown name raises `KeyError(name)`, and only then |
| ToolRegistry.DetailShape | src/bub/tools/registry.py:131-155 | the text starts with the displayed name; the `command_name:` line is there exactly in model mode with differing names; it ends with the detail and the (renamed-copy) schema |
| ToolRegistry.SharedModelNameCollides | src/bub/tools/registry.py:157-176 | two listed descriptors with the same model name are two different stored names |
| ToolRegistry.DistinctModelNamesNoCollision | src/bub/tools/registry.py:157-176 | when the listing's model names are pairwise distinct, no two stored names collide |
| ToolRegistry.RenameListing | src/bub/tools/registry.py:157-176 | raises with the first model name met a second time, all model names before it being distinct; otherwise one renamed tool per descriptor, in order, with pairwise-distinct model names |
| ToolRegistry.ModelTools | src/bub/tools/registry.py:157-176 | raises exactly when two stored names share a model name; otherwise one tool per descriptor, named by its model name, in name order, pairwise distinct |
| ToolRegistry.Execute | src/bub/tools/registry.py:196-208 | an unknown name raises `KeyError`; the tool is called with the given keyword arguments, and `context` is injected exactly when the tool asks for it |
| TelegramChannel.MessageType | src/bub/channels/telegram.py:24-41 | `unknown` exactly when no field of the fixed list is present; otherwise a kind that is present and no kind earlier in the order text, photo, audio, sticker, video, voice, document, video_note is |
| TelegramChannel.MessageTypeIsPriorityOrder | src/bub/channels/telegram.py:24-41 | the classifier agrees with the reference definition: the first present field of the ordered kind list, else `unknown` |
| TelegramChannel.Content | src/bub/channels/telegram.py:47-48 | the stripped text, else the stripped caption, else `""`; never white space at either end |
| TelegramChannel.MentionsBot | src/bub/channels/telegram.py:75-88 | true exactly when the lowered content holds `bub` or `@username`, or an entity is a `mention` of the bot's username or a `text_mention` of the bot |
| TelegramChannel.IsReplyToBot | src/bub/channels/telegram.py:90-95 | true exactly when the message replies to a message whose sender has the bot's id |
| TelegramChannel.Filter | src/bub/channels/telegram.py:50-73 | unknown messages never pass; private chats always do; in a group a captionless non-text message passes only as a reply to the bot, anything else when it mentions or replies to the bot; other chat types never pass |
| TelegramChannel.ReplyToBotPassesInGroups | src/bub/channels/telegram.py:60-95 | in a group, a message of any known kind replying to a message whose sender has the bot's id passes the filter, whatever it says |
| TelegramChannel.SenderTokensMeet | src/bub/channels/telegram.py:251-254 | the sender meets the allow-list exactly when its id or its username is listed |
| TelegramChannel.OnText | src/bub/channels/telegram.py:244-269 | dropped exactly when the message or user is missing or the chat is not allowed; denied exactly when the chat is allowed and the sender is not; delivered exactly when both are allowed and a handler is installed |
| TelegramChannel.StartReply | src/bub/channels/telegram.py:236-242 | `/start` replies the no-access text exactly when the chat is not allowed |
| TelegramChannel.OpenConfigDeliversAll | src/bub/channels/telegram.py:248-254 | with empty allow-lists every text update reaches the handler |
| TelegramChannel.SendBack | src/bub/channels/telegram.py:223-229 | the immediate output first, the assistant output only when not proactive, and `Error: …` last, with no empty part |
| TelegramChannel.ReplyText | src/bub/channels/telegram.py:215-231 | a reply is sent exactly when the logged content is non-blank and something is to be sent back; it is the sent-back parts joined by a blank line, so it starts with the immediate output, holds the assistant output when not proactive, and ends with the error line |
| TelegramChannel.ReplyChunks | src/bub/channels/telegram.py:229-234 | nothing is sent without a reply text; otherwise the reply goes out as chunks of at most 4096 characters that give the reply back when the dropped newlines are restored, a reply within the limit as one chunk |
| TelegramChannel.ProactiveReplyIgnoresAssistant | src/bub/channels/telegram.py:223-225 | in proactive mode the assistant output does not change the reply |
| TelegramChannel.ChatIdOf | src/bub/channels/telegram.py:232 | the chat id is what follows the first colon of the session id |
| TelegramChannel.ChatIdOfSession | src/bub/channels/telegram.py:174 | the session id built from a chat id gives that chat id back |
| TelegramChannel.ExcludeNone | src/bub/channels/telegram.py:311-316 | metadata keeps exactly the listed attributes that are not `None`, with their values |
| TelegramChannel.WithCaption | src/bub/channels/telegram.py:305-306 | the caption is appended as ` Caption: …` exactly when it is non-empty |
| TelegramChannel.ParsePhoto | src/bub/channels/telegram.py:304-317 | metadata exactly when photo sizes are present; text is `[Photo message]` with the caption |
| TelegramChannel.ParseAudio | src/bub/channels/telegram.py:320-336 | metadata exactly when there is audio; then the text is `[Audio: … (Ns)]` |
| TelegramChannel.ParseSticker | src/bub/channels/telegram.py:339-356 | metadata exactly when there is a sticker; then the text is `[Sticker…]` |
| TelegramChannel.ParseVideo | src/bub/channels/telegram.py:359-374 | metadata exactly when there is a video; the text starts `[Video: ` and ends with the caption when given |
| TelegramChannel.ParseVoice | src/bub/channels/telegram.py:377-383 | metadata exactly when there is a voice note; the text starts `[Voice message: ` |
| TelegramChannel.ParseDocument | src/bub/channels/telegram.py:386-401 | metadata exactly when there is a document; the text starts `[Document: ` and ends with the caption when given |
| TelegramChannel.ParseVideoNote | src/bub/channels/telegram.py:404-410 | metadata exactly when there is a video note; the text starts `[Video note: ` |
| TelegramChannel.ParseMessage | src/bub/channels/telegram.py:294-301 | a text message is its text with no metadata; an unknown one is `[Unknown message type]` |
| TelegramChannel.MetadataIffMedia | src/bub/channels/telegram.py:294-301 | metadata is returned exactly for media kinds |
| TelegramChannel.CaptionShown | src/bub/channels/telegram.py:294-401 | a photo, video or document with a caption shows the caption at the end |
| TelegramSplit.RFindNewline | src/bub/channels/telegram.py:449 | the last newline before the bound, or -1 when there is none |
| TelegramSplit.SplitPoint | src/bub/channels/telegram.py:449-452 | the cut is at the last newline before the limit when that is past position 0; it is at the limit only when no newline lies strictly between position 0 and the limit |
| TelegramSplit.NewlineRun | src/bub/channels/telegram.py:454 | `lstrip("\n")` removes exactly the run of newlines at the cut |
| TelegramSplit.SplitMessage | src/bub/channels/telegram.py:439-455 | a text within the limit (the empty text included) is one chunk; otherwise every chunk is non-empty and within the limit, no later chunk starts with a newline, and the chunks joined with runs of newlines give back the text |
| TelegramSend.NoEscapedLfAfterFirst | src/bub/skills/telegram/scripts/telegram_send.py:36 | after the first replacement no escaped `\n` is left |
| TelegramSend.CrLfStepIsIdentity | src/bub/skills/telegram/scripts/telegram_send.py:36-37 | the `\r\n` replacement never changes anything after the `\n` replacement |
| TelegramSend.UnescapeLeavesNoEscapes | src/bub/skills/telegram/scripts/telegram_send.py:30-39 | the output holds no escaped `\n` and no escaped `\r` |
| TelegramSend.UnescapeWithoutBackslash | src/bub/skills/telegram/scripts/telegram_send.py:30-39 | text without a backslash is returned unchanged |
| TelegramSend.EscapedLfBecomesNewline | src/bub/skills/telegram/scripts/telegram_send.py:36 | an escaped `\n` becomes a real newline, the text on either side unescaped on its own |
| TelegramSend.EscapedCrLfBecomesCrLf | src/bub/skills/telegram/scripts/telegram_send.py:31-38 | an escaped `\r\n` still becomes a real CR LF, as the docstring says, through the first and last replacements |
| TelegramSend.Unescape | src/bub/skills/telegram/scripts/telegram_send.py:30-39 | the three replacements give what the first and the last give alone: the `\r\n` replacement never fires |
| TelegramSend.SendText | src/bub/skills/telegram/scripts/telegram_send.py:100-102 | with a non-empty mention the text is `@user ` followed by the unescaped text, otherwise the unescaped text |
| TelegramSend.SendRequest | src/bub/skills/telegram/scripts/telegram_send.py:97-114 | the `sendMessage` URL for the token; keys `chat_id`, `text` and `parse_mode = MarkdownV2`, plus `reply_to_message_id` exactly when the id is non-zero; the text is the converted text with its trailing newlines, and only those, removed |
| TelegramSend.EditRequest | src/bub/skills/telegram/scripts/telegram_send.py:57-67 | the `editMessageText` URL; exactly the keys `chat_id`, `message_id`, `text`, `parse_mode`, holding the chat id, the message id, the converted text and MarkdownV2 |
| TelegramSend.Resolve | src/bub/skills/telegram/scripts/telegram_send.py:146-160 | no token from the flag or the environment is an error, and so is a bot source without a username; otherwise the flag token wins, the chat id is stripped, and a bot source gets no reply but a mention |
| TelegramSend.BotSourceMentionsInsteadOfReplying | src/bub/skills/telegram/scripts/telegram_send.py:155-164 | for a bot source the request has no `reply_to_message_id` and the text starts with `@username ` |
| SkillLoader.ClosingLine | src/bub/skills/loader.py:93-94 | the first fence line from a position on, or none when there is no fence |
| SkillLoader.FrontmatterPayload | src/bub/skills/loader.py:89-95 | there is a payload exactly when the first line is a fence and a later line is one; it is the lines strictly between the first line and the first later fence, joined by newlines |
| SkillLoader.LowerKeys | src/bub/skills/loader.py:101 | the keys are exactly the lowered YAML keys |
| SkillLoader.LowerKeysLastWins | src/bub/skills/loader.py:101 | when two keys lower alike, the later pair's value is kept |
| SkillLoader.ParseFrontmatter | src/bub/skills/loader.py:88-103 | every key is lower-case; a non-empty result needs a front matter block that parses to a mapping, so a YAML error or a non-mapping gives `{}`; a block that parses to a mapping gives exactly that mapping with its keys lowered (`LowerKeys`) |
| SkillLoader.FieldOr | src/bub/skills/loader.py:78-79 | a missing or falsy field falls back to the default; a string field is used; either is stripped |
| SkillLoader.ReadSkill | src/bub/skills/loader.py:67-85 | no `SKILL.md` file gives nothing; otherwise no skill exactly when the stripped name is empty, and the skill has the name, the description, the file's location, the `metadata` field and the root's source |
| SkillLoader.DescriptionDefault | src/bub/skills/loader.py:79 | without a description the skill says `No description provided.` |
| SkillLoader.EntrySkill | src/bub/skills/loader.py:42-46 | only directories yield skills, each located at an existing file and tagged with the root's source |
| SkillLoader.RootSkills | src/bub/skills/loader.py:41-46 | one root's skills come from its entries and carry its source |
| SkillLoader.RootSkillsComplete | src/bub/skills/loader.py:41-46 | every entry that yields a skill contributes it |
| SkillLoader.Candidates | src/bub/skills/loader.py:38-46 | every candidate's location is an existing file and it is tagged with one of the roots; with distinct tags, every skill of an earlier root comes before every skill of a later one |
| SkillLoader.FirstByName | src/bub/skills/loader.py:47-49 | one skill per case-folded name that occurs, filed under its own key |
| SkillLoader.FirstSeenWins | src/bub/skills/loader.py:47-49 | the first skill with a given case-folded name is the one kept |
| SkillLoader.FirstByNameIsEarliest | src/bub/skills/loader.py:47-49 | the skill kept for a candidate's name sits at or before that candidate |
| SkillLoader.Discovered | src/bub/skills/loader.py:30-49 | the kept skills over the roots project, bob-ops, global, builtin, each under its own key |
| SkillLoader.EarliestRootWins | src/bub/skills/loader.py:30-49 | every candidate's name is kept, and the kept skill comes from a root no later, in the order project, bob-ops, global, builtin, than any candidate of that name |
| SkillLoader.LaterRootShadowed | src/bub/skills/loader.py:30-49 | a skill of a later root whose name matches an earlier root's skill up to case is not the one kept |
| SkillLoader.SortByKey | src/bub/skills/loader.py:51 | the kept skills, each once, strictly sorted by case-folded name |
| SkillLoader.DiscoverSkills | src/bub/skills/loader.py:27-51 | exactly the kept skills, strictly sorted by case-folded name |
| SkillLoader.DiscoveredNamesDistinct | src/bub/skills/loader.py:47-51 | no two discovered skills share a case-folded name |
| SkillLoader.FindByKey | src/bub/skills/loader.py:58-59 | finds a skill with the key exactly when the list has one |
| SkillLoader.LoadSkillBody | src/bub/skills/loader.py:54-64 | the body is returned exactly when a discovered skill's name matches case-insensitively, and it is that skill's file content |
| RepublicClient.MinimaxClassify | src/bub/integrations/republic_client.py:17-29 | `UNKNOWN` exactly when the lowered text holds `invalid function arguments json string`, or both `tool_call_id` and `invalid params`; `None` otherwise |
| RepublicClient.ClassifiesAnyCasing | src/bub/integrations/republic_client.py:23-28 | the phrases are recognised in any casing |
| RepublicClient.ClassifyIgnoresCase | src/bub/integrations/republic_client.py:23 | lowering the text first does not change the verdict |
| RepublicClient.BuildLlm | src/bub/integrations/republic_client.py:38-57 | an Azure API version exactly when the model names `azure`; the MiniMax classifier exactly when the lowered model names `minimax`; three retries |
| RepublicClient.MinimaxInAnyCasing | src/bub/integrations/republic_client.py:46 | a model spelling MiniMax in any casing gets the classifier |
| RepublicClient.AzureIsCaseSensitive | src/bub/integrations/republic_client.py:42 | a model name without a lower-case `z` (such as `AZURE/gpt-4o`) gets no API version |

## Left out

- Async machinery, long polling, the typing loop and the `Application` lifecycle of the Telegram channel. These are concurrency and transport.
- The HTTP calls themselves (`requests.post`, `send_message` and `reply_text` of the Bot API), and the script's exit codes and console output. These are network and process I/O; the model stops at the request it would send.
- `markdownify`, `yaml.safe_load`, `json.dumps`, `json.loads`, `str` and `repr` are parameters. Only the laws in `Json.Sound` are assumed about them.
- Case mapping: Python's `lower` and `casefold` are modelled on ASCII letters only. Unicode case mapping is foreign library semantics.
- In-place aliasing: sanitizing mutates the stored nested `function` dict (`src/bub/tape/context.py:91`), and `execute` mutates the caller's kwargs. The model has value semantics.
- Telegram entity offsets count UTF-16 units but are used as string indices. Text encoding is not modelled; offsets index the string.
- `_log_tool_call`'s merge of a pydantic model's `model_dump()` into the logged arguments, the logging itself, and the timing around the handler. These are observational.
- The `republic` library objects (`Tool`, `tool_from_model`, `schema()`, `run`, `LLM`, `FileTapeStore`). They are opaque records here: a tool is its name, description, parameters, schema and `context` flag.
- `build_tape_store`, `read_workspace_agents_prompt`, and `src/bub/config/settings.py` with `resolved_api_key`. These are file and environment I/O; the API key and base are parameters of `BuildLlm`.
- `get_session_prompt` and `_extract_reply_metadata` of the Telegram channel. These assemble a JSON prompt for the agent loop and are not part of this model.
- The `/bot ` and `/bub ` stripping in `_on_text`. Its result is never used, so it has no observable effect.
- `Path.resolve`, symlinks, `is_dir` and `is_file`, and `OSError` on reads. The file system is a map from path to content plus ordered listings; a path that is not in the map is neither a file nor readable.
- Non-integer JSON numbers. `Json.Num` holds an integer, so a float tool result or argument is not represented; no modelled branch depends on a number's value beyond `reply_to_message_id` and `message_id`, which are integers.
- `str(key)` for non-string YAML keys. The YAML mapping is modelled with string keys.
- TelegramSplit.SplitMessage: requires `limit > 0`. For a non-positive limit the source loops forever on most texts (limit 0 and the text `"a"`, say), and its only caller passes the default 4096.
- TelegramChannel.ChatIdOf: returns `None` where the source raises `IndexError` on a session id without a colon.
- SkillLoader.RootSkills: states the bound, the location and the source; that every entry's skill is kept is stated by `RootSkillsComplete`.
- TelegramChannel.ParseAudio: states the frame of the text (`[Audio: `, `s)]`) and not the performer and title fields, which go through `str()`.
- TelegramChannel.ParseSticker: states the frame of the text and not the emoji and set name, which go through `str()`.
- TelegramChannel.ParseVoice: states the prefix and the metadata condition, not the rendered duration.
- TelegramChannel.ParseVideoNote: states the prefix and the metadata condition, not the rendered duration.
- RepublicClient.BuildLlm: the tape store and the tape context passed to `LLM` are not modelled.
