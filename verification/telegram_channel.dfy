/** The self-contained rules of the Telegram channel adapter
    (`src/bub/channels/telegram.py`): the message classifier, the group-chat
    filter, the access checks of the inbound handlers, the composition of
    the reply text, the splitting of long replies, and the one-line
    renderings of media messages.

    A Telegram `Message` is reduced to a record of optional fields; a media
    object (audio, sticker, ...) is a bag of attributes in which a missing
    attribute reads as `None`. */
module TelegramChannel {
  import opened Base
  import opened Json
  import opened Text
  import TelegramSplit

  datatype User = User(id: int, username: Option<string>)

  /** A message entity: its type, its offset and length in the text, and
      the user of a `text_mention`. */
  datatype Entity = Entity(kind: string, offset: int, length: int, user: Option<User>)

  /** The message replied to, by its sender. */
  datatype Reply = Reply(fromUser: Option<User>)

  /** A media object's attributes (`file_id`, `duration`, `title`, ...). */
  type Media = map<string, Json>

  datatype Message = Message(
    text: Option<string>,
    caption: Option<string>,
    photo: seq<Media>,
    audio: Option<Media>,
    sticker: Option<Media>,
    video: Option<Media>,
    voice: Option<Media>,
    document: Option<Media>,
    videoNote: Option<Media>,
    chatType: string,
    chatId: int,
    entities: seq<Entity>,
    captionEntities: seq<Entity>,
    replyTo: Option<Reply>)

  /** The bot's own account. */
  datatype Bot = Bot(id: int, username: Option<string>)

  // ---------------------------------------------------------------------
  // Classifying
  // ---------------------------------------------------------------------

  /** The message kinds in the order `_message_type` tries them. */
  const Kinds: seq<string> := ["text", "photo", "audio", "sticker", "video", "voice", "document", "video_note"]

  /** The field of kind `k` is present (truthy). */
  predicate Present(m: Message, k: string) {
    if k == "text" then Given(m.text)
    else if k == "photo" then |m.photo| > 0
    else if k == "audio" then m.audio.Some?
    else if k == "sticker" then m.sticker.Some?
    else if k == "video" then m.video.Some?
    else if k == "voice" then m.voice.Some?
    else if k == "document" then m.document.Some?
    else if k == "video_note" then m.videoNote.Some?
    else false
  }

  /** `_message_type`. */
  function MessageType(m: Message): (r: string)
    ensures r == "unknown" || r in Kinds
    ensures r == "unknown" <==> forall i :: 0 <= i < |Kinds| ==> !Present(m, Kinds[i])
    ensures r != "unknown" ==> Present(m, r)
    ensures forall i, j :: 0 <= j < i < |Kinds| && Kinds[i] == r ==> !Present(m, Kinds[j])
  {
    if Given(m.text) then "text"
    else if |m.photo| > 0 then "photo"
    else if m.audio.Some? then "audio"
    else if m.sticker.Some? then "sticker"
    else if m.video.Some? then "video"
    else if m.voice.Some? then "voice"
    else if m.document.Some? then "document"
    else if m.videoNote.Some? then "video_note"
    else "unknown"
  }

  /** The first kind of `kinds` present in `m`, else "unknown". */
  function FirstPresent(m: Message, kinds: seq<string>): (r: string)
    ensures r == "unknown" || r in kinds
    decreases |kinds|
  {
    if |kinds| == 0 then "unknown"
    else if Present(m, kinds[0]) then kinds[0]
    else FirstPresent(m, kinds[1..])
  }

  /** `FirstPresent` picks a present kind with no present kind before it. */
  lemma {:induction false} FirstPresentIsFirst(m: Message, kinds: seq<string>, i: nat)
    requires i < |kinds| && Present(m, kinds[i])
    requires forall j :: 0 <= j < i ==> !Present(m, kinds[j])
    ensures FirstPresent(m, kinds) == kinds[i]
    decreases i
  {
    if i > 0 {
      FirstPresentIsFirst(m, kinds[1..], i - 1);
    }
  }

  /** The classifier returns the first present kind in the fixed priority
      order, and "unknown" when none is present. */
  lemma MessageTypeIsPriorityOrder(m: Message)
    ensures MessageType(m) == FirstPresent(m, Kinds)
  {
    if MessageType(m) != "unknown" {
      var i :| 0 <= i < |Kinds| && Kinds[i] == MessageType(m);
      FirstPresentIsFirst(m, Kinds, i);
    } else {
      NonePresent(m, Kinds);
    }
  }

  lemma {:induction false} NonePresent(m: Message, kinds: seq<string>)
    requires forall j :: 0 <= j < |kinds| ==> !Present(m, kinds[j])
    ensures FirstPresent(m, kinds) == "unknown"
    decreases |kinds|
  {
    if |kinds| > 0 {
      NonePresent(m, kinds[1..]);
    }
  }

  // ---------------------------------------------------------------------
  // The group-chat filter
  // ---------------------------------------------------------------------

  /** `_content`: the text, else the caption, stripped. */
  function Content(m: Message): (r: string)
    ensures r == [] || (!IsSpace(r[0]) && !IsSpace(r[|r| - 1]))
    ensures Given(m.text) ==> r == Strip(m.text.value)
    ensures !Given(m.text) && Given(m.caption) ==> r == Strip(m.caption.value)
    ensures !Given(m.text) && !Given(m.caption) ==> r == ""
  {
    Strip(if Given(m.text) then m.text.value else if Given(m.caption) then m.caption.value else "")
  }

  /** One entity names the bot: a `mention` whose text is `@username`, or a
      `text_mention` of the bot's user id. */
  predicate EntityNamesBot(e: Entity, content: string, botId: int, botUsername: string) {
    if e.kind == "mention" && botUsername != "" then
      Lower(Slice(content, e.offset, e.offset + e.length)) == "@" + botUsername
    else
      e.kind == "text_mention" && e.user.Some? && e.user.value.id == botId
  }

  /** The entity loop of `_mentions_bot`: true at the first entity that
      names the bot. */
  function EntitiesName(es: seq<Entity>, content: string, botId: int, botUsername: string): (r: bool)
    ensures r <==> exists i :: 0 <= i < |es| && EntityNamesBot(es[i], content, botId, botUsername)
    decreases |es|
  {
    if |es| == 0 then false
    else if EntityNamesBot(es[0], content, botId, botUsername) then true
    else
      var r := EntitiesName(es[1..], content, botId, botUsername);
      assert forall i :: 1 <= i < |es| ==> es[i] == es[1..][i - 1];
      r
  }

  /** `_mentions_bot`, with `botUsername` already lower-cased. */
  function MentionsBot(m: Message, botId: int, botUsername: string): (r: bool)
    ensures var content := Lower(Content(m));
      r <==> || Contains(content, "bub")
             || (botUsername != "" && Contains(content, "@" + botUsername))
             || exists i :: 0 <= i < |m.entities + m.captionEntities|
                  && EntityNamesBot((m.entities + m.captionEntities)[i], content, botId, botUsername)
  {
    var content := Lower(Content(m));
    var byKeyword := Contains(content, "bub") || (botUsername != "" && Contains(content, "@" + botUsername));
    EntitiesName(m.entities + m.captionEntities, content, botId, botUsername) || byKeyword
  }

  /** `_is_reply_to_bot`. */
  predicate IsReplyToBot(m: Message, botId: int) {
    m.replyTo.Some? && m.replyTo.value.fromUser.Some? && m.replyTo.value.fromUser.value.id == botId
  }

  /** `BubMessageFilter.filter`: unknown messages never pass; private chats
      always do; in a group, a non-text message without caption passes only
      as a reply to the bot, anything else when it mentions the bot or
      replies to it; other chat types never pass. */
  function Filter(m: Message, bot: Bot): (r: bool)
    ensures MessageType(m) == "unknown" ==> !r
    ensures MessageType(m) != "unknown" && m.chatType == "private" ==> r
    ensures m.chatType != "private" && m.chatType != "group" && m.chatType != "supergroup" ==> !r
    ensures var user := Lower(if Given(bot.username) then bot.username.value else "");
      r <==> && MessageType(m) != "unknown"
             && (|| m.chatType == "private"
                 || ((m.chatType == "group" || m.chatType == "supergroup")
                     && (|| IsReplyToBot(m, bot.id)
                         || ((MessageType(m) == "text" || Given(m.caption)) && MentionsBot(m, bot.id, user)))))
  {
    var kind := MessageType(m);
    if kind == "unknown" then false
    else if m.chatType == "private" then true
    else if m.chatType in {"group", "supergroup"} then
      var user := Lower(if Given(bot.username) then bot.username.value else "");
      var mentions := MentionsBot(m, bot.id, user);
      var reply := IsReplyToBot(m, bot.id);
      if kind != "text" && !Given(m.caption) then reply else mentions || reply
    else false
  }

  /** In a group, a message of any known kind that replies to a message
      sent by the bot passes, whatever it says. */
  lemma ReplyToBotPassesInGroups(m: Message, bot: Bot)
    requires m.chatType in {"group", "supergroup"} && MessageType(m) != "unknown"
    requires m.replyTo.Some? && m.replyTo.value.fromUser.Some? && m.replyTo.value.fromUser.value.id == bot.id
    ensures Filter(m, bot)
  {
    assert IsReplyToBot(m, bot.id);
  }

  // ---------------------------------------------------------------------
  // Access checks of the inbound handlers
  // ---------------------------------------------------------------------

  datatype Config = Config(allowFrom: set<string>, allowChats: set<string>)

  const NoAccessMessage := "You are not allowed to chat with me. Please deploy your own instance of Bub."

  /** The chat passes `allow_chats`: an empty set admits every chat. */
  predicate ChatAllowed(cfg: Config, chatId: int) {
    cfg.allowChats == {} || IntToString(chatId) in cfg.allowChats
  }

  /** The sender passes `allow_from`: an empty set admits everyone,
      otherwise the user id or the username must be listed. */
  predicate SenderAllowed(cfg: Config, user: User) {
    cfg.allowFrom == {} || IntToString(user.id) in cfg.allowFrom
    || (Given(user.username) && user.username.value in cfg.allowFrom)
  }

  /** The sender's identifiers `_on_text` checks: the user id and, when
      set, the username. */
  function SenderTokens(u: User): set<string> {
    {IntToString(u.id)} + (if Given(u.username) then {u.username.value} else {})
  }

  /** The tokens meet an allow-set exactly when the id or the username is
      in it. */
  lemma SenderTokensMeet(u: User, allow: set<string>)
    ensures SenderTokens(u) * allow != {} <==>
      IntToString(u.id) in allow || (Given(u.username) && u.username.value in allow)
  {
    var id := IntToString(u.id);
    if id in allow {
      assert id in SenderTokens(u) * allow;
    }
    if Given(u.username) && u.username.value in allow {
      assert u.username.value in SenderTokens(u) * allow;
    }
  }

  /** What `_on_text` does with an update. */
  datatype Inbound =
    | Dropped     // no message or user, or the chat is not allowed
    | Denied      // replied "Access denied."
    | Unhandled   // no receive handler installed
    | Delivered   // handed to the receive handler

  /** `_on_text`: `chatId` is the message's chat (None without a message),
      `user` the effective user. */
  function OnText(cfg: Config, chatId: Option<int>, user: Option<User>, hasHandler: bool): (r: Inbound)
    ensures r == Delivered <==>
      chatId.Some? && user.Some? && ChatAllowed(cfg, chatId.value) && SenderAllowed(cfg, user.value) && hasHandler
    ensures r == Denied <==>
      chatId.Some? && user.Some? && ChatAllowed(cfg, chatId.value) && !SenderAllowed(cfg, user.value)
    ensures r == Dropped <==> chatId.None? || user.None? || !ChatAllowed(cfg, chatId.value)
  {
    if chatId.None? || user.None? then Dropped
    else
      var chat := IntToString(chatId.value);
      if cfg.allowChats != {} && chat !in cfg.allowChats then Dropped
      else
        var u := user.value;
        SenderTokensMeet(u, cfg.allowFrom);
        if cfg.allowFrom != {} && SenderTokens(u) * cfg.allowFrom == {} then Denied
        else if !hasHandler then Unhandled
        else Delivered
  }

  /** `_on_start`: the reply to `/start`, None without a message. */
  function StartReply(cfg: Config, chatId: Option<int>): (r: Option<string>)
    ensures r.None? <==> chatId.None?
    ensures r.Some? ==> (r.value == NoAccessMessage <==> !ChatAllowed(cfg, chatId.value))
  {
    if chatId.None? then None
    else if cfg.allowChats != {} && IntToString(chatId.value) !in cfg.allowChats then Some(NoAccessMessage)
    else Some("Bub is online. Send text to start.")
  }

  /** Empty allow-sets deliver every update that has a message, a user and
      a handler. */
  lemma OpenConfigDeliversAll(chatId: int, user: User)
    ensures OnText(Config({}, {}), Some(chatId), Some(user), true) == Delivered
  {
  }

  // ---------------------------------------------------------------------
  // Replies
  // ---------------------------------------------------------------------

  /** What the agent loop hands back; "" stands for an empty or absent
      output and for no error. */
  datatype LoopResult = LoopResult(immediate: string, assistant: string, error: string)

  /** The parts `process_output` logs; nothing is sent when they join to
      blank text. */
  function LoggedParts(o: LoopResult): seq<string> {
    (if o.immediate != "" then [o.immediate] else [])
    + (if o.assistant != "" then [o.assistant] else [])
    + (if o.error != "" then ["error: " + o.error] else [])
  }

  function Count(b: bool): nat {
    if b then 1 else 0
  }

  /** The texts `process_output` sends back: the immediate output, the
      assistant output only when responses are not proactive, and the
      error last. */
  function SendBack(o: LoopResult, proactive: bool): (r: seq<string>)
    ensures |r| == Count(o.immediate != "") + Count(!proactive && o.assistant != "") + Count(o.error != "")
    ensures o.immediate != "" ==> r[0] == o.immediate
    ensures !proactive && o.assistant != "" ==> r[Count(o.immediate != "")] == o.assistant
    ensures o.error != "" ==> r[|r| - 1] == "Error: " + o.error
    ensures forall i :: 0 <= i < |r| ==> r[i] != ""
  {
    (if o.immediate != "" then [o.immediate] else [])
    + (if !proactive && o.assistant != "" then [o.assistant] else [])
    + (if o.error != "" then ["Error: " + o.error] else [])
  }

  /** The reply text `process_output` sends (before splitting), or None
      when it sends nothing: with the app running, a reply goes out exactly
      when the logged parts are not blank and there is something to send
      back. */
  function ReplyText(o: LoopResult, proactive: bool): (r: Option<string>)
    ensures r.Some? <==> Strip(Join("\n\n", LoggedParts(o))) != "" && SendBack(o, proactive) != []
    ensures r.Some? && o.immediate != "" ==> o.immediate <= r.value
    ensures r.Some? && o.error != "" ==> EndsWith(r.value, "Error: " + o.error)
    ensures r.Some? && !proactive && o.assistant != "" && o.immediate == "" ==> o.assistant <= r.value
    ensures r.Some? && !proactive && o.assistant != "" ==> Contains(r.value, o.assistant)
    ensures r.Some? ==> r.value == Join("\n\n", SendBack(o, proactive))
  {
    var back := SendBack(o, proactive);
    if Strip(Join("\n\n", LoggedParts(o))) == "" || back == [] then None
    else
      JoinEnds("\n\n", back);
      if !proactive && o.assistant != "" then
        JoinContainsPart("\n\n", back, Count(o.immediate != ""));
        Some(Join("\n\n", back))
      else
        Some(Join("\n\n", back))
  }

  /** `process_output`'s sends: nothing when there is no reply text, and
      otherwise the reply text cut by `_split_message` at its default
      limit of 4096 characters. */
  method ReplyChunks(o: LoopResult, proactive: bool) returns (chunks: seq<string>)
    ensures ReplyText(o, proactive).None? ==> chunks == []
    ensures ReplyText(o, proactive).Some? ==>
      var text := ReplyText(o, proactive).value;
      && (|text| <= TelegramSplit.MaxMessageLength ==> chunks == [text])
      && (forall i :: 0 <= i < |chunks| ==> |chunks[i]| <= TelegramSplit.MaxMessageLength)
      && (exists gaps :: |gaps| == |chunks| && text == TelegramSplit.Weave(chunks, gaps))
  {
    var reply := ReplyText(o, proactive);
    if reply.None? {
      return [];
    }
    chunks := TelegramSplit.SplitMessage(reply.value, TelegramSplit.MaxMessageLength);
  }

  /** With proactive responses the assistant output never reaches the
      reply; it only decides, through the blank check, whether a reply
      goes out at all. */
  lemma ProactiveReplyIgnoresAssistant(o: LoopResult, other: string)
    ensures ReplyText(o, true).Some? && ReplyText(o.(assistant := other), true).Some? ==>
      ReplyText(o, true) == ReplyText(o.(assistant := other), true)
  {
    assert SendBack(o, true) == SendBack(o.(assistant := other), true);
  }

  /** The index of the first `c` in `s`, if any. */
  function IndexOf(s: string, c: char): (r: Option<nat>)
    ensures r.Some? ==> r.value < |s| && s[r.value] == c && forall j :: 0 <= j < r.value ==> s[j] != c
    ensures r.None? ==> forall j :: 0 <= j < |s| ==> s[j] != c
    decreases |s|
  {
    if |s| == 0 then None
    else if s[0] == c then Some(0)
    else
      match IndexOf(s[1..], c)
      case None => None
      case Some(k) => Some(k + 1)
  }

  /** `session_id.split(":", 1)[1]`: what follows the first colon; the
      source raises IndexError when there is none. */
  function ChatIdOf(sessionId: string): (r: Option<string>)
    ensures r.None? <==> ':' !in sessionId
    ensures r.Some? ==>
      exists k :: && 0 <= k < |sessionId| && sessionId[k] == ':'
                  && ':' !in sessionId[..k] && r.value == sessionId[k + 1..]
  {
    match IndexOf(sessionId, ':')
    case None => None
    case Some(k) =>
      assert ':' !in sessionId[..k];
      Some(sessionId[k + 1..])
  }

  /** The session id `get_session_prompt` builds round-trips through
      `ChatIdOf`. */
  lemma ChatIdOfSession(chat: string)
    ensures ChatIdOf("telegram:" + chat) == Some(chat)
  {
    var s := "telegram:" + chat;
    assert s[8] == ':';
    assert s[..8] == "telegram";
    assert ':' !in s[..8];
  }

  // ---------------------------------------------------------------------
  // Media renderings
  // ---------------------------------------------------------------------

  /** A value as an f-string shows it. */
  function Format(c: Codec, v: Json): string {
    match v
    case Str(s) => s
    case Num(n) => IntToString(n)
    case _ => c.show(v)
  }

  /** `exclude_none({k: media.k for k in keys})`. */
  function ExcludeNone(media: Media, keys: seq<string>): (r: map<string, Json>)
    ensures forall k :: k in r <==> k in keys && Get(media, k) != Null
    ensures forall k :: k in r ==> k in media && r[k] == media[k]
  {
    map k | k in keys && Get(media, k) != Null :: media[k]
  }

  /** The optional caption suffix of photo, video and document messages. */
  function WithCaption(base: string, caption: Option<string>): (r: string)
    ensures base <= r
    ensures r == base <==> !Given(caption)
    ensures Given(caption) ==> EndsWith(r, " Caption: " + caption.value)
  {
    if Given(caption) then
      var r := base + " Caption: " + caption.value;
      assert r == base + (" Caption: " + caption.value);
      r
    else base
  }

  /** `value or default` on a media attribute. */
  function OrDefault(c: Codec, v: Json, default: string): string {
    if Truthy(v) then Format(c, v) else default
  }

  /** A rendering: the one-line text and the metadata, None when absent. */
  type Parsed = (string, Option<map<string, Json>>)

  function ParsePhoto(m: Message): (r: Parsed)
    ensures r.1.None? <==> |m.photo| == 0
    ensures r.0 == WithCaption("[Photo message]", m.caption)
  {
    var formatted := WithCaption("[Photo message]", m.caption);
    if |m.photo| == 0 then (formatted, None)
    else (formatted, Some(ExcludeNone(m.photo[|m.photo| - 1], ["file_id", "file_size", "width", "height"])))
  }

  function ParseAudio(c: Codec, m: Message): (r: Parsed)
    ensures r.1.None? <==> m.audio.None?
    ensures m.audio.Some? ==> "[Audio: " <= r.0 && EndsWith(r.0, "s)]")
  {
    if m.audio.None? then ("[Audio]", None)
    else
      var a := m.audio.value;
      var title := OrDefault(c, Get(a, "title"), "Unknown");
      var performer := OrDefault(c, Get(a, "performer"), "");
      var duration := OrDefault(c, Get(a, "duration"), "0");
      var metadata := ExcludeNone(a, ["file_id", "file_size", "duration", "title", "performer"]);
      var tail := title + " (" + duration + "s)]";
      if performer != "" then ("[Audio: " + (performer + " - " + tail), Some(metadata))
      else ("[Audio: " + tail, Some(metadata))
  }

  function ParseSticker(c: Codec, m: Message): (r: Parsed)
    ensures r.1.None? <==> m.sticker.None?
    ensures m.sticker.Some? ==> "[Sticker" <= r.0 && EndsWith(r.0, "]")
  {
    if m.sticker.None? then ("[Sticker]", None)
    else
      var s := m.sticker.value;
      var emoji := OrDefault(c, Get(s, "emoji"), "");
      var setName := OrDefault(c, Get(s, "set_name"), "");
      var metadata := ExcludeNone(s, ["file_id", "width", "height", "emoji", "set_name", "is_animated", "is_video"]);
      if emoji != "" then ("[Sticker" + (": " + emoji + " from " + setName + "]"), Some(metadata))
      else ("[Sticker" + (" from " + setName + "]"), Some(metadata))
  }

  function ParseVideo(c: Codec, m: Message): (r: Parsed)
    ensures r.1.None? <==> m.video.None?
    ensures "[Video: " <= r.0
    ensures Given(m.caption) ==> EndsWith(r.0, " Caption: " + m.caption.value)
  {
    var duration := if m.video.Some? then Format(c, Get(m.video.value, "duration")) else "0";
    var formatted := WithCaption("[Video: " + duration + "s]", m.caption);
    assert "[Video: " <= "[Video: " + duration + "s]";
    if m.video.None? then (formatted, None)
    else (formatted, Some(ExcludeNone(m.video.value, ["file_id", "file_size", "width", "height", "duration"])))
  }

  function ParseVoice(c: Codec, m: Message): (r: Parsed)
    ensures r.1.None? <==> m.voice.None?
    ensures "[Voice message: " <= r.0
  {
    var duration := if m.voice.Some? then Format(c, Get(m.voice.value, "duration")) else "0";
    var formatted := "[Voice message: " + (duration + "s]");
    if m.voice.None? then (formatted, None)
    else (formatted, Some(ExcludeNone(m.voice.value, ["file_id", "duration"])))
  }

  function ParseDocument(c: Codec, m: Message): (r: Parsed)
    ensures r.1.None? <==> m.document.None?
    ensures m.document.Some? ==> "[Document: " <= r.0
    ensures m.document.Some? && Given(m.caption) ==> EndsWith(r.0, " Caption: " + m.caption.value)
  {
    if m.document.None? then ("[Document]", None)
    else
      var d := m.document.value;
      var fileName := OrDefault(c, Get(d, "file_name"), "unknown");
      var mimeType := OrDefault(c, Get(d, "mime_type"), "unknown");
      var base := "[Document: " + (fileName + " (" + mimeType + ")]");
      var formatted := WithCaption(base, m.caption);
      (formatted, Some(ExcludeNone(d, ["file_id", "file_name", "file_size", "mime_type"])))
  }

  function ParseVideoNote(c: Codec, m: Message): (r: Parsed)
    ensures r.1.None? <==> m.videoNote.None?
    ensures "[Video note: " <= r.0
  {
    var duration := if m.videoNote.Some? then Format(c, Get(m.videoNote.value, "duration")) else "0";
    var formatted := "[Video note: " + (duration + "s]");
    if m.videoNote.None? then (formatted, None)
    else (formatted, Some(ExcludeNone(m.videoNote.value, ["file_id", "duration"])))
  }

  /** `_parse_message`: text messages are their text, media messages go to
      their renderer, anything else is "[Unknown message type]". */
  function ParseMessage(c: Codec, m: Message): (r: Parsed)
    ensures MessageType(m) == "text" ==> r == (m.text.value, None)
    ensures MessageType(m) == "unknown" ==> r == ("[Unknown message type]", None)
  {
    var kind := MessageType(m);
    if kind == "text" then (m.text.value, None)
    else if kind == "photo" then ParsePhoto(m)
    else if kind == "audio" then ParseAudio(c, m)
    else if kind == "sticker" then ParseSticker(c, m)
    else if kind == "video" then ParseVideo(c, m)
    else if kind == "voice" then ParseVoice(c, m)
    else if kind == "document" then ParseDocument(c, m)
    else if kind == "video_note" then ParseVideoNote(c, m)
    else ("[Unknown message type]", None)
  }

  /** Reached through the classifier, every media renderer finds its media:
      a message carries metadata exactly when it is a media message. */
  lemma MetadataIffMedia(c: Codec, m: Message)
    ensures ParseMessage(c, m).1.Some? <==> MessageType(m) != "text" && MessageType(m) != "unknown"
  {
  }

  /** Photo, video and document renderings end with the caption when the
      message has one. */
  lemma CaptionShown(c: Codec, m: Message)
    requires MessageType(m) in {"photo", "video", "document"} && Given(m.caption)
    ensures EndsWith(ParseMessage(c, m).0, " Caption: " + m.caption.value)
  {
  }
}
