/** The helpers of the Telegram send script
    (`src/bub/skills/telegram/scripts/telegram_send.py`): turning the
    escaped newlines a shell passes along into real ones, building the
    request payloads, and resolving the command-line arguments.

    `markdownify` (telegramify-markdown) is foreign and is passed in as a
    function; the HTTP request itself is not modelled. */
module TelegramSend {
  import opened Base
  import opened Json
  import opened Text

  // ---------------------------------------------------------------------
  // unescape_newlines
  // ---------------------------------------------------------------------

  /** The three replacements of `unescape_newlines`, in order. */
  function UnescapeLf(s: string): string {
    ReplaceAll(s, "\\n", "\n")
  }

  function UnescapeCrLf(s: string): string {
    ReplaceAll(s, "\\r\\n", "\r\n")
  }

  function UnescapeCr(s: string): string {
    ReplaceAll(s, "\\r", "\r")
  }

  /** `unescape_newlines`. Its middle replacement never fires, so the
      result is that of the first and the last alone. */
  function Unescape(text: string): (r: string)
    ensures r == UnescapeCr(UnescapeLf(text))
  {
    CrLfStepIsIdentity(text);
    UnescapeCr(UnescapeCrLf(UnescapeLf(text)))
  }

  /** A pattern can only occur where its first character does. */
  lemma OccurrenceHasFirst(hay: string, needle: string)
    requires |needle| > 0 && Contains(hay, needle)
    ensures needle[0] in hay
  {
    ContainsIff(hay, needle);
    var i :| OccursAt(hay, needle, i);
    assert hay[i] == hay[i..i + |needle|][0];
  }

  /** An escaped CR LF holds an escaped LF. */
  lemma CrLfHoldsLf(hay: string)
    requires Contains(hay, "\\r\\n")
    ensures Contains(hay, "\\n")
  {
    ContainsIff(hay, "\\r\\n");
    var i :| OccursAt(hay, "\\r\\n", i);
    assert hay[i + 2..i + 4] == hay[i..i + 4][2..];
    assert OccursAt(hay, "\\n", i + 2);
    ContainsIff(hay, "\\n");
  }

  /** After the first replacement no escaped LF is left. */
  lemma NoEscapedLfAfterFirst(text: string)
    ensures !Contains(UnescapeLf(text), "\\n")
  {
    NoPairAfterReplace(text, "\\n", "\n", "\\n");
  }

  /** The second replacement (line 37 of the script) never changes
      anything: every escaped CR LF already lost its `\n` half to the
      first one. */
  lemma CrLfStepIsIdentity(text: string)
    ensures UnescapeCrLf(UnescapeLf(text)) == UnescapeLf(text)
  {
    var s := UnescapeLf(text);
    NoEscapedLfAfterFirst(text);
    if Contains(s, "\\r\\n") {
      CrLfHoldsLf(s);
    }
    ReplaceAbsent(s, "\\r\\n", "\r\n");
  }

  /** The result holds no backslash followed by `n` and none followed by
      `r`. */
  lemma UnescapeLeavesNoEscapes(text: string)
    ensures !Contains(Unescape(text), "\\n")
    ensures !Contains(Unescape(text), "\\r")
  {
    var s := UnescapeLf(text);
    CrLfStepIsIdentity(text);
    NoEscapedLfAfterFirst(text);
    NoPairAfterReplace(s, "\\r", "\r", "\\n");
    NoPairAfterReplace(s, "\\r", "\r", "\\r");
  }

  /** Text without a backslash comes back unchanged. */
  lemma UnescapeWithoutBackslash(text: string)
    requires '\\' !in text
    ensures Unescape(text) == text
  {
    if Contains(text, "\\n") {
      OccurrenceHasFirst(text, "\\n");
    }
    ReplaceAbsent(text, "\\n", "\n");
    if Contains(text, "\\r\\n") {
      OccurrenceHasFirst(text, "\\r\\n");
    }
    ReplaceAbsent(text, "\\r\\n", "\r\n");
    if Contains(text, "\\r") {
      OccurrenceHasFirst(text, "\\r");
    }
    ReplaceAbsent(text, "\\r", "\r");
  }

  /** A two-character replacement over `x + m + y`, when no occurrence
      straddles either seam. */
  lemma ReplaceThree(x: string, m: string, y: string, pat: string, rep: string)
    requires |pat| == 2 && |m| > 0
    requires !(|x| > 0 && x[|x| - 1] == pat[0] && m[0] == pat[1])
    requires !(|y| > 0 && m[|m| - 1] == pat[0] && y[0] == pat[1])
    ensures ReplaceAll(x + m + y, pat, rep)
         == ReplaceAll(x, pat, rep) + ReplaceAll(m, pat, rep) + ReplaceAll(y, pat, rep)
  {
    ReplaceAppend(m, y, pat, rep);
    assert (m + y)[0] == m[0];
    ReplaceAppend(x, m + y, pat, rep);
    ConcatAssoc(x, m, y);
    ConcatAssoc(ReplaceAll(x, pat, rep), ReplaceAll(m, pat, rep), ReplaceAll(y, pat, rep));
  }

  /** An escaped `\n` anywhere in the text becomes a real newline, and the
      text around it is unescaped on its own. */
  lemma EscapedLfBecomesNewline(x: string, y: string)
    ensures Unescape(x + "\\n" + y) == Unescape(x) + "\n" + Unescape(y)
  {
    ReplaceThree(x, "\\n", y, "\\n", "\n");
    assert ReplaceAll("\\n", "\\n", "\n") == "\n";
    var s := UnescapeLf(x) + "\n" + UnescapeLf(y);
    CrLfStepIsIdentity(x + "\\n" + y);
    CrLfStepIsIdentity(x);
    CrLfStepIsIdentity(y);
    ReplaceThree(UnescapeLf(x), "\n", UnescapeLf(y), "\\r", "\r");
    assert ReplaceAll("\n", "\\r", "\r") == "\n";
  }

  /** An escaped `\r\n` becomes a real CR LF, as the script's doc comment
      says, although the replacement meant for it never fires. */
  lemma EscapedCrLfBecomesCrLf(x: string, y: string)
    ensures Unescape(x + "\\r\\n" + y) == Unescape(x) + "\r\n" + Unescape(y)
  {
    ReplaceThree(x, "\\r\\n", y, "\\n", "\n");
    assert ReplaceAll("\\r\\n", "\\n", "\n") == "\\r\n" by {
      assert "\\r\\n"[1..] == "r\\n";
      assert "r\\n"[1..] == "\\n";
    }
    CrLfStepIsIdentity(x + "\\r\\n" + y);
    CrLfStepIsIdentity(x);
    CrLfStepIsIdentity(y);
    ReplaceThree(UnescapeLf(x), "\\r\n", UnescapeLf(y), "\\r", "\r");
    assert ReplaceAll("\\r\n", "\\r", "\r") == "\r\n" by {
      assert "\\r\n"[2..] == "\n";
    }
  }

  // ---------------------------------------------------------------------
  // Payloads
  // ---------------------------------------------------------------------

  /** A request: the API method's URL and the JSON body. */
  datatype Request = Request(url: string, payload: map<string, Json>)

  /** The text `send_message` hands to `markdownify`: unescaped, and
      prefixed by `@username ` when a mention is asked for. */
  function SendText(text: string, mention: Option<string>): (r: string)
    ensures Given(mention) ==> r == "@" + mention.value + " " + Unescape(text)
    ensures !Given(mention) ==> r == Unescape(text)
  {
    var t := Unescape(text);
    if Given(mention) then "@" + mention.value + " " + t else t
  }

  /** `send_message`'s request: the converted text without trailing
      newlines, MarkdownV2, and `reply_to_message_id` only when the id is
      truthy. */
  function SendRequest(
    markdownify: string -> string, token: string, chatId: string, text: string,
    replyTo: Option<int>, mention: Option<string>
  ): (r: Request)
    ensures r.url == "https://api.telegram.org/bot" + token + "/sendMessage"
    ensures r.payload.Keys == {"chat_id", "text", "parse_mode"}
                              + (if replyTo.Some? && replyTo.value != 0 then {"reply_to_message_id"} else {})
    ensures r.payload["parse_mode"] == Str("MarkdownV2")
    ensures r.payload["chat_id"] == Str(chatId)
    ensures r.payload["text"].Str?
    ensures var sent := r.payload["text"].s; var md := markdownify(SendText(text, mention));
      && sent <= md
      && (sent == [] || sent[|sent| - 1] != '\n')
      && forall i :: |sent| <= i < |md| ==> md[i] == '\n'
    ensures "reply_to_message_id" in r.payload ==> r.payload["reply_to_message_id"] == Num(replyTo.value)
  {
    var converted := TrimEndChar(markdownify(SendText(text, mention)), '\n');
    var payload := map["chat_id" := Str(chatId), "text" := Str(converted), "parse_mode" := Str("MarkdownV2")];
    var payload := if replyTo.Some? && replyTo.value != 0 then payload["reply_to_message_id" := Num(replyTo.value)] else payload;
    Request("https://api.telegram.org/bot" + token + "/sendMessage", payload)
  }

  /** `edit_message`'s request: the text is converted as it is, with no
      unescaping and no trimming. */
  function EditRequest(markdownify: string -> string, token: string, chatId: string, messageId: int, text: string): (r: Request)
    ensures r.url == "https://api.telegram.org/bot" + token + "/editMessageText"
    ensures r.payload.Keys == {"chat_id", "message_id", "text", "parse_mode"}
    ensures r.payload["chat_id"] == Str(chatId) && r.payload["message_id"] == Num(messageId)
    ensures r.payload["text"] == Str(markdownify(text)) && r.payload["parse_mode"] == Str("MarkdownV2")
  {
    Request("https://api.telegram.org/bot" + token + "/editMessageText",
      map["chat_id" := Str(chatId), "message_id" := Num(messageId), "text" := Str(markdownify(text)),
          "parse_mode" := Str("MarkdownV2")])
  }

  // ---------------------------------------------------------------------
  // Arguments
  // ---------------------------------------------------------------------

  /** The parsed command line of the script. */
  datatype Args = Args(
    chatId: string,
    message: string,
    token: Option<string>,
    replyTo: Option<int>,
    sourceIsBot: bool,
    sourceUsername: Option<string>)

  /** The script's exits with status 1 before sending. */
  datatype CliError = MissingToken | MissingSourceUsername

  /** What `main` sends with. */
  datatype Plan = Plan(token: string, chatId: string, message: string, replyTo: Option<int>, mention: Option<string>)

  /** `main` up to the send: the token from `--token`, else from the
      environment (`env`); a chat id stripped of white space; and for a
      bot source, no reply but an `@username` mention. */
  function Resolve(args: Args, env: Option<string>): (r: Result<Plan, CliError>)
    ensures r == Failure(MissingToken) <==> !Given(args.token) && !Given(env)
    ensures r == Failure(MissingSourceUsername) <==>
      (Given(args.token) || Given(env)) && args.sourceIsBot && !Given(args.sourceUsername)
    ensures r.Success? ==>
      && r.value.token == (if Given(args.token) then args.token.value else env.value)
      && r.value.chatId == Strip(args.chatId)
      && r.value.message == args.message
    ensures r.Success? && args.sourceIsBot ==> r.value.replyTo.None? && r.value.mention == args.sourceUsername
    ensures r.Success? && !args.sourceIsBot ==> r.value.replyTo == args.replyTo && r.value.mention.None?
  {
    var token := if Given(args.token) then args.token else env;
    if !Given(token) then Failure(MissingToken)
    else if args.sourceIsBot && !Given(args.sourceUsername) then Failure(MissingSourceUsername)
    else if args.sourceIsBot then Success(Plan(token.value, Strip(args.chatId), args.message, None, args.sourceUsername))
    else Success(Plan(token.value, Strip(args.chatId), args.message, args.replyTo, None))
  }

  /** For a bot source the message goes out as an `@username` mention and
      never as a reply. */
  lemma BotSourceMentionsInsteadOfReplying(md: string -> string, args: Args, env: Option<string>)
    requires Resolve(args, env).Success? && args.sourceIsBot
    ensures var p := Resolve(args, env).value;
      var req := SendRequest(md, p.token, p.chatId, p.message, p.replyTo, p.mention);
      && "reply_to_message_id" !in req.payload
      && "@" + args.sourceUsername.value + " " <= SendText(p.message, p.mention)
  {
    var p := Resolve(args, env).value;
    assert p.replyTo.None? && p.mention == args.sourceUsername;
    var u := args.sourceUsername.value;
    assert SendText(p.message, p.mention) == ("@" + u + " ") + Unescape(p.message);
  }
}
