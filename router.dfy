/**
 * The two Slack event handlers of app.py: which `app_mention` and `message`
 * events reach `process_with_assistant`, and with what prompt and thread key.
 * An event is a record of the fields the handlers read; a field Slack left
 * out is `None` (the text field, read with a default of "", is "" when absent).
 */
module Router {
  import opened Base
  import opened Text
  import opened Mention
  import opened Relay

  datatype MentionEvent = MentionEvent(
    text: string, channel: string, user: Option<string>, ts: string, threadTs: Option<string>)

  datatype MessageEvent = MessageEvent(
    text: string, channel: string, channelType: Option<string>, user: Option<string>,
    botId: Option<string>, subtype: Option<string>, ts: string, threadTs: Option<string>)

  /** The Slack thread a reply goes to: the event's thread when it has one, else the event itself. */
  function ThreadKey(threadTs: Option<string>, ts: string): string
  {
    if threadTs.Some? then threadTs.value else ts
  }

  /** Python truthiness of an optional string field. */
  predicate Truthy(v: Option<string>)
  {
    v.Some? && v.value != []
  }

  /** `f"<@{BOT_USER_ID}>"`: an unknown id is formatted as the word None. */
  function FormattedMention(botId: Option<string>): string
  {
    MentionToken(if botId.Some? then botId.value else "None")
  }

  /** The channel types the message handler answers in. */
  predicate Supported(channelType: Option<string>)
  {
    channelType.Some? && channelType.value in ["channel", "group", "im", "mpim"]
  }

  /** handle_mention_assistant: the request it hands on, if any. */
  function OnMention(botId: Option<string>, e: MentionEvent): (r: Option<Request>)
    ensures r.Some? ==> Known(botId) && r.value.prompt == CleanMention(e.text, botId) && r.value.prompt != []
  {
    if !Known(botId) then None
    else
      var prompt := CleanMention(e.text, botId);
      if prompt == [] then None
      else Some(Request(prompt, ThreadKey(e.threadTs, e.ts), e.channel))
  }

  /** handle_message_events: the filters in the handler's order, then the request. */
  function OnMessage(botId: Option<string>, e: MessageEvent): (r: Option<Request>)
    ensures r.Some? ==> r.value.prompt == e.text && e.text != [] && Truthy(e.user) && !Truthy(e.botId)
  {
    if e.subtype.Some? && e.subtype.value != "thread_broadcast" then None
    else if e.user == botId || Truthy(e.botId) then None
    else if StartsWith(Trim(e.text), FormattedMention(botId)) then None
    else if !Supported(e.channelType) then None
    else if e.text == [] || !Truthy(e.user) then None
    else Some(Request(e.text, ThreadKey(e.threadTs, e.ts), e.channel))
  }

  /**
   * A mention is handed on exactly when the bot id is known and the cleaned
   * text is not empty; the prompt is then that cleaned text, non-empty and
   * stripped, in the event's thread.
   */
  lemma MentionAdmission(botId: Option<string>, e: MentionEvent)
    ensures OnMention(botId, e).Some? <==> Known(botId) && CleanMention(e.text, botId) != []
    ensures OnMention(botId, e).Some? ==>
      var r := OnMention(botId, e).value;
      && r.prompt == CleanMention(e.text, botId)
      && r.prompt != [] && Trimmed(r.prompt) && |r.prompt| <= |e.text|
      && r.threadTs == ThreadKey(e.threadTs, e.ts) && r.channel == e.channel
  {
  }

  /** A bare mention, with nothing but whitespace after it, is dropped. */
  lemma {:induction false} BareMentionDropped(ws: string, id: string, trail: string, e: MentionEvent)
    requires id != [] && AllSpace(ws) && AllSpace(trail) && e.text == ws + MentionToken(id) + trail
    ensures OnMention(Some(id), e) == None
  {
    CleanLeadingMention(ws, id, trail);
    TrimUnique([], [], trail);
    assert [] + [] + trail == trail;
  }

  /** "<@BOT> hello" is handed on as the prompt "hello", in the event's thread. */
  lemma MentionHello(id: string, e: MentionEvent)
    requires id != [] && e.text == MentionToken(id) + " hello"
    ensures OnMention(Some(id), e) == Some(Request("hello", ThreadKey(e.threadTs, e.ts), e.channel))
  {
    assert e.text == [] + MentionToken(id) + " hello";
    CleanLeadingMention([], id, " hello");
    HelloStripped();
  }

  /** `" hello".strip()` */
  lemma HelloStripped()
    ensures Trim(" hello") == "hello"
  {
    var h := "hello";
    assert !IsSpace(h[0]) && !IsSpace(h[|h| - 1]);
    TrimUnique(" ", h, []);
    assert " " + h + [] == " hello";
  }

  /** The message handler's mention test on `strip()` agrees with the mention handler's on `lstrip()`. */
  lemma MentionTestsAgree(text: string, id: string)
    requires id != []
    ensures StartsWith(Trim(text), MentionToken(id)) <==> StartsWith(TrimStart(text), MentionToken(id))
  {
    var tok := MentionToken(id);
    var t := TrimStart(text);
    if StartsWith(t, tok) {
      StripKeepsMention(t, tok);
    } else if StartsWith(TrimEnd(t), tok) {
      StripPrefixOfLeft(t, tok);
    }
  }

  /** `rstrip()` keeps a leading mention token, which ends in a non-space. */
  lemma StripKeepsMention(t: string, tok: string)
    requires StartsWith(t, tok) && tok != [] && tok[0] == '<' && tok[|tok| - 1] == '>'
    ensures StartsWith(TrimEnd(t), tok)
  {
    var rest := t[|tok|..];
    PrefixSplit(t, tok);
    assert TrimStart(tok + rest) == tok + rest;
    TrimKeepsPrefix(tok, rest);
  }

  /** A string that starts with a prefix is that prefix and the rest. */
  lemma PrefixSplit(t: string, tok: string)
    requires StartsWith(t, tok)
    ensures t == tok + t[|tok|..]
  {
  }

  /** `rstrip()` only shortens, so a prefix of its result is a prefix of its argument. */
  lemma StripPrefixOfLeft(t: string, tok: string)
    requires StartsWith(TrimEnd(t), tok)
    ensures StartsWith(t, tok)
  {
    var r := TrimEnd(t);
    assert t[..|tok|] == r[..|tok|];
  }

  /**
   * No message is answered by both handlers: for a known bot, a message the
   * mention handler would strip a mention from is dropped by the message
   * handler, and a message the message handler keeps is not one the
   * mention handler would strip.
   */
  lemma NoDoubleHandling(id: string, text: string, e: MessageEvent)
    requires id != [] && e.text == text
    ensures StartsWith(TrimStart(text), MentionToken(id)) ==> OnMessage(Some(id), e) == None
    ensures OnMessage(Some(id), e).Some? ==> CleanMention(text, Some(id)) == Trim(text)
  {
    MentionTestsAgree(text, id);
  }

  /** The bot's own posts, and any bot's, are never handed on. */
  lemma OwnMessagesIgnored(botId: Option<string>, e: MessageEvent)
    requires e.user == botId || Truthy(e.botId)
    ensures OnMessage(botId, e) == None
  {
  }

  /**
   * What a handed-on message looks like: no subtype but thread_broadcast,
   * a supported channel type, a truthy user other than the bot, no bot id,
   * and the raw unstripped text as the prompt.
   */
  lemma MessageAdmitted(botId: Option<string>, e: MessageEvent)
    requires OnMessage(botId, e).Some?
    ensures e.subtype == None || e.subtype == Some("thread_broadcast")
    ensures Supported(e.channelType) && Truthy(e.user) && e.user != botId && !Truthy(e.botId)
    ensures !StartsWith(Trim(e.text), FormattedMention(botId))
    ensures OnMessage(botId, e).value == Request(e.text, ThreadKey(e.threadTs, e.ts), e.channel)
    ensures e.text != []
  {
  }

  /** Conversely, a plain message from a person in a supported channel is handed on as it is. */
  lemma PlainMessageForwarded(botId: Option<string>, e: MessageEvent)
    requires e.subtype == None || e.subtype == Some("thread_broadcast")
    requires Supported(e.channelType) && Truthy(e.user) && e.user != botId && !Truthy(e.botId)
    requires e.text != [] && !StartsWith(Trim(e.text), FormattedMention(botId))
    ensures OnMessage(botId, e) == Some(Request(e.text, ThreadKey(e.threadTs, e.ts), e.channel))
  {
  }

  /** Edits and other subtypes are dropped, whatever they say. */
  lemma EditsIgnored(botId: Option<string>, e: MessageEvent)
    requires e.subtype == Some("message_changed")
    ensures OnMessage(botId, e) == None
  {
  }

  /**
   * With the bot id unknown the mention handler drops everything, and the
   * message handler also drops every message without a user, since the
   * missing user compares equal to the missing id.
   */
  lemma UnknownBot(m: MentionEvent, e: MessageEvent)
    requires e.user == None
    ensures OnMention(None, m) == None && OnMessage(None, e) == None
  {
  }
}
