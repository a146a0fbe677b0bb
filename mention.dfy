/**
 * `clean_mention` (app.py): removes one leading `<@ID>` mention of the bot,
 * with whitespace around it, and strips the rest. The bot id is assumed to
 * hold no regular-expression metacharacters, so the pattern
 * `^\s*<@ID>\s*` is a literal prefix after leading whitespace.
 */
module Mention {
  import opened Base
  import opened Text

  /** The bot's user id as learned at start-up; `None` when the lookup failed. */
  predicate Known(botId: Option<string>)
  {
    botId.Some? && botId.value != []
  }

  /** The `<@ID>` token Slack puts in a message that mentions user ID. */
  function MentionToken(id: string): (t: string)
    ensures |t| == |id| + 3 && t[0] == '<' && t[1] == '@' && t[|t| - 1] == '>'
    ensures t[2..|t| - 1] == id
  {
    "<@" + id + ">"
  }

  /** The cleaned prompt of a mention event. */
  function CleanMention(text: string, botId: Option<string>): (r: string)
    ensures Trimmed(r) && |r| <= |text|
  {
    if Known(botId) then
      var tok := MentionToken(botId.value);
      var t := TrimStart(text);
      if StartsWith(t, tok) then Trim(t[|tok|..]) else Trim(text)
    else
      Trim(text)
  }

  /** Without a known bot id the text is only stripped. */
  lemma CleanUnknown(text: string, botId: Option<string>)
    requires !Known(botId)
    ensures CleanMention(text, botId) == Trim(text)
  {
  }

  /** whitespace + `<@ID>` + rest cleans to the stripped rest. */
  lemma {:induction false} CleanLeadingMention(ws: string, id: string, rest: string)
    requires AllSpace(ws) && id != []
    ensures CleanMention(ws + MentionToken(id) + rest, Some(id)) == Trim(rest)
  {
    var tok := MentionToken(id);
    Assoc(ws, tok, rest);
    TrimStartSkipsSpace(ws, tok + rest);
    assert (tok + rest)[0] == '<';
    TrimStartNoLead(tok + rest);
    PrefixOfConcat(tok, rest);
  }

  /** A text that does not open with the mention is only stripped. */
  lemma CleanOtherText(text: string, id: string)
    requires id != [] && !StartsWith(TrimStart(text), MentionToken(id))
    ensures CleanMention(text, Some(id)) == Trim(text)
  {
  }

  /**
   * Only the one anchored mention goes: a second mention right after the
   * first is still at the head of the cleaned prompt.
   */
  lemma MentionRemovedOnce(id: string, rest: string)
    requires id != []
    ensures StartsWith(CleanMention(MentionToken(id) + MentionToken(id) + rest, Some(id)), MentionToken(id))
  {
    var tok := MentionToken(id);
    assert tok + tok + rest == [] + tok + (tok + rest);
    CleanLeadingMention([], id, tok + rest);
    TrimKeepsPrefix(tok, rest);
  }

  /** A mention in the middle of the text is kept. */
  lemma InnerMentionKept(word: string, id: string, rest: string)
    requires id != [] && word != [] && !IsSpace(word[0]) && word[0] != '<'
    ensures CleanMention(word + MentionToken(id) + rest, Some(id)) == Trim(word + MentionToken(id) + rest)
  {
    var text := word + MentionToken(id) + rest;
    assert text[0] == word[0];
    assert TrimStart(text) == text;
  }
}
