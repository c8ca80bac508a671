/** What one `messageCreate` event does, stated about `Handle`: which messages
    are ignored, what `!clearhistory` and `status?` do, which history the chat
    is given, when the answer is recorded and which reply goes out.
    `HandleMessage` has the outcome `Handle` gives, so all of this holds of the
    step-by-step handler too. */
module HandlerProperties {
  import opened Wrappers
  import opened Text
  import opened Conversation
  import opened SessionMap
  import opened MessageHandler

  /** The message is dropped by one of the filters at lines 99, 123 and 126 of the handler. */
  predicate Ignored(msg: Message, channel: string) {
    || msg.authorIsBot
    || (&& msg.content != StatusCommand && msg.content != ClearCommand
        && (msg.channelId != channel || IsBlank(msg.content)))
  }

  /** The message gets through every filter and the typing indicator goes out,
      so the chat is called. */
  predicate ReachesChat(msg: Message, channel: string, typingOk: bool) {
    && !msg.authorIsBot
    && msg.content != StatusCommand && msg.content != ClearCommand
    && msg.channelId == channel && !IsBlank(msg.content)
    && typingOk
  }

  /** The bot stays silent exactly for the filtered messages, and a filtered
      message leaves the map as it was, reaches no chat and saves nothing. */
  lemma SilentIffIgnored(s: Sessions, msg: Message, channel: string, typingOk: bool, gen: Generation)
    requires WellFormed(s)
    ensures var o := Handle(s, msg, channel, typingOk, gen);
      o.replies == [] <==> Ignored(msg, channel)
    ensures var o := Handle(s, msg, channel, typingOk, gen);
      Ignored(msg, channel) ==> o.sessions == s && o.sent == None && o.saved == None
  {
    if !Ignored(msg, channel) && !msg.authorIsBot && msg.content != StatusCommand
      && msg.content != ClearCommand && typingOk
    {
      var o := Converse(s, KeyOf(msg), msg.content, gen);
      assert |o.replies| == 1;
    }
  }

  /** `status?` is answered in any channel, by anyone but a bot, with the
      greeting and the channel report, and touches nothing. */
  lemma StatusAnsweredAnywhere(s: Sessions, msg: Message, channel: string, typingOk: bool, gen: Generation)
    requires WellFormed(s)
    requires !msg.authorIsBot && msg.content == StatusCommand
    ensures var o := Handle(s, msg, channel, typingOk, gen);
      && o.replies == [Greeting(msg.authorName, msg.authorId), ChannelReport(msg.channelName)]
      && o.sessions == s && o.sent == None && o.saved == None
  {
  }

  /** `!clearhistory` deletes the caller's own session and no other, keeps the
      remaining keys in their order (the caller's key is cut out of its place),
      saves the result and confirms. */
  lemma ClearRemovesOnlyCallersKey(s: Sessions, msg: Message, channel: string, typingOk: bool, gen: Generation)
    requires WellFormed(s)
    requires !msg.authorIsBot && msg.content == ClearCommand
    ensures var o := Handle(s, msg, channel, typingOk, gen);
      && KeyOf(msg) !in o.sessions.contents
      && (forall k :: k != KeyOf(msg) ==> Lookup(o.sessions, k) == Lookup(s, k))
      && (KeyOf(msg) !in s.order ==> o.sessions.order == s.order)
      && (forall i :: 0 <= i < |s.order| && s.order[i] == KeyOf(msg) ==>
            o.sessions.order == s.order[..i] + s.order[i + 1..])
      && o.saved == Some(Pairs(o.sessions))
      && o.replies == [HistoryCleared] && o.sent == None
  {
    RemoveLookup(s, KeyOf(msg));
  }

  /** `!clearhistory` is handled before the channel filter and the typing
      indicator: its outcome is the same whatever the configured channel. */
  lemma ClearIgnoresChannel(s: Sessions, msg: Message, c1: string, c2: string,
                            t1: bool, t2: bool, g1: Generation, g2: Generation)
    requires WellFormed(s)
    requires !msg.authorIsBot && msg.content == ClearCommand
    ensures Handle(s, msg, c1, t1, g1) == Handle(s, msg, c2, t2, g2)
  {
  }

  /** When `sendTyping` fails the apology is sent and nothing is changed. */
  lemma TypingFailureApologizes(s: Sessions, msg: Message, channel: string, gen: Generation)
    requires WellFormed(s)
    requires ReachesChat(msg, channel, true)
    ensures var o := Handle(s, msg, channel, false, gen);
      o.replies == [Apology] && o.sessions == s && o.sent == None && o.saved == None
  {
  }

  /** A message that gets through the filters, with the typing indicator sent,
      is handled by the conversation step under its own key. */
  lemma ReachesConverse(s: Sessions, msg: Message, channel: string, gen: Generation)
    requires WellFormed(s)
    requires ReachesChat(msg, channel, true)
    ensures Handle(s, msg, channel, true, gen) == Converse(s, KeyOf(msg), msg.content, gen)
  {
  }

  /** The history handed to the chat is the stored one with the persona in
      front if it was not already first, followed by exactly one user turn
      holding the message. */
  lemma SentHistory(s: Sessions, key: string, content: string, gen: Generation)
    requires WellFormed(s)
    ensures var o := Converse(s, key, content, gen);
      var stored := Lookup(s, key);
      && o.sent.Some?
      && o.sent.value == EnsurePersona(stored) + [Turn(User, content)]
      && HasPersona(o.sent.value)
      && |o.sent.value| == |stored| + (if HasPersona(stored) then 1 else 2)
      && o.sent.value[|o.sent.value| - 1 - |stored|..|o.sent.value| - 1] == stored
  {
    var stored := Lookup(s, key);
    EnsurePersonaShape(stored);
    var e := EnsurePersona(stored);
    assert (e + [Turn(User, content)])[|e| - |stored|..|e|] == e[|e| - |stored|..];
  }

  /** A failed call or a blank answer sets nothing and saves nothing. When the
      persona was already first the user's turn stays in the stored array all
      the same (it was pushed in place); otherwise the map is untouched. */
  lemma UnansweredNotCommitted(s: Sessions, key: string, content: string, gen: Generation)
    requires WellFormed(s)
    requires !Answered(gen)
    ensures var o := Converse(s, key, content, gen);
      var stored := Lookup(s, key);
      && o.replies == [if gen.GenerationFailed? then Apology else NothingToSay]
      && o.saved == None
      && o.sessions.order == s.order
      && Lookup(o.sessions, key) == (if HasPersona(stored) then stored + [Turn(User, content)] else stored)
      && (forall k :: k != key ==> Lookup(o.sessions, k) == Lookup(s, k))
  {
    var stored := Lookup(s, key);
    if HasPersona(stored) {
      PutLookup(s, key, stored + [Turn(User, content)]);
    }
  }

  /** The outcome of a conversation step whose answer is not blank: the
      persona-ensured history with the user's turn and the trimmed answer is
      set under the key and saved, and the reply is chosen from the answer. */
  lemma NonBlankAnswerOutcome(s: Sessions, key: string, content: string, raw: string, blockReason: string)
    requires WellFormed(s)
    requires !IsBlank(raw)
    ensures var sent := EnsurePersona(Lookup(s, key)) + [Turn(User, content)];
      var committed := Put(s, key, sent + [Turn(Model, Trim(raw))]);
      Converse(s, key, content, Generated(raw, blockReason))
        == Outcome(committed, [ReplyFor(raw, blockReason)], Some(sent), Some(Pairs(committed)))
  {
  }

  /** An answer that is not blank is recorded under the caller's key (the
      persona-ensured history, the user's turn and the trimmed answer), no
      other key changes, the map is saved, and the reply is chosen only then,
      from the answer alone. */
  lemma AnswerCommitted(s: Sessions, key: string, content: string, gen: Generation)
    requires WellFormed(s)
    requires Answered(gen)
    ensures var o := Converse(s, key, content, gen);
      && key in o.sessions.contents
      && Lookup(o.sessions, key)
         == EnsurePersona(Lookup(s, key)) + [Turn(User, content), Turn(Model, Trim(gen.text))]
      && HasPersona(Lookup(o.sessions, key))
      && (forall k :: k != key ==> Lookup(o.sessions, k) == Lookup(s, k))
      && o.sessions.order == (if key in s.order then s.order else s.order + [key])
      && o.saved == Some(Pairs(o.sessions))
      && o.replies == [ReplyFor(gen.text, gen.blockReason)]
  {
    var stored := Lookup(s, key);
    var sent := EnsurePersona(stored) + [Turn(User, content)];
    var recorded := sent + [Turn(Model, Trim(gen.text))];
    NonBlankAnswerOutcome(s, key, content, gen.text, gen.blockReason);
    EnsurePersonaShape(stored);
    assert recorded[0] == EnsurePersona(stored)[0];
    PutLookup(s, key, recorded);
  }

  /** A withheld answer is still recorded and saved; only the refusal is sent. */
  lemma BlockedAnswerStillRecorded(s: Sessions, key: string, content: string, raw: string, blockReason: string)
    requires WellFormed(s)
    requires !IsBlank(raw) && IsBlocked(raw, blockReason)
    ensures var o := Converse(s, key, content, Generated(raw, blockReason));
      && Lookup(o.sessions, key) == EnsurePersona(Lookup(s, key)) + [Turn(User, content), Turn(Model, Trim(raw))]
      && o.saved == Some(Pairs(o.sessions))
      && o.replies == [Refused]
  {
    AnswerCommitted(s, key, content, Generated(raw, blockReason));
  }

  /** An answer over Discord's limit is still recorded and saved; only the
      too-long notice is sent. */
  lemma OverlongAnswerStillRecorded(s: Sessions, key: string, content: string, raw: string)
    requires WellFormed(s)
    requires !IsBlocked(raw, "") && |Trim(raw)| > MaxReplyLength
    ensures var o := Converse(s, key, content, Generated(raw, ""));
      && Lookup(o.sessions, key) == EnsurePersona(Lookup(s, key)) + [Turn(User, content), Turn(Model, Trim(raw))]
      && o.saved == Some(Pairs(o.sessions))
      && o.replies == [TooLong]
  {
    AnswerCommitted(s, key, content, Generated(raw, ""));
  }

  /** The safety test looks at the raw answer, the other tests at the trimmed
      one; for the marker, which has no white space at either end, the two
      agree. */
  lemma BlockedOnTrimmedText(raw: string, blockReason: string)
    ensures IsBlocked(raw, blockReason) <==> IsBlocked(Trim(raw), blockReason)
  {
    SafetyMarkerUnpadded();
    ContainsIffInTrimmed(raw, SafetyMarker);
  }

  /** The text the bot sends as is: the trimmed answer, not blank, already
      trimmed, within Discord's limit, free of the safety marker, and given
      with no block reason. */
  lemma ContentReplyIsSendable(raw: string, blockReason: string)
    requires ReplyFor(raw, blockReason).Content?
    ensures var t := ReplyFor(raw, blockReason).text;
      && t == Trim(raw) && t != [] && Trim(t) == t
      && |t| <= MaxReplyLength
      && !Contains(t, SafetyMarker) && blockReason == ""
  {
    TrimIdempotent(raw);
    SafetyMarkerUnpadded();
    ContainsIffInTrimmed(raw, SafetyMarker);
  }

  /** The reply for an answer is decided by three facts: whether it is blank,
      whether it is withheld, and whether its trimmed length exceeds the limit. */
  lemma ReplyForCases(raw: string, blockReason: string)
    ensures ReplyFor(raw, blockReason) == NothingToSay <==> IsBlank(raw)
    ensures ReplyFor(raw, blockReason) == Refused <==> !IsBlank(raw) && IsBlocked(raw, blockReason)
    ensures ReplyFor(raw, blockReason) == TooLong
      <==> !IsBlank(raw) && !IsBlocked(raw, blockReason) && |Trim(raw)| > MaxReplyLength
    ensures ReplyFor(raw, blockReason) == Content(Trim(raw))
      <==> !IsBlank(raw) && !IsBlocked(raw, blockReason) && |Trim(raw)| <= MaxReplyLength
  {
  }

  /** `n` copies of the letter `a`. */
  function Letters(n: nat): (s: string)
    ensures |s| == n && forall i :: 0 <= i < n ==> s[i] == 'a'
  {
    seq(n, _ => 'a')
  }

  /** A run of letters is its own trim and does not contain the marker. */
  lemma LettersPlain(n: nat)
    requires n > 0
    ensures Trim(Letters(n)) == Letters(n)
    ensures !IsBlocked(Letters(n), "")
  {
    var s := Letters(n);
    assert !IsWhitespace(s[0]) && !IsWhitespace(s[n - 1]);
    TrimUnpadded(s);
    SafetyMarkerUnpadded();
    assert forall i :: 0 <= i < |s| ==> s[i] != SafetyMarker[0];
    MissingFirstCharacter(s, SafetyMarker);
  }

  /** At the limit itself the text is sent. */
  lemma AtLimitSent()
    ensures ReplyFor(Letters(MaxReplyLength), "") == Content(Letters(MaxReplyLength))
  {
    LettersPlain(MaxReplyLength);
  }

  /** One character over the limit and the too-long notice is sent instead. */
  lemma OverLimitNotSent()
    ensures ReplyFor(Letters(MaxReplyLength + 1), "") == TooLong
  {
    LettersPlain(MaxReplyLength + 1);
  }

  /** The first message of a session into a map with no sessions yet: the chat
      is given the persona and the message, and the answer is recorded after
      them under the session's key, which is then the only key. */
  lemma FirstMessageIntoEmptyMap(s: Sessions, key: string, content: string, answer: string)
    requires WellFormed(s) && s.order == []
    requires !IsBlank(answer)
    ensures var o := Converse(s, key, content, Generated(answer, ""));
      var sent := [PersonaTurn, Turn(User, content)];
      && o.sent == Some(sent)
      && o.sessions == Sessions([key], map[key := sent + [Turn(Model, Trim(answer))]])
      && o.replies == [ReplyFor(answer, "")]
  {
    NonBlankAnswerOutcome(s, key, content, answer, "");
    var sent := [PersonaTurn, Turn(User, content)];
    assert s.contents == map[];
    assert EnsurePersona(Lookup(s, key)) + [Turn(User, content)] == sent by {
      assert Lookup(s, key) == [];
    }
    assert Put(s, key, sent + [Turn(Model, Trim(answer))]).contents
      == map[key := sent + [Turn(Model, Trim(answer))]];
  }

  /** A message whose text is the persona instruction is pushed as a user turn
      equal to the persona turn itself, so the recorded history of a first
      message starts with the persona turn twice. */
  lemma PersonaMessageRepeatsPersona(s: Sessions, key: string, answer: string)
    requires WellFormed(s) && s.order == []
    requires !IsBlank(answer)
    ensures var o := Converse(s, key, PersonaText, Generated(answer, ""));
      && key in o.sessions.contents
      && |o.sessions.contents[key]| == 3
      && o.sessions.contents[key][..2] == [PersonaTurn, PersonaTurn]
  {
    FirstMessageIntoEmptyMap(s, key, PersonaText, answer);
  }
}
