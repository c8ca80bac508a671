/** The `messageCreate` handler: filters an incoming Discord message, assembles
    the session's history, hands it to the Gemini chat, records the answer and
    chooses the one reply to send. The handler is given here twice: `Handle`
    says what one event does to the map's value, and `HandleMessage` does it
    step by step on the heap store, array pushes and all. */
module MessageHandler {
  import opened Wrappers
  import opened Text
  import opened Conversation
  import opened SessionMap
  import opened ContextStore

  /** The fields of a Discord message the handler reads. */
  datatype Message = Message(
    authorId: string,
    authorName: string,   // message.author.displayName
    authorIsBot: bool,
    channelId: string,
    channelName: string,
    content: string)

  /** What the Gemini chat call produced: it threw (network failure, malformed
      answer), or gave a text and `promptFeedback?.blockReason` ("" when absent
      or empty, both falsy). */
  datatype Generation = GenerationFailed | Generated(text: string, blockReason: string)

  /** The replies the bot sends; the Thai wordings are fixed texts in the bot. */
  datatype Reply =
    | Greeting(name: string, id: string)   // "hello <display name> <id>"
    | ChannelReport(channelName: string)   // "working in channel <name>"
    | HistoryCleared                       // "your history has been cleared"
    | NothingToSay                         // "I have nothing to say right now"
    | Refused                              // "sorry, I cannot answer that safely"
    | TooLong                              // "too much to say for one Discord message"
    | Content(text: string)                // the generated text itself
    | Apology                              // "something went wrong, please retry"

  /** What one event leaves behind: the map's new value, the replies in the order
      sent, the history handed to the chat (if it was reached) and the pairs
      written to the history file (if a save ran). */
  datatype Outcome = Outcome(
    sessions: Sessions,
    replies: seq<Reply>,
    sent: Option<seq<Turn>>,
    saved: Option<seq<Pair>>)

  const StatusCommand: string := "status?"
  const ClearCommand: string := "!clearhistory"
  /** The text Gemini's library puts in place of a withheld answer. */
  const SafetyMarker: string := "Response was blocked due to SAFETY"
  /** The marker starts with 'R' and ends with 'Y', so trimming cannot cut into it. */
  lemma SafetyMarkerUnpadded()
    ensures SafetyMarker[0] == 'R' && Unpadded(SafetyMarker)
  {
    assert SafetyMarker[0] == 'R' && SafetyMarker[|SafetyMarker| - 1] == 'Y';
  }

  /** Discord's limit on the length of one message. */
  const MaxReplyLength: nat := 2000

  /** The answer was withheld: the raw text mentions the safety block, or a block reason is set. */
  predicate IsBlocked(raw: string, blockReason: string) {
    Contains(raw, SafetyMarker) || blockReason != ""
  }

  /** The reply for a generated answer `raw`: nothing to say when it trims to
      nothing, then the refusal when blocked, then the too-long notice, and
      otherwise the trimmed text. */
  function ReplyFor(raw: string, blockReason: string): Reply {
    var text := Trim(raw);
    if text == [] then NothingToSay
    else if IsBlocked(raw, blockReason) then Refused
    else if |text| > MaxReplyLength then TooLong
    else Content(text)
  }

  /** The key of the message's session. */
  function KeyOf(msg: Message): string {
    SessionKey(msg.authorId, msg.channelId)
  }

  /** One event, from the map's value `s` before it to the outcome. `channel` is
      the configured CHANNEL_ID, `typingOk` whether `sendTyping` succeeded and
      `gen` what the chat call produced. */
  function Handle(s: Sessions, msg: Message, channel: string, typingOk: bool, gen: Generation): Outcome
    requires WellFormed(s)
  {
    if msg.authorIsBot then Outcome(s, [], None, None)
    else if msg.content == StatusCommand then
      Outcome(s, [Greeting(msg.authorName, msg.authorId), ChannelReport(msg.channelName)], None, None)
    else if msg.content == ClearCommand then
      var cleared := Remove(s, KeyOf(msg));
      Outcome(cleared, [HistoryCleared], None, Some(Pairs(cleared)))
    else if msg.channelId != channel || IsBlank(msg.content) then Outcome(s, [], None, None)
    else if !typingOk then Outcome(s, [Apology], None, None)
    else Converse(s, KeyOf(msg), msg.content, gen)
  }

  /** The conversation proper, once a message has passed the filters and the
      typing indicator went out: assemble the history, ask the chat, record the
      answer and pick the reply. */
  function Converse(s: Sessions, key: string, content: string, gen: Generation): Outcome
    requires WellFormed(s)
  {
    var stored := Lookup(s, key);
    var sent := EnsurePersona(stored) + [Turn(User, content)];
    // When the persona was already first, the array pushed to is the stored one.
    var pending := if HasPersona(stored) then Put(s, key, sent) else s;
    match gen
    case GenerationFailed => Outcome(pending, [Apology], Some(sent), None)
    case Generated(raw, blockReason) =>
      var text := Trim(raw);
      if text == [] then Outcome(pending, [NothingToSay], Some(sent), None)
      else
        var committed := Put(s, key, sent + [Turn(Model, text)]);
        Outcome(committed, [ReplyFor(raw, blockReason)], Some(sent), Some(Pairs(committed)))
  }

  /** Line 155 and line 163 of the handler when the persona is not first: a new
      array holding the persona and then the stored turns, with the user's turn
      pushed to it. */
  method CopyWithPersona(stored: seq<Turn>, content: string) returns (history: History)
    requires !HasPersona(stored)
    ensures fresh(history)
    ensures history.turns == [PersonaTurn] + stored + [Turn(User, content)]
  {
    history := new History(stored);
    history.Unshift(PersonaTurn);
    history.Push(Turn(User, content));
  }

  /** Line 163 of the handler when the persona is already first: the push lands
      in the array stored under the key. */
  method PushToStored(store: Store, key: string, history: History, content: string)
    requires store.Valid() && key in store.entries && store.entries[key] == history
    modifies history
    ensures store.Valid() && store.entries == old(store.entries) && store.order == old(store.order)
    ensures history.turns == old(history.turns) + [Turn(User, content)]
    ensures store.Model() == Put(old(store.Model()), key, history.turns)
  {
    ghost var s := store.Model();
    history.Push(Turn(User, content));
    assert store.Model().contents == s.contents[key := history.turns];
  }

  /** Lines 139-163 of the handler: fetch the stored array (or a new empty one),
      replace it by a copy with the persona in front unless the persona is
      already first, and push the user's turn. When the persona was first, the
      push lands in the stored array; otherwise no stored array changes. */
  method AssembleHistory(store: Store, key: string, content: string) returns (history: History)
    requires store.Valid()
    modifies store.entries.Values
    ensures store.Valid() && store.entries == old(store.entries) && store.order == old(store.order)
    ensures history.turns == EnsurePersona(old(Lookup(store.Model(), key))) + [Turn(User, content)]
    ensures old(HasPersona(Lookup(store.Model(), key))) ==>
      && key in store.entries && history == store.entries[key]
      && store.Model() == Put(old(store.Model()), key, history.turns)
    ensures !old(HasPersona(Lookup(store.Model(), key))) ==>
      fresh(history) && store.Model() == old(store.Model())
  {
    ghost var stored := Lookup(store.Model(), key);
    var got := store.Get(key);
    var turns := if got == null then [] else got.turns;
    assert turns == stored;
    if got != null && HasPersona(turns) {
      history := got;
      PushToStored(store, key, history, content);
    } else {
      history := CopyWithPersona(turns, content);
    }
  }

  /** Lines 188-190 of the handler: push the model's turn to the working array
      and set that array under the key. */
  method CommitModelTurn(store: Store, key: string, history: History, text: string)
    requires store.Valid()
    requires (key in store.entries && store.entries[key] == history) || history !in store.entries.Values
    modifies store, history
    ensures store.Valid()
    ensures history.turns == old(history.turns) + [Turn(Model, text)]
    ensures store.entries == old(store.entries)[key := history]
    ensures store.Model() == Put(old(store.Model()), key, history.turns)
  {
    ghost var s := store.Model();
    history.Push(Turn(Model, text));
    ghost var m := store.Model();
    assert m.contents - {key} == s.contents - {key} by {
      forall k | k in store.entries && k != key
        ensures store.entries[k] != history
      {
      }
    }
    PutOverwrites(m, s, key, history.turns);
    store.Set(key, history);
  }

  /** Lines 188-216 of the handler, for an answer that is not blank: record the
      model's turn, save, and only then choose between the refusal, the
      too-long notice and the text itself. */
  method RecordAnswer(store: Store, key: string, history: History, raw: string, blockReason: string)
      returns (replies: seq<Reply>, saved: Option<seq<Pair>>)
    requires store.Valid() && Trim(raw) != []
    requires (key in store.entries && store.entries[key] == history) || history !in store.entries.Values
    modifies store, history
    ensures store.Valid()
    ensures history.turns == old(history.turns) + [Turn(Model, Trim(raw))]
    ensures store.entries == old(store.entries)[key := history]
    ensures store.Model() == Put(old(store.Model()), key, history.turns)
    ensures saved == Some(Pairs(store.Model())) && replies == [ReplyFor(raw, blockReason)]
  {
    var text := Trim(raw);
    CommitModelTurn(store, key, history, text);
    var pairs := store.Save();
    saved := Some(pairs);
    replies := [ReplyFor(raw, blockReason)];
  }

  /** The chat produced an answer that is not blank. */
  predicate Answered(gen: Generation) {
    gen.Generated? && Trim(gen.text) != []
  }

  /** Lines 174-216 of the handler, once the history is assembled: a failed call
      gets the apology and a blank answer the nothing-to-say reply, both without
      touching the map; any other answer is recorded and answered. */
  method Respond(store: Store, key: string, history: History, gen: Generation)
      returns (replies: seq<Reply>, saved: Option<seq<Pair>>)
    requires store.Valid()
    requires (key in store.entries && store.entries[key] == history) || history !in store.entries.Values
    modifies store, history
    ensures store.Valid()
    ensures !Answered(gen) ==>
      && unchanged(store, history) && saved == None
      && replies == [if gen.GenerationFailed? then Apology else NothingToSay]
    ensures Answered(gen) ==>
      && history.turns == old(history.turns) + [Turn(Model, Trim(gen.text))]
      && store.entries == old(store.entries)[key := history]
      && store.Model() == Put(old(store.Model()), key, history.turns)
      && saved == Some(Pairs(store.Model())) && replies == [ReplyFor(gen.text, gen.blockReason)]
  {
    match gen {
      case GenerationFailed =>
        replies, saved := [Apology], None;
      case Generated(raw, blockReason) =>
        if Trim(raw) == [] {
          replies, saved := [NothingToSay], None;
          return;
        }
        replies, saved := RecordAnswer(store, key, history, raw, blockReason);
    }
  }

  /** Lines 135-216 of the handler run on the store, with the outcome `Converse`
      gives. It also keeps the array identity the source has: when the stored
      history already starts with the persona, the very array under the key is
      extended and stays under the key whatever happens next; otherwise a fresh
      copy is extended, the stored array is left as it was, and only a commit
      puts the copy under the key. */
  method ConverseOnStore(store: Store, key: string, content: string, gen: Generation)
      returns (replies: seq<Reply>, sent: Option<seq<Turn>>, saved: Option<seq<Pair>>)
    requires store.Valid()
    modifies store, store.entries.Values
    ensures store.Valid()
    ensures var o := Converse(old(store.Model()), key, content, gen);
      store.Model() == o.sessions && replies == o.replies && sent == o.sent && saved == o.saved
    ensures old(HasPersona(Lookup(store.Model(), key))) ==>
      key in old(store.entries) && key in store.entries && store.entries[key] == old(store.entries[key])
    ensures !old(HasPersona(Lookup(store.Model(), key))) && key in old(store.entries) ==>
      old(store.entries[key]).turns == old(store.entries[key].turns)
    ensures !old(HasPersona(Lookup(store.Model(), key))) && saved.Some? ==>
      key in store.entries && fresh(store.entries[key])
  {
    ghost var s0 := store.Model();
    ghost var stored := Lookup(s0, key);
    var history := AssembleHistory(store, key, content);
    sent := Some(history.turns);
    replies, saved := Respond(store, key, history, gen);
    if Answered(gen) && HasPersona(stored) {
      PutPut(s0, key, sent.value, history.turns);
    }
  }

  /** The `messageCreate` handler run on the store, with the outcome `Handle` gives. */
  method HandleMessage(store: Store, msg: Message, channel: string, typingOk: bool, gen: Generation)
      returns (replies: seq<Reply>, sent: Option<seq<Turn>>, saved: Option<seq<Pair>>)
    requires store.Valid()
    modifies store, store.entries.Values
    ensures store.Valid()
    ensures var o := Handle(old(store.Model()), msg, channel, typingOk, gen);
      store.Model() == o.sessions && replies == o.replies && sent == o.sent && saved == o.saved
  {
    replies, sent, saved := [], None, None;
    if msg.authorIsBot {
      return;
    }
    if msg.content == StatusCommand {
      replies := [Greeting(msg.authorName, msg.authorId), ChannelReport(msg.channelName)];
      return;
    }
    if msg.content == ClearCommand {
      store.Delete(KeyOf(msg));
      var pairs := store.Save();
      saved := Some(pairs);
      replies := [HistoryCleared];
      return;
    }
    if msg.channelId != channel {
      return;
    }
    if IsBlank(msg.content) {
      return;
    }
    if !typingOk {
      replies := [Apology];
      return;
    }
    replies, sent, saved := ConverseOnStore(store, KeyOf(msg), msg.content, gen);
  }
}
