/** Turns, the persona preamble and session keys of the bot's conversation context. */
module Conversation {

  /** Who spoke a turn: the Gemini API's "user" and "model" roles. */
  datatype Role = User | Model

  /** One turn, `{ role, parts: [{ text }] }`; the bot only ever builds one part. */
  datatype Turn = Turn(role: Role, text: string)

  /** The persona instruction (a fixed Thai text in the bot; its wording is immaterial here). */
  const PersonaText: string := "You are Paimon."

  /** The persona preamble: a user turn carrying the persona instruction. */
  const PersonaTurn: Turn := Turn(User, PersonaText)

  /** The key of one conversation: author id and channel id joined by an underscore. */
  function SessionKey(authorId: string, channelId: string): string {
    authorId + "_" + channelId
  }

  /** Discord ids are digit strings; for ids without an underscore the key determines both. */
  lemma SessionKeyInjective(a1: string, c1: string, a2: string, c2: string)
    requires '_' !in a1 && '_' !in a2
    requires SessionKey(a1, c1) == SessionKey(a2, c2)
    ensures a1 == a2 && c1 == c2
  {
    var k := SessionKey(a1, c1);
    assert k == SessionKey(a2, c2);
    assert k[|a1|] == '_' && k[|a2|] == '_';
    assert forall i :: 0 <= i < |a1| ==> k[i] == a1[i];
    assert forall i :: 0 <= i < |a2| ==> k[i] == a2[i];
    assert |a1| == |a2|;
    assert a1 == k[..|a1|] && a2 == k[..|a2|];
    assert c1 == k[|a1| + 1..] && c2 == k[|a2| + 1..];
  }

  /** Without that premise two different sessions can share one key. */
  lemma SessionKeyCollides()
    ensures SessionKey("1_2", "3") == SessionKey("1", "2_3")
  {
  }

  /** The history already starts with the persona: only the first turn's text is compared. */
  predicate HasPersona(h: seq<Turn>) {
    |h| > 0 && h[0].text == PersonaText
  }

  /** The history the bot works on: the persona is prepended unless it is already first. */
  function EnsurePersona(h: seq<Turn>): seq<Turn> {
    if HasPersona(h) then h else [PersonaTurn] + h
  }

  /** The persona step keeps every old turn in order at the end, adds at most the
      persona turn in front, and leaves a history that starts with the persona. */
  lemma EnsurePersonaShape(h: seq<Turn>)
    ensures HasPersona(EnsurePersona(h))
    ensures var r := EnsurePersona(h);
      |r| == |h| + (if HasPersona(h) then 0 else 1) && r[|r| - |h|..] == h
    ensures !HasPersona(h) ==> EnsurePersona(h)[0] == PersonaTurn
  {
  }

  /** Injecting the persona twice is the same as injecting it once. */
  lemma EnsurePersonaIdempotent(h: seq<Turn>)
    ensures EnsurePersona(EnsurePersona(h)) == EnsurePersona(h)
  {
  }
}
