/** The value of the bot's context map, `contextualConversationHistory`:
    a JavaScript Map from session key to history. A Map remembers the order in
    which its keys were first set, and `entries()` follows that order, so the
    value carries the key order beside the contents. This module also holds the
    conversion between the map and the list of `[key, turns]` pairs that is
    written to and read from the history file. */
module SessionMap {
  import opened Conversation

  datatype Sessions = Sessions(order: seq<string>, contents: map<string, seq<Turn>>)

  /** One `[key, turns]` pair of the history file. */
  datatype Pair = Pair(key: string, turns: seq<Turn>)

  /** A freshly constructed `new Map()`. */
  const Empty: Sessions := Sessions([], map[])

  ghost predicate Distinct(o: seq<string>) {
    forall i, j :: 0 <= i < j < |o| ==> o[i] != o[j]
  }

  /** Every key is listed once in the order, and the order lists only keys. */
  ghost predicate WellFormed(s: Sessions) {
    Distinct(s.order) && forall k :: k in s.contents <==> k in s.order
  }

  /** `map.get(key) || []`. */
  function Lookup(s: Sessions, key: string): seq<Turn> {
    if key in s.contents then s.contents[key] else []
  }

  /** `map.set(key, turns)`: a new key goes to the end of the order, an existing one keeps its place. */
  function Put(s: Sessions, key: string, turns: seq<Turn>): (r: Sessions)
    ensures WellFormed(s) ==> WellFormed(r)
  {
    Sessions(if key in s.contents then s.order else s.order + [key], s.contents[key := turns])
  }

  /** The order with `key` taken out. */
  function Without(o: seq<string>, key: string): (r: seq<string>)
    ensures forall k :: k in r <==> k in o && k != key
    ensures Distinct(o) ==> Distinct(r)
    ensures key !in o ==> r == o
  {
    if o == [] then []
    else
      var rest := Without(o[1..], key);
      assert o[0] !in o[1..] ==> o[0] !in rest;
      if o[0] == key then rest else [o[0]] + rest
  }

  /** Taking a key out of two orders one after the other is taking it out of each. */
  lemma {:induction false} WithoutAppend(a: seq<string>, b: seq<string>, key: string)
    ensures Without(a + b, key) == Without(a, key) + Without(b, key)
  {
    if a == [] {
      assert a + b == b;
    } else {
      assert (a + b)[0] == a[0] && (a + b)[1..] == a[1..] + b;
      WithoutAppend(a[1..], b, key);
      if a[0] != key {
        assert Without(a + b, key) == [a[0]] + (Without(a[1..], key) + Without(b, key));
      }
    }
  }

  /** Taking out a key listed once leaves the keys before it and after it, in their order. */
  lemma {:induction false} WithoutSplit(a: seq<string>, key: string, b: seq<string>)
    requires key !in a && key !in b
    ensures Without(a + [key] + b, key) == a + b
  {
    WithoutAppend(a + [key], b, key);
    WithoutAppend(a, [key], key);
  }

  /** In a distinct order, taking out the key at position `i` cuts out just that position. */
  lemma {:induction false} WithoutAt(o: seq<string>, i: nat)
    requires Distinct(o) && i < |o|
    ensures Without(o, o[i]) == o[..i] + o[i + 1..]
  {
    var a, b, key := o[..i], o[i + 1..], o[i];
    forall j | 0 <= j < |a|
      ensures a[j] != key
    {
      assert a[j] == o[j];
    }
    forall j | 0 <= j < |b|
      ensures b[j] != key
    {
      assert b[j] == o[i + 1 + j];
    }
    assert o == a + [key] + b;
    WithoutSplit(a, key, b);
  }

  /** `map.delete(key)`. */
  function Remove(s: Sessions, key: string): (r: Sessions)
    ensures WellFormed(s) ==> WellFormed(r)
  {
    Sessions(Without(s.order, key), s.contents - {key})
  }

  /** Setting a key gives it the new turns and changes no other key; a key not
      yet present is appended to the order, a present one keeps its place. */
  lemma PutLookup(s: Sessions, key: string, turns: seq<Turn>)
    requires WellFormed(s)
    ensures key in Put(s, key, turns).contents && Lookup(Put(s, key, turns), key) == turns
    ensures forall k :: k != key ==> Lookup(Put(s, key, turns), k) == Lookup(s, k)
    ensures Put(s, key, turns).order == if key in s.order then s.order else s.order + [key]
  {
  }

  /** Setting a key forgets what it held before: two maps that agree except at
      `key` (and have the same keys) agree once `key` is set. */
  lemma PutOverwrites(s: Sessions, t: Sessions, key: string, turns: seq<Turn>)
    requires s.order == t.order && s.contents.Keys == t.contents.Keys
    requires s.contents - {key} == t.contents - {key}
    ensures Put(s, key, turns) == Put(t, key, turns)
  {
    assert forall k :: k in s.contents && k != key ==> s.contents[k] == (s.contents - {key})[k];
    assert forall k :: k in t.contents && k != key ==> t.contents[k] == (t.contents - {key})[k];
  }

  /** Setting a key twice is setting it to the second value. */
  lemma PutPut(s: Sessions, key: string, first: seq<Turn>, second: seq<Turn>)
    ensures Put(Put(s, key, first), key, second) == Put(s, key, second)
  {
    assert s.contents[key := first][key := second] == s.contents[key := second];
  }

  /** Deleting a key makes it absent, changes no other key and keeps the order
      of the others: the key is cut out of its place, and an absent key leaves
      the order as it was. */
  lemma RemoveLookup(s: Sessions, key: string)
    requires WellFormed(s)
    ensures key !in Remove(s, key).contents && Lookup(Remove(s, key), key) == []
    ensures forall k :: k != key ==> Lookup(Remove(s, key), k) == Lookup(s, k)
    ensures key !in s.order ==> Remove(s, key).order == s.order
    ensures forall i :: 0 <= i < |s.order| && s.order[i] == key ==>
      Remove(s, key).order == s.order[..i] + s.order[i + 1..]
  {
    forall i | 0 <= i < |s.order| && s.order[i] == key
      ensures Remove(s, key).order == s.order[..i] + s.order[i + 1..]
    {
      WithoutAt(s.order, i);
    }
  }

  /** The pairs for the keys of `o`, in the order of `o`. */
  function PairsOf(o: seq<string>, c: map<string, seq<Turn>>): seq<Pair>
    requires forall i :: 0 <= i < |o| ==> o[i] in c
  {
    if o == [] then []
    else PairsOf(o[..|o| - 1], c) + [Pair(o[|o| - 1], c[o[|o| - 1]])]
  }

  /** `Array.from(map.entries())`. */
  function Pairs(s: Sessions): seq<Pair>
    requires WellFormed(s)
  {
    PairsOf(s.order, s.contents)
  }

  lemma {:induction false} PairsOfAt(o: seq<string>, c: map<string, seq<Turn>>)
    requires forall i :: 0 <= i < |o| ==> o[i] in c
    ensures |PairsOf(o, c)| == |o|
    ensures forall i :: 0 <= i < |o| ==> PairsOf(o, c)[i] == Pair(o[i], c[o[i]])
  {
    if o != [] {
      PairsOfAt(o[..|o| - 1], c);
    }
  }

  /** Saving lists every key exactly once, in insertion order, each with its own turns. */
  lemma PairsListsEntries(s: Sessions)
    requires WellFormed(s)
    ensures |Pairs(s)| == |s.order|
    ensures forall i :: 0 <= i < |s.order| ==> Pairs(s)[i] == Pair(s.order[i], s.contents[s.order[i]])
  {
    PairsOfAt(s.order, s.contents);
  }

  /** `pairs.forEach(([key, value]) => map.set(key, value))`. */
  function LoadPairs(s: Sessions, ps: seq<Pair>): (r: Sessions)
    ensures WellFormed(s) ==> WellFormed(r)
  {
    if ps == [] then s
    else
      var last := ps[|ps| - 1];
      Put(LoadPairs(s, ps[..|ps| - 1]), last.key, last.turns)
  }

  /** Loading one more pair of a list is setting that pair after loading the ones before it. */
  lemma LoadPairsStep(s: Sessions, ps: seq<Pair>, i: nat)
    requires i < |ps|
    ensures LoadPairs(s, ps[..i + 1]) == Put(LoadPairs(s, ps[..i]), ps[i].key, ps[i].turns)
  {
    assert ps[..i + 1][..i] == ps[..i];
  }

  /** Whether some pair of `ps` carries `key`. */
  predicate Mentions(ps: seq<Pair>, key: string) {
    exists i :: 0 <= i < |ps| && ps[i].key == key
  }

  /** The turns of the last pair of `ps` that carries `key`. */
  function LastFor(ps: seq<Pair>, key: string): seq<Turn>
    requires Mentions(ps, key)
  {
    var last := ps[|ps| - 1];
    if last.key == key then last.turns
    else
      assert Mentions(ps[..|ps| - 1], key) by {
        var i :| 0 <= i < |ps| && ps[i].key == key;
        assert ps[..|ps| - 1][i].key == key;
      }
      LastFor(ps[..|ps| - 1], key)
  }

  /** Loading keeps every key already present, adds every key of the pairs,
      and for a key given more than once the later pair wins. */
  lemma {:induction false} LoadPairsLookup(s: Sessions, ps: seq<Pair>, key: string)
    ensures key in LoadPairs(s, ps).contents <==> key in s.contents || Mentions(ps, key)
    ensures Lookup(LoadPairs(s, ps), key) == if Mentions(ps, key) then LastFor(ps, key) else Lookup(s, key)
  {
    if ps != [] {
      var init := ps[..|ps| - 1];
      LoadPairsLookup(s, init, key);
      assert forall i :: 0 <= i < |init| ==> init[i] == ps[i];
      assert Mentions(ps, key) <==> Mentions(init, key) || ps[|ps| - 1].key == key;
    }
  }

  /** The map holding exactly the keys of `o`, with their turns in `c`. */
  function Restrict(o: seq<string>, c: map<string, seq<Turn>>): map<string, seq<Turn>>
    requires forall i :: 0 <= i < |o| ==> o[i] in c
  {
    map k | k in o :: c[k]
  }

  /** The last key of a distinct order is not among the keys before it. */
  lemma DistinctLast(o: seq<string>)
    requires Distinct(o) && o != []
    ensures Distinct(o[..|o| - 1]) && o[|o| - 1] !in o[..|o| - 1]
    ensures o == o[..|o| - 1] + [o[|o| - 1]]
  {
    assert forall i :: 0 <= i < |o| - 1 ==> o[..|o| - 1][i] == o[i];
  }

  /** Setting the last key of an order restricts the contents to the whole order. */
  lemma PutRestrict(init: seq<string>, x: string, c: map<string, seq<Turn>>)
    requires x !in init && x in c
    requires forall i :: 0 <= i < |init| ==> init[i] in c
    ensures forall i :: 0 <= i < |init + [x]| ==> (init + [x])[i] in c
    ensures Put(Sessions(init, Restrict(init, c)), x, c[x]) == Sessions(init + [x], Restrict(init + [x], c))
  {
    assert Restrict(init, c)[x := c[x]] == Restrict(init + [x], c);
  }

  lemma {:induction false} LoadPairsOfIntoEmpty(o: seq<string>, c: map<string, seq<Turn>>)
    requires Distinct(o)
    requires forall i :: 0 <= i < |o| ==> o[i] in c
    ensures LoadPairs(Empty, PairsOf(o, c)) == Sessions(o, Restrict(o, c))
  {
    if o != [] {
      var init, x := o[..|o| - 1], o[|o| - 1];
      DistinctLast(o);
      var ps := PairsOf(o, c);
      assert ps[..|ps| - 1] == PairsOf(init, c);
      LoadPairsOfIntoEmpty(init, c);
      PutRestrict(init, x, c);
    }
  }

  /** Saving the map and loading the pairs into a fresh map gives back the same
      map: the same keys, in the same order, with the same turns. */
  lemma SaveLoadRoundTrip(s: Sessions)
    requires WellFormed(s)
    ensures LoadPairs(Empty, Pairs(s)) == s
  {
    LoadPairsOfIntoEmpty(s.order, s.contents);
    assert Restrict(s.order, s.contents) == s.contents;
  }

  /** One element of the parsed array: either `[key, value]`, or a value the
      destructuring `([key, value]) => ...` cannot unpack (null, a number),
      which throws and ends the loop. */
  datatype Item = Entry(pair: Pair) | Malformed

  /** What reading and parsing the history file produced. */
  datatype Payload =
    | Unreadable           // the file is missing, cannot be read, or is not JSON
    | NotAnArray           // JSON, but not an array
    | ArrayOf(items: seq<Item>)

  /** The pairs the loop gets through: those before the first malformed element. */
  function Unpacked(items: seq<Item>): (ps: seq<Pair>)
    ensures |ps| <= |items|
    ensures forall i :: 0 <= i < |ps| ==> items[i] == Entry(ps[i])
    ensures |ps| < |items| ==> items[|ps|] == Malformed
  {
    if items == [] then []
    else match items[0]
      case Malformed => []
      case Entry(p) => [p] + Unpacked(items[1..])
  }

  /** `loadConversationHistory` applied to the current map. */
  function LoadPayload(s: Sessions, payload: Payload): Sessions {
    match payload
    case Unreadable => s
    case NotAnArray => s
    case ArrayOf(items) => LoadPairs(s, Unpacked(items))
  }

  /** The array `JSON.stringify` writes for a list of pairs, as `JSON.parse` reads it back. */
  function AsItems(ps: seq<Pair>): (items: seq<Item>)
    ensures |items| == |ps| && forall i :: 0 <= i < |ps| ==> items[i] == Entry(ps[i])
  {
    seq(|ps|, i requires 0 <= i < |ps| => Entry(ps[i]))
  }

  /** Only an array changes the map; anything else is logged and ignored. */
  lemma NonArrayPayloadIgnored(s: Sessions, payload: Payload)
    requires !payload.ArrayOf?
    ensures LoadPayload(s, payload) == s
  {
  }

  /** A saved file, loaded at start-up into the empty map, reproduces the saved map. */
  lemma SavedFileRoundTrip(s: Sessions)
    requires WellFormed(s)
    ensures LoadPayload(Empty, ArrayOf(AsItems(Pairs(s)))) == s
  {
    var ps := Pairs(s);
    var u := Unpacked(AsItems(ps));
    assert |u| == |ps|;
    assert u == ps;
    SaveLoadRoundTrip(s);
  }
}
