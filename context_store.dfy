/** The bot's process-wide context map as a heap structure: a Map whose values
    are history arrays held by reference. A caller that obtains an array from
    the map and pushes to it changes the map's entry in place. */
module ContextStore {
  import opened Conversation
  import opened SessionMap

  /** A JavaScript array of turns. */
  class History {
    var turns: seq<Turn>

    /** `[...turns]`: a new array with the same turns. */
    constructor (turns: seq<Turn>)
      ensures this.turns == turns
    {
      this.turns := turns;
    }

    /** `history.push(t)`. */
    method Push(t: Turn)
      modifies this
      ensures turns == old(turns) + [t]
    {
      turns := turns + [t];
    }

    /** `history.unshift(t)`. */
    method Unshift(t: Turn)
      modifies this
      ensures turns == [t] + old(turns)
    {
      turns := [t] + turns;
    }
  }

  /** The turns each array of `e` holds now. */
  ghost function TurnsOf(e: map<string, History>): map<string, seq<Turn>>
    reads e.Values
  {
    map k | k in e :: e[k].turns
  }

  /** The order lists each key of `e` once and nothing else, and no array is
      held under two keys. */
  ghost predicate Indexed(order: seq<string>, e: map<string, History>) {
    && Distinct(order)
    && (forall k :: k in e <==> k in order)
    && (forall k1, k2 :: k1 in e && k2 in e && k1 != k2 ==> e[k1] != e[k2])
  }

  /** Setting an array held under no other key keeps the index. */
  lemma IndexedAfterSet(order: seq<string>, e: map<string, History>, key: string, h: History)
    requires Indexed(order, e)
    requires forall k :: k in e && k != key ==> e[k] != h
    ensures Indexed(if key in e then order else order + [key], e[key := h])
  {
  }

  /** Deleting a key keeps the index. */
  lemma IndexedAfterDelete(order: seq<string>, e: map<string, History>, key: string)
    requires Indexed(order, e)
    ensures Indexed(Without(order, key), e - {key})
  {
  }

  /** `contextualConversationHistory`: keys in insertion order and the array each key holds. */
  class Store {
    var order: seq<string>
    var entries: map<string, History>

    /** The order lists each key once, and no array is held under two keys
        (the bot only ever stores a fresh array or the one already under that key). */
    ghost predicate Valid()
      reads this
    {
      Indexed(order, entries)
    }

    /** The map's value: its key order and the turns each array holds now. */
    ghost function Model(): (s: Sessions)
      reads this, entries.Values
      ensures Valid() ==> WellFormed(s)
    {
      Sessions(order, TurnsOf(entries))
    }

    /** `new Map()`. */
    constructor ()
      ensures Valid() && Model() == Empty
    {
      order := [];
      entries := map[];
    }

    /** `map.get(key)`: the stored array itself, or null when the key is absent. */
    method Get(key: string) returns (h: History?)
      ensures h == null <==> key !in entries
      ensures h != null ==> h == entries[key]
    {
      h := if key in entries then entries[key] else null;
    }

    /** `map.set(key, h)`. */
    method Set(key: string, h: History)
      requires Valid()
      requires forall k :: k in entries && k != key ==> entries[k] != h
      modifies this
      ensures Valid()
      ensures entries == old(entries)[key := h]
      ensures Model() == Put(old(Model()), key, h.turns)
    {
      ghost var s := Model();
      IndexedAfterSet(order, entries, key, h);
      var e := entries[key := h];
      assert TurnsOf(e) == s.contents[key := h.turns];
      order, entries := (if key in entries then order else order + [key]), e;
      assert TurnsOf(e) == old(TurnsOf(e));
    }

    /** `map.delete(key)`. */
    method Delete(key: string)
      requires Valid()
      modifies this
      ensures Valid()
      ensures entries == old(entries) - {key}
      ensures Model() == Remove(old(Model()), key)
    {
      ghost var s := Model();
      IndexedAfterDelete(order, entries, key);
      var e := entries - {key};
      assert TurnsOf(e) == s.contents - {key};
      order, entries := Without(order, key), e;
      assert TurnsOf(e) == old(TurnsOf(e));
    }

    /** `Array.from(map.entries())`: the pairs written by `saveConversationHistory`. */
    method Save() returns (pairs: seq<Pair>)
      requires Valid()
      ensures pairs == Pairs(Model())
    {
      pairs := [];
      for i := 0 to |order|
        invariant pairs == PairsOf(order[..i], Model().contents)
      {
        var key := order[i];
        pairs := pairs + [Pair(key, entries[key].turns)];
        assert order[..i + 1][..i] == order[..i];
      }
      assert order[..|order|] == order;
    }

    /** `loadConversationHistory` once the file has been read and parsed: each
        `[key, value]` of an array is set in turn, with a fresh array per pair,
        until an element cannot be unpacked; anything else leaves the map alone. */
    method Load(payload: Payload)
      requires Valid()
      modifies this
      ensures Valid()
      ensures Model() == LoadPayload(old(Model()), payload)
    {
      if !payload.ArrayOf? {
        return;
      }
      var items := payload.items;
      ghost var s := Model();
      ghost var ps := Unpacked(items);
      var i := 0;
      while i < |items| && items[i].Entry?
        invariant i <= |ps|
        invariant Valid()
        invariant Model() == LoadPairs(s, ps[..i])
      {
        var pair := items[i].pair;
        assert i < |ps| && pair == ps[i];
        LoadPairsStep(s, ps, i);
        var h := new History(pair.turns);
        Set(pair.key, h);
        i := i + 1;
      }
      assert ps[..i] == ps;
    }
  }
}
