/** The bounded cache of call signatures and saved native prefixes. */
module AntigravityCache {
  import opened Collections

  const MAX_ENTRIES := 4096
  const MAX_BYTES := 0x200_0000
  const MAX_SIGNATURE := 0x2_0000
  const MAX_PREFIX := 0x1_0000
  const LIFETIME := 86400

  /** An entry: the signature, the call it belongs to, when it expires, and the saved prefix as JSON. */
  datatype Entry = Entry(value: string, name: string, args: string, expires: nat, prefix: string)

  function Bytes(e: Entry): nat {
    |e.value| + |e.prefix|
  }

  ghost function Sizes(entries: map<string, Entry>): string -> nat {
    (key: string) => if key in entries then Bytes(entries[key]) else 0
  }

  /** The bytes of all entries. */
  ghost function Held(entries: map<string, Entry>): nat {
    Sum(entries.Keys, Sizes(entries))
  }

  lemma HeldRemove(entries: map<string, Entry>, key: string)
    requires key in entries
    ensures Held(entries) == Bytes(entries[key]) + Held(entries - {key})
  {
    var f, f' := Sizes(entries), Sizes(entries - {key});
    assert (entries - {key}).Keys == entries.Keys - {key};
    SumRemove(entries.Keys, f, key);
    SumSame(entries.Keys - {key}, f, f');
  }

  lemma HeldAdd(entries: map<string, Entry>, key: string, e: Entry)
    requires key !in entries
    ensures Held(entries[key := e]) == Held(entries) + Bytes(e)
  {
    HeldRemove(entries[key := e], key);
    assert entries[key := e] - {key} == entries;
  }

  lemma HeldNothing(entries: map<string, Entry>)
    requires entries == map[]
    ensures Held(entries) == 0
  {
  }

  /** There is room for one more entry of this size. */
  predicate Room(count: nat, held: nat, e: Entry) {
    count < MAX_ENTRIES && held + Bytes(e) <= MAX_BYTES
  }

  /** Only entries that remember may meet: Save refuses larger ones. */
  predicate Admissible(e: Entry) {
    |e.value| <= MAX_SIGNATURE && |e.prefix| <= MAX_PREFIX
  }

  /** Part of a cache, with the same entries. */
  predicate PartOf(some: map<string, Entry>, all: map<string, Entry>) {
    forall k :: k in some ==> k in all && some[k] == all[k]
  }

  /** What has not expired is still there. */
  predicate KeepsCurrent(some: map<string, Entry>, all: map<string, Entry>, now: nat) {
    forall k :: k in all && now <= all[k].expires ==> k in some
  }

  lemma DropEntry(entries: map<string, Entry>, k: string)
    requires k in entries
    ensures Held(entries) == Bytes(entries[k]) + Held(entries - {k}) && |entries - {k}| == |entries| - 1
    ensures PartOf(entries - {k}, entries)
  {
    HeldRemove(entries, k);
    assert (entries - {k}).Keys == entries.Keys - {k};
  }

  /** The eviction position: no entry is kept after one was dropped for lack of room. */
  predicate Evicting(before: map<string, Entry>, entries: map<string, Entry>, todo: set<string>, bytes: nat, e: Entry,
                     now: nat) {
    && PartOf(entries, before) && todo <= entries.Keys && |entries| <= |before|
    && (Room(|entries|, bytes, e) || entries.Keys == todo)
  }

  lemma DropStep(before: map<string, Entry>, entries: map<string, Entry>, todo: set<string>, bytes: nat, e: Entry,
                 now: nat, k: string)
    requires Evicting(before, entries, todo, bytes, e, now) && k in todo && bytes == Held(entries)
    ensures var rest := entries - {k};
            && |rest| == |entries| - 1 && Held(rest) == bytes - Bytes(entries[k]) && Bytes(entries[k]) <= bytes
            && Evicting(before, rest, todo - {k}, Held(rest), e, now)
            && (Room(|entries|, bytes, e) ==> Room(|rest|, Held(rest), e))
            && (now > entries[k].expires && KeepsCurrent(entries, before, now) ==> KeepsCurrent(rest, before, now))
  {
    DropEntry(entries, k);
  }

  /**
   The eviction loop: afterwards there is room for the new entry, and where there was room
   to begin with only expired entries are gone.
   */
  method Evict(before: map<string, Entry>, held: nat, e: Entry, now: nat)
      returns (entries: map<string, Entry>, bytes: nat)
    requires held == Held(before) <= MAX_BYTES && |before| <= MAX_ENTRIES && Admissible(e)
    ensures PartOf(entries, before) && bytes == Held(entries) && Room(|entries|, bytes, e)
    ensures Room(|before|, held, e) ==> KeepsCurrent(entries, before, now)
  {
    entries, bytes := before, held;
    ghost var roomy := Room(|before|, held, e);
    var todo := entries.Keys;
    while todo != {}
      invariant bytes == Held(entries) && Evicting(before, entries, todo, bytes, e, now)
      invariant roomy ==> Room(|entries|, bytes, e) && KeepsCurrent(entries, before, now)
      decreases todo
    {
      var k :| k in todo;
      if now > entries[k].expires || |entries| >= MAX_ENTRIES || bytes + Bytes(e) > MAX_BYTES {
        DropStep(before, entries, todo, bytes, e, now, k);
        bytes := bytes - Bytes(entries[k]);
        entries := entries - {k};
      }
      todo := todo - {k};
    }
    if entries.Keys == {} {
      assert entries == map[];
      HeldNothing(entries);
    }
  }

  lemma InsertedHeld(rest: map<string, Entry>, key: string, e: Entry)
    requires key !in rest
    ensures Held(rest[key := e]) == Held(rest) + Bytes(e) && |rest[key := e]| == |rest| + 1
  {
    HeldAdd(rest, key, e);
    assert rest[key := e].Keys == rest.Keys + {key};
  }

  lemma InsertedPart(before: map<string, Entry>, rest: map<string, Entry>, key: string, e: Entry)
    requires PartOf(rest, before - {key})
    ensures key !in rest && PartOf(rest[key := e] - {key}, before)
  {
  }

  lemma InsertedCurrent(before: map<string, Entry>, rest: map<string, Entry>, key: string, e: Entry, now: nat)
    requires KeepsCurrent(rest, before - {key}, now)
    ensures KeepsCurrent(rest[key := e], before, now)
  {
  }

  class Signatures {
    var entries: map<string, Entry>
    var bytes: nat

    ghost predicate Valid()
      reads this
    {
      bytes == Held(entries) <= MAX_BYTES && |entries| <= MAX_ENTRIES
    }

    constructor ()
      ensures Valid() && entries == map[]
    {
      entries, bytes := map[], 0;
    }

    /**
     remember: the new entry is in, the bounds hold, whatever else stays is unchanged, and
     an entry that had not expired was dropped only for lack of room.
     */
    method Remember(key: string, e: Entry, now: nat)
      requires Valid() && Admissible(e)
      modifies this
      ensures Valid() && key in entries && entries[key] == e
      ensures PartOf(entries - {key}, old(entries))
      ensures Room(|old(entries) - {key}|, Held(old(entries) - {key}), e) ==> KeepsCurrent(entries, old(entries), now)
    {
      ghost var before := entries;
      if key in entries {
        DropEntry(entries, key);
        bytes := bytes - Bytes(entries[key]);
        entries := entries - {key};
      }
      assert entries == before - {key};
      var rest, left := Evict(entries, bytes, e, now);
      InsertedPart(before, rest, key, e);
      InsertedHeld(rest, key, e);
      if KeepsCurrent(rest, before - {key}, now) { InsertedCurrent(before, rest, key, e, now); }
      bytes := left + Bytes(e);
      entries := rest[key := e];
    }

    /** Save, once the entry is on disk: entries over the size limits are refused and change nothing. */
    method Save(key: string, value: string, name: string, args: string, prefix: string, now: nat) returns (ok: bool)
      requires Valid()
      modifies this
      ensures Valid() && ok == (|value| <= MAX_SIGNATURE && |prefix| <= MAX_PREFIX)
      ensures ok ==> key in entries && entries[key] == Entry(value, name, args, now + LIFETIME, prefix)
      ensures !ok ==> entries == old(entries)
    {
      if |value| > MAX_SIGNATURE || |prefix| > MAX_PREFIX { return false; }
      Remember(key, Entry(value, name, args, now + LIFETIME, prefix), now);
      ok := true;
    }

    /** History: what was saved for this very call, from memory or from disk, and not expired. */
    method History(key: string, name: string, args: string, stored: Option<Entry>, now: nat)
        returns (found: Option<Entry>)
      requires Valid() && (stored.Some? ==> Admissible(stored.value))
      modifies this
      ensures Valid()
      ensures var entry := if key in old(entries) then Some(old(entries)[key]) else stored;
              found == if entry.Some? && now < entry.value.expires && entry.value.name == name &&
                entry.value.args == args
                       then entry else None
      ensures key in old(entries) ==> entries == old(entries)
    {
      var entry: Option<Entry> := None;
      if key in entries {
        entry := Some(entries[key]);
      } else if stored.Some? {
        entry := stored;
        Remember(key, stored.value, now);
      }
      if entry.None? || now >= entry.value.expires || entry.value.name != name || entry.value.args != args {
        return None;
      }
      return entry;
    }
  }
}
