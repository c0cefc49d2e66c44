/** In which order an edited object is printed. */
module FieldOrder {
  import opened Collections
  import opened FieldEdits

  function KeysOf<K, V>(fields: seq<Field<K, V>>): seq<K> {
    seq(|fields|, i requires 0 <= i < |fields| => fields[i].key)
  }

  /** The keys that Set entered anew, in order: a key that was not standing. */
  function EnteredKeys<K(==), V>(edits: seq<Edit<K, V>>): seq<K> {
    if edits == [] then []
    else
      var before, e := edits[..|edits| - 1], edits[|edits| - 1];
      if e.Set? && !Standing(before, e.key) then EnteredKeys(before) + [e.key] else EnteredKeys(before)
  }

  /** No later field has the key. */
  predicate LastOfKey<K(==), V>(fields: seq<Field<K, V>>, i: nat)
    requires i < |fields|
  {
    forall j :: i < j < |fields| ==> fields[j].key != fields[i].key
  }

  predicate IsKey<K(==), V>(fields: seq<Field<K, V>>, key: K) {
    exists i :: 0 <= i < |fields| && fields[i].key == key
  }

  lemma IndexedExactly<K, V>(d: Doc<K, V>, i: nat)
    requires Indexed(d) && i < |d.fields|
    ensures d.last[d.fields[i].key] == i <==> LastOfKey(d.fields, i)
  {
  }

  lemma KeyIsIndexed<K, V>(d: Doc<K, V>, key: K)
    requires Indexed(d)
    ensures key in d.last <==> IsKey(d.fields, key)
  {
  }

  lemma KeysMore<K, V>(fields: seq<Field<K, V>>, f: Field<K, V>)
    ensures KeysOf(fields + [f]) == KeysOf(fields) + [f.key]
  {
  }

  lemma {:induction false} KeptKeys<K, V>(d: Doc<K, V>, n: nat, stays: nat -> bool)
    requires Consistent(d) && n <= |d.fields|
    requires forall i: nat :: i < |d.fields| ==>
               stays(i) == (d.last[d.fields[i].key] == i && d.fields[i].key !in d.deleted)
    ensures Ascending(Where(n, stays), n) && KeysOf(Kept(d, n)) == Pick(KeysOf(d.fields), Where(n, stays))
  {
    WhereAre(n, stays);
    if n > 0 {
      KeptKeys(d, n - 1, stays);
      PickMore(KeysOf(d.fields), Where(n - 1, stays), n - 1);
      var f := d.fields[n - 1];
      if stays(n - 1) {
        KeysMore(Kept(d, n - 1), Field(f.key, if f.key in d.sets then d.sets[f.key] else f.value));
      } else {
        assert Kept(d, n - 1) + [] == Kept(d, n - 1);
      }
    }
  }

  /** The elements that satisfy p, in order. */
  function Filter<T>(items: seq<T>, p: T -> bool): seq<T> {
    if items == [] then []
    else
      var before, last := items[..|items| - 1], items[|items| - 1];
      if p(last) then Filter(before, p) + [last] else Filter(before, p)
  }

  lemma {:induction false} AddedKeys<K, V>(d: Doc<K, V>, n: nat, joins: K -> bool)
    requires Consistent(d) && n <= |d.setOrder|
    requires forall key :: joins(key) == (key !in d.last && key !in d.deleted)
    ensures KeysOf(Added(d, n)) == Filter(d.setOrder[..n], joins)
  {
    if n > 0 {
      AddedKeys(d, n - 1, joins);
      var key := d.setOrder[n - 1];
      assert d.setOrder[..n][..n - 1] == d.setOrder[..n - 1];
      if joins(key) {
        KeysMore(Added(d, n - 1), Field(key, d.sets[key]));
      } else {
        assert Added(d, n - 1) + [] == Added(d, n - 1);
      }
    }
  }

  lemma {:induction false} SetOrderIs<K, V>(d: Doc<K, V>, edits: seq<Edit<K, V>>)
    requires Consistent(d) && d.sets == map[] && d.setOrder == [] && d.deleted == {}
    ensures Run(d, edits).setOrder == EnteredKeys(edits)
  {
    if edits != [] {
      var before, last := edits[..|edits| - 1], edits[|edits| - 1];
      SetOrderIs(d, before);
      RunFields(d, before, last.key);
    }
  }

  /** A key that the source lacks and that was not deleted last. */
  ghost function Joins<K(!new), V(!new)>(d: Doc<K, V>, edits: seq<Edit<K, V>>): K -> bool {
    (key: K) => !IsKey(d.fields, key) && !Gone(edits, key)
  }

  /** The last field of a key that was not deleted last. */
  predicate Stays<K(==), V>(d: Doc<K, V>, edits: seq<Edit<K, V>>, i: nat) {
    i < |d.fields| && LastOfKey(d.fields, i) && !Gone(edits, d.fields[i].key)
  }

  /**
   After any calls of Set and Delete on a parsed document its own keys are printed first, in the
   order of their last occurrences, and then the others in the order in which Set entered them.
   */
  lemma PrintedInOrder<K(!new), V(!new)>(d: Doc<K, V>, edits: seq<Edit<K, V>>) returns (kept: seq<nat>)
    requires Consistent(d) && d.sets == map[] && d.setOrder == [] && d.deleted == {}
    ensures Ascending(kept, |d.fields|) && forall i: nat {:trigger i in kept} :: i in kept <==> Stays(d, edits, i)
    ensures Consistent(Run(d, edits))
    ensures KeysOf(Printed(Run(d, edits))) ==
      Pick(KeysOf(d.fields), kept) + Filter(EnteredKeys(edits), Joins(d, edits))
  {
    var e := Run(d, edits);
    var stays := (i: nat) => Stays(d, edits, i);
    forall key: K
      ensures Consistent(e) && e.fields == d.fields && e.last == d.last && (key in e.deleted <==> Gone(edits, key))
    {
      RunFields(d, edits, key);
    }
    RunKeeps(d, edits);
    forall i: nat | i < |e.fields|
      ensures stays(i) == (e.last[e.fields[i].key] == i && e.fields[i].key !in e.deleted)
    {
      IndexedExactly(e, i);
    }
    forall key: K
      ensures Joins(d, edits)(key) == (key !in e.last && key !in e.deleted)
    {
      KeyIsIndexed(e, key);
    }
    KeptKeys(e, |e.fields|, stays);
    AddedKeys(e, |e.setOrder|, Joins(d, edits));
    SetOrderIs(d, edits);
    WhereAre(|e.fields|, stays);
    kept := Where(|e.fields|, stays);
    assert e.setOrder[..|e.setOrder|] == e.setOrder;
    KeysJoin(Kept(e, |e.fields|), Added(e, |e.setOrder|));
  }

  lemma KeysJoin<K, V>(a: seq<Field<K, V>>, b: seq<Field<K, V>>)
    ensures KeysOf(a + b) == KeysOf(a) + KeysOf(b)
  {
  }

  lemma {:induction false} RunKeeps<K, V>(d: Doc<K, V>, edits: seq<Edit<K, V>>)
    requires Consistent(d)
    ensures Consistent(Run(d, edits)) && Run(d, edits).fields == d.fields && Run(d, edits).last == d.last
  {
    if edits != [] {
      RunKeeps(d, edits[..|edits| - 1]);
      ApplyConsistent(Run(d, edits[..|edits| - 1]), edits[|edits| - 1]);
    }
  }
}
