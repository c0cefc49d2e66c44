/**
 The resolver object of the flattening: its counters are updated in place by charge,
 inheritAnnotations and flatten, in whatever order a Go map yields its keys.
 */
module SchemaResolver {
  import opened Collections
  import opened SchemaPointer
  import opened SchemaFlatten

  class Resolver {
    const root: Schema
    var branches: nat
    var remaining: int
    var nested: bool

    function State(): Counters
      reads this
    {
      Counters(branches, remaining, nested)
    }

    constructor (root: Schema)
      ensures this.root == root && State() == START
    {
      this.root := root;
      branches, remaining, nested := 0, MAX_WEIGHT, false;
    }

    /** Subtracts the weight of a value, and fails when it is too deep or too heavy. */
    method Charge(value: Json, depth: nat) returns (ok: bool)
      modifies this`remaining
      ensures ok ==> Shallow(value, depth) && remaining == old(remaining) - Weight(value) >= 0
      ensures !ok ==> !Shallow(value, depth) || old(remaining) - Weight(value) < 0
      decreases value
    {
      if depth > MAX_DEPTH {
        return false;
      }
      remaining := remaining - 1;
      match value {
        case Obj(fields) =>
          ok := ChargeFields(value, depth);
          if !ok {
            return;
          }
        case Arr(items) =>
          for i := 0 to |items|
            invariant remaining == old(remaining) - 1 - (WeightItems(items) - WeightItems(items[i..]))
            invariant forall j :: 0 <= j < i ==> Shallow(items[j], depth + 1)
          {
            assert items[i..][1..] == items[i + 1..];
            ok := Charge(items[i], depth + 1);
            if !ok {
              return;
            }
          }
        case Str(text) => remaining := remaining - |text|;
        case Num(text) => remaining := remaining - |text|;
        case _ =>
      }
      return remaining >= 0;
    }

    /** The fields of one object, in any order. */
    method ChargeFields(value: Json, depth: nat) returns (ok: bool)
      requires value.Obj? && depth <= MAX_DEPTH
      modifies this`remaining
      ensures ok ==> Shallow(value, depth) && remaining == old(remaining) - WeightOf(value, value.fields.Keys)
      ensures !ok ==> !Shallow(value, depth) || old(remaining) - WeightOf(value, value.fields.Keys) < 0
      decreases value, 0
    {
      var fields := value.fields;
      var keys := fields.Keys;
      while keys != {}
        invariant keys <= fields.Keys
        invariant remaining == old(remaining) - (WeightOf(value, fields.Keys) - WeightOf(value, keys))
        invariant forall k :: k in fields && k !in keys ==> Shallow(fields[k], depth + 1)
      {
        var key :| key in keys;
        WeightRemove(value, keys, key);
        remaining := remaining - |key|;
        ok := Charge(fields[key], depth + 1);
        if !ok {
          return;
        }
        keys := keys - {key};
      }
      return true;
    }

    /**
     The annotations of a union branch, copied onto one of its children. The source mixes
     the two tests in one loop over the keys; only the message of an error depends on it.
     */
    method InheritAnnotations(parent: Schema, child: Schema) returns (result: Option<Schema>)
      modifies this`remaining
      ensures match Inherit(old(State()), parent, child)
              case None => result.None?
              case Some(c) => result == Some(c.schema) && State() == c.counters
    {
      if Conflicts(parent, child) {
        return None;
      }
      var added := Inherited(parent, child);
      var ok := ChargeAll(added);
      return if ok then Some(child + added) else None;
    }

    /** Charges for every new annotation, in any order. */
    method ChargeAll(added: Schema) returns (ok: bool)
      modifies this`remaining
      ensures ok ==>
                && (forall k :: k in added ==> Shallow(added[k], 0))
                && remaining == old(remaining) - InheritedWeight(added, added.Keys)
                && (added != map[] ==> remaining >= 0)
      ensures !ok ==>
                || (exists k :: k in added && !Shallow(added[k], 0))
                || (added != map[] && old(remaining) - InheritedWeight(added, added.Keys) < 0)
    {
      var keys := added.Keys;
      while keys != {}
        invariant keys <= added.Keys
        invariant remaining == old(remaining) - (InheritedWeight(added, added.Keys) - InheritedWeight(added, keys))
        invariant keys != added.Keys ==> remaining >= 0
        invariant forall k :: k in added && k !in keys ==> Shallow(added[k], 0)
      {
        var key :| key in keys;
        InheritedRemove(added, keys, key);
        ok := Charge(added[key], 0);
        if !ok {
          return;
        }
        keys := keys - {key};
      }
      return true;
    }

    /** flatten: expands the branches in order. */
    method FlattenBranches(list: seq<Json>, depth: nat) returns (flat: Option<seq<Schema>>)
      modifies this
      ensures match Flatten(root, list, depth, old(State()))
              case None => flat.None?
              case Some(f) => flat == Some(f.items) && State() == f.counters
      decreases MAX_DEPTH + 1 - depth, 1
    {
      if depth > MAX_DEPTH || |list| == 0 {
        return None;
      }
      var items: seq<Schema> := [];
      assert list[0..] == list;
      PrependNothing(FlattenList(root, list, depth, State()));
      for i := 0 to |list|
        invariant FlattenList(root, list, depth, old(State())) ==
          Prepend(items, FlattenList(root, list[i..], depth, State()))
      {
        assert list[i..][1..] == list[i + 1..];
        var leaves := FlattenBranch(list[i], depth);
        if leaves.None? {
          return None;
        }
        PrependTwice(items, leaves.value, FlattenList(root, list[i + 1..], depth, State()));
        items := items + leaves.value;
      }
      assert list[|list|..] == [] && items + [] == items;
      return Some(items);
    }

    /** One branch: resolve it, then flatten its union or keep it as a leaf. */
    method FlattenBranch(value: Json, depth: nat) returns (leaves: Option<seq<Schema>>)
      requires depth <= MAX_DEPTH
      modifies this
      ensures match FlattenOne(root, value, depth, old(State()))
              case None => leaves.None?
              case Some(f) => leaves == Some(f.items) && State() == f.counters
      decreases MAX_DEPTH + 1 - depth, 0
    {
      var resolved := Resolve(root, value, []);
      if resolved.None? {
        return None;
      }
      var branch := resolved.value;
      if "oneOf" in branch {
        nested := true;
        if !branch["oneOf"].Arr? || !PureObjectUnion(branch) {
          return None;
        }
        var children := FlattenBranches(branch["oneOf"].items, depth + 1);
        if children.None? {
          return None;
        }
        leaves := InheritEach(branch, children.value);
        return;
      }
      if "type" !in branch || branch["type"] != Str("object") {
        return None;
      }
      var ok := Charge(Obj(branch), 0);
      if !ok {
        return None;
      }
      branches := branches + 1;
      if branches > MAX_BRANCHES {
        return None;
      }
      return Some([branch]);
    }

    method InheritEach(parent: Schema, children: seq<Schema>) returns (result: Option<seq<Schema>>)
      modifies this`remaining
      ensures match InheritAll(old(State()), parent, children)
              case None => result.None?
              case Some(f) => result == Some(f.items) && State() == f.counters
    {
      var merged: seq<Schema> := [];
      assert children[0..] == children;
      PrependNothing(InheritAll(State(), parent, children));
      for i := 0 to |children|
        invariant branches == old(branches) && nested == old(nested)
        invariant InheritAll(old(State()), parent, children) ==
          Prepend(merged, InheritAll(State(), parent, children[i..]))
      {
        assert children[i..][1..] == children[i + 1..];
        var child := InheritAnnotations(parent, children[i]);
        if child.None? {
          return None;
        }
        PrependTwice(merged, [child.value], InheritAll(State(), parent, children[i + 1..]));
        merged := merged + [child.value];
      }
      assert children[|children|..] == [] && merged + [] == merged;
      return Some(merged);
    }
  }

  ghost function Prepend(items: seq<Schema>, rest: Option<Flat>): Option<Flat> {
    match rest case None => None case Some(f) => Some(Flat(items + f.items, f.counters))
  }

  lemma PrependNothing(rest: Option<Flat>)
    ensures Prepend([], rest) == rest
  {
    if rest.Some? { assert [] + rest.value.items == rest.value.items; }
  }

  lemma PrependTwice(a: seq<Schema>, b: seq<Schema>, rest: Option<Flat>)
    ensures Prepend(a, Prepend(b, rest)) == Prepend(a + b, rest)
  {
    if rest.Some? { assert a + (b + rest.value.items) == a + b + rest.value.items; }
  }

  /** Every pair of items must be told apart. */
  method CheckPairs<T>(items: seq<T>, apart: (T, T) -> bool) returns (separate: bool)
    ensures separate <==> forall i, j :: 0 <= j < i < |items| ==> apart(items[i], items[j])
  {
    for i := 0 to |items|
      invariant forall a, b :: 0 <= b < a < i ==> apart(items[a], items[b])
    {
      for j := 0 to i
        invariant forall b :: 0 <= b < j ==> apart(items[i], items[b])
      {
        if !apart(items[i], items[j]) {
          return false;
        }
      }
    }
    return true;
  }

  /** The whole rewrite; the pairs are checked only when a nested union was flattened. */
  method FlattenRootObjectUnion(value: Json) returns (result: Option<Json>)
    ensures result == FlattenRoot(value)
  {
    if !value.Obj? || "oneOf" !in value.fields || !value.fields["oneOf"].Arr? ||
       !NeedsFlattening(value.fields["oneOf"].items) {
      return Some(value);
    }
    var root := value.fields;
    var resolver := new Resolver(root);
    var flat := resolver.FlattenBranches(root["oneOf"].items, 0);
    if flat.None? {
      return None;
    }
    var items := flat.value;
    if resolver.nested {
      var separate := CheckPairs(items, (a, b) => Disjoint(root, a, b));
      if !separate {
        return None;
      }
    }
    return Some(Obj(root["oneOf" := Arr(Values(items))]));
  }
}
