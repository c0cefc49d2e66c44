/**
 Which roots are flattened, and into what, told without counters and without the resolver:
 exactly those whose alternatives grow into trees of plain object schemas under pure unions.
 */
module SchemaAccept {
  import opened Collections
  import opened SchemaPointer
  import opened SchemaFlatten

  /** The keywords that never validate. */
  lemma AnnotationsNamed(key: string)
    ensures IsAnnotation(key) <==>
      key == "title" || key == "description" || key == "$comment" || key == "default" || key == "examples" ||
      key == "deprecated" || key == "readOnly" || key == "writeOnly"
  {
  }

  // ---- References -------------------------------------------------------------------------------

  /** A keyword beside a reference that may move onto what it refers to. */
  predicate Moves(resolved: Schema, key: string, sibling: Json) {
    IsAnnotation(key) || (key in {"type", "required"} && (key !in resolved || resolved[key] == sibling))
  }

  /** The value leads to the schema over the references of the chain, one after the other. */
  ghost predicate Leads(root: Schema, value: Json, chain: seq<string>, schema: Schema)
    decreases |chain|
  {
    && value.Obj? && "$id" !in value.fields
    && if chain == [] then "$ref" !in value.fields && schema == value.fields
       else
         && "$ref" in value.fields && value.fields["$ref"] == Str(chain[0]) && Target(root, chain[0]).Some?
         && exists resolved :: Leads(root, Target(root, chain[0]).value, chain[1..], resolved) &&
              Merged(value.fields, resolved, schema)
  }

  predicate Merged(schema: Schema, resolved: Schema, merged: Schema) {
    && (forall key {:trigger Moves(resolved, key, schema[key])} :: key in schema && key != "$ref" ==>
       Moves(resolved, key, schema[key]))
    && merged == resolved + (schema - {"$ref"})
  }

  /** No reference of the chain was seen before or comes twice. */
  predicate Fresh(seen: seq<string>, chain: seq<string>)
    decreases |chain|
  {
    chain == [] || (chain[0] !in seen && Fresh(seen + [chain[0]], chain[1..]))
  }

  /** The chain has no reference twice and is not too long. */
  ghost predicate Reaches(root: Schema, value: Json, schema: Schema) {
    exists chain :: Fresh([], chain) && |chain| <= MAX_DEPTH && Leads(root, value, chain, schema)
  }

  lemma MergedMayMerge(schema: Schema, resolved: Schema, merged: Schema)
    ensures Merged(schema, resolved, merged) <==>
      (forall key :: key in Siblings(schema) ==> MayMerge(resolved, key, schema[key])) &&
      merged == resolved + Siblings(schema)
  {
    forall key | key in schema && key != "$ref"
      ensures key in Siblings(schema) && (Moves(resolved, key, schema[key]) <==> MayMerge(resolved, key, schema[key]))
    {
    }
  }

  lemma {:induction false} LeadsResolves(root: Schema, value: Json, seen: seq<string>, chain: seq<string>,
                                         schema: Schema)
    requires Leads(root, value, chain, schema) && Fresh(seen, chain) && |seen| + |chain| <= MAX_DEPTH
    ensures Resolve(root, value, seen) == Some(schema)
    decreases |chain|
  {
    if chain != [] {
      var target := Target(root, chain[0]).value;
      var resolved :| Leads(root, target, chain[1..], resolved) && Merged(value.fields, resolved, schema);
      LeadsResolves(root, target, seen + [chain[0]], chain[1..], resolved);
      MergedMayMerge(value.fields, resolved, schema);
    }
  }

  lemma {:induction false} ResolvesLeads(root: Schema, value: Json, seen: seq<string>, schema: Schema)
      returns (chain: seq<string>)
    requires |seen| <= MAX_DEPTH && Resolve(root, value, seen) == Some(schema)
    ensures Leads(root, value, chain, schema) && Fresh(seen, chain) && |seen| + |chain| <= MAX_DEPTH
    decreases MAX_DEPTH - |seen|
  {
    if "$ref" in value.fields {
      var ref := value.fields["$ref"].value;
      var target := Target(root, ref).value;
      var resolved := Resolve(root, target, seen + [ref]).value;
      var rest := ResolvesLeads(root, target, seen + [ref], resolved);
      chain := [ref] + rest;
      assert chain[1..] == rest;
      MergedMayMerge(value.fields, resolved, schema);
    } else {
      chain := [];
    }
  }

  /** Resolving follows every chain of distinct references up to the limit, and nothing else. */
  lemma ResolveExactly(root: Schema, value: Json, schema: Schema)
    ensures Resolve(root, value, []) == Some(schema) <==> Reaches(root, value, schema)
  {
    if Reaches(root, value, schema) {
      var chain :| Fresh([], chain) && |chain| <= MAX_DEPTH && Leads(root, value, chain, schema);
      LeadsResolves(root, value, [], chain, schema);
    }
    if Resolve(root, value, []) == Some(schema) {
      var chain := ResolvesLeads(root, value, [], schema);
    }
  }

  // ---- Telling two schemas apart ----------------------------------------------------------------

  /** A schema that allows exactly these texts: a constant text, or else an enumeration of texts. */
  predicate Lists(schema: Schema, texts: set<string>) {
    if "const" in schema && schema["const"].Str? then texts == {schema["const"].value}
    else
      && "enum" in schema && schema["enum"].Arr? && schema["enum"].items != []
      && var entries := schema["enum"].items;
         (forall k :: 0 <= k < |entries| ==> entries[k].Str?) &&
         texts == set k | 0 <= k < |entries| && entries[k].Str? :: entries[k].value
  }

  ghost predicate Allows(root: Schema, value: Json, texts: set<string>) {
    exists schema :: Reaches(root, value, schema) && Lists(schema, texts)
  }

  predicate Demands(schema: Schema, name: string) {
    && "required" in schema && schema["required"].Arr?
    && exists k :: 0 <= k < |schema["required"].items| && schema["required"].items[k] == Str(name)
  }

  predicate HasProperty(schema: Schema, name: string) {
    "properties" in schema && schema["properties"].Obj? && name in schema["properties"].fields
  }

  /** Both schemas demand the property and give it texts of their own. */
  ghost predicate ApartBy(root: Schema, left: Schema, right: Schema, name: string, a: set<string>, b: set<string>) {
    && Demands(left, name) && Demands(right, name) && HasProperty(left, name) && HasProperty(right, name)
    && Allows(root, left["properties"].fields[name], a) && Allows(root, right["properties"].fields[name], b)
    && a !! b
  }

  ghost predicate Apart(root: Schema, left: Schema, right: Schema) {
    exists name, a, b :: ApartBy(root, left, right, name, a, b)
  }

  function Range(texts: seq<string>): set<string> {
    set s | s in texts
  }

  lemma TextsRange(entries: seq<Json>)
    requires forall k :: 0 <= k < |entries| ==> entries[k].Str?
    ensures Range(Texts(entries)) == set k | 0 <= k < |entries| && entries[k].Str? :: entries[k].value
  {
    var texts := Texts(entries);
    forall s | s in Range(texts)
      ensures exists k :: 0 <= k < |entries| && entries[k].Str? && entries[k].value == s
    {
      var k :| 0 <= k < |texts| && texts[k] == s;
    }
    forall k | 0 <= k < |entries|
      ensures entries[k].value in Range(texts)
    {
      assert texts[k] in texts;
    }
  }

  lemma ListsExactly(schema: Schema, texts: set<string>)
    ensures Lists(schema, texts) <==>
      var values := if "const" in schema && schema["const"].Str? then [schema["const"].value]
                    else if "enum" in schema && schema["enum"].Arr? then AllStrings(schema["enum"].items) else [];
      values != [] && texts == Range(values)
  {
    if "const" in schema && schema["const"].Str? {
      assert Range([schema["const"].value]) == {schema["const"].value};
    } else if "enum" in schema && schema["enum"].Arr? {
      var entries := schema["enum"].items;
      if forall k :: 0 <= k < |entries| ==> entries[k].Str? {
        TextsRange(entries);
        assert AllStrings(entries) == Texts(entries);
      }
    }
  }

  lemma AllowsExactly(root: Schema, value: Json, texts: set<string>)
    ensures Allows(root, value, texts) <==>
      StringValues(root, value) != [] && texts == Range(StringValues(root, value))
  {
    if Allows(root, value, texts) {
      var schema :| Reaches(root, value, schema) && Lists(schema, texts);
      ResolveExactly(root, value, schema);
      ListsExactly(schema, texts);
    }
    if StringValues(root, value) != [] && texts == Range(StringValues(root, value)) {
      var schema := Resolve(root, value, []).value;
      ResolveExactly(root, value, schema);
      ListsExactly(schema, texts);
    }
  }

  lemma DemandsExactly(schema: Schema, name: string)
    ensures Demands(schema, name) <==> Requires(schema, name)
  {
  }

  lemma SeparatedRanges(a: seq<string>, b: seq<string>)
    ensures Separated(a, b) <==> Range(a) !! Range(b)
  {
    if Range(a) !! Range(b) {
      forall s | s in b
        ensures s !in a
      {
        assert s in Range(b);
      }
    }
  }

  lemma ApartByName(root: Schema, left: Schema, right: Schema, name: string)
    ensures Discriminates(root, left, right, name) <==> exists a, b :: ApartBy(root, left, right, name, a, b)
  {
    DemandsExactly(left, name);
    DemandsExactly(right, name);
    if name in Properties(left) && name in Properties(right) {
      var a, b := StringValues(root, Properties(left)[name]), StringValues(root, Properties(right)[name]);
      SeparatedRanges(a, b);
      if exists x, y :: ApartBy(root, left, right, name, x, y) {
        var x, y :| ApartBy(root, left, right, name, x, y);
        AllowsExactly(root, Properties(left)[name], x);
        AllowsExactly(root, Properties(right)[name], y);
      }
      if Discriminates(root, left, right, name) {
        AllowsExactly(root, Properties(left)[name], Range(a));
        AllowsExactly(root, Properties(right)[name], Range(b));
        assert ApartBy(root, left, right, name, Range(a), Range(b));
      }
    }
  }

  /**
   Two schemas count as disjoint exactly if both demand some property whose schemas, directly or
   over references, are constant texts or enumerations of texts without a text in common.
   */
  lemma DisjointExactly(root: Schema, left: Schema, right: Schema)
    ensures Disjoint(root, left, right) <==> Apart(root, left, right)
  {
    if Apart(root, left, right) {
      var name, a, b :| ApartBy(root, left, right, name, a, b);
      ApartByName(root, left, right, name);
      assert name in Properties(left);
    }
    if Disjoint(root, left, right) {
      var name :| name in Properties(left) && Discriminates(root, left, right, name);
      ApartByName(root, left, right, name);
    }
  }

  // ---- The tree of an alternative ---------------------------------------------------------------

  /** What an alternative resolves to, and below a union what the alternatives of that resolve to. */
  datatype Tree = Plain(schema: Schema) | Union(schema: Schema, under: seq<Tree>)

  /** A keyword that a union may have without constraining anything else. */
  predicate UnitesBy(schema: Schema, key: string)
    requires key in schema
  {
    key == "oneOf" || (key == "type" && schema[key] == Str("object")) ||
    (key == "properties" && schema[key] == Obj(map[])) || IsAnnotation(key)
  }

  predicate OnlyUnites(schema: Schema) {
    forall key {:trigger UnitesBy(schema, key)} :: key in schema ==> UnitesBy(schema, key)
  }

  /** The annotations of a union that one of its alternatives lacks. */
  function Lacking(parent: Schema, child: Schema): Schema {
    map key | key in parent && IsAnnotation(key) && key !in child :: parent[key]
  }

  /** A schema below a union: its own keywords, and the union's annotations where it has none. */
  function Dressed(parent: Schema, child: Schema): Schema {
    (map key | key in parent && IsAnnotation(key) :: parent[key]) + child
  }

  function DressedAll(parent: Schema, children: seq<Schema>): seq<Schema> {
    if children == [] then [] else [Dressed(parent, children[0])] + DressedAll(parent, children[1..])
  }

  /** The plain schemas of a tree from left to right, with the annotations of the unions above them. */
  function Fruits(tree: Tree): seq<Schema>
    decreases tree, 1
  {
    match tree
    case Plain(schema) => [schema]
    case Union(schema, under) => DressedAll(schema, AllFruits(under))
  }

  function AllFruits(trees: seq<Tree>): seq<Schema>
    decreases trees, 0
  {
    if trees == [] then [] else Fruits(trees[0]) + AllFruits(trees[1..])
  }

  /** The child says nothing else than the union where both have an annotation. */
  predicate Agrees(parent: Schema, child: Schema) {
    forall key {:trigger IsAnnotation(key)} ::
      IsAnnotation(key) && key in parent && key in child ==> child[key] == parent[key]
  }

  ghost predicate DressesOne(parent: Schema, child: Schema) {
    Agrees(parent, child) &&
    forall key {:trigger Shallow(parent[key], 0)} :: key in Lacking(parent, child) ==> Shallow(parent[key], 0)
  }

  /** The union's annotations can be written onto each of the children. */
  ghost predicate Dresses(parent: Schema, children: seq<Schema>) {
    children == [] || (DressesOne(parent, children[0]) && Dresses(parent, children[1..]))
  }

  /**
   The value resolves to the schema of the tree, a plain object schema, or a union that
   constrains nothing else and whose alternatives grow into the trees under it; nothing is too
   deep, and no annotations conflict.
   */
  ghost predicate Grows(root: Schema, value: Json, depth: nat, tree: Tree)
    decreases tree, 1
  {
    && Resolve(root, value, []) == Some(tree.schema)
    && match tree
       case Plain(schema) =>
         "oneOf" !in schema && "type" in schema && schema["type"] == Str("object") && Shallow(Obj(schema), 0)
       case Union(schema, under) =>
         && "oneOf" in schema && schema["oneOf"].Arr? && OnlyUnites(schema)
         && under != [] && depth < MAX_DEPTH && AllGrow(root, schema["oneOf"].items, depth + 1, under)
         && Dresses(schema, AllFruits(under))
  }

  ghost predicate AllGrow(root: Schema, items: seq<Json>, depth: nat, trees: seq<Tree>)
    decreases trees, 0
  {
    if trees == [] || items == [] then trees == [] && items == []
    else Grows(root, items[0], depth, trees[0]) && AllGrow(root, items[1..], depth, trees[1..])
  }

  /** The weight of what is written: every plain schema, and every annotation added to one. */
  ghost function Cost(tree: Tree): nat
    decreases tree, 1
  {
    match tree
    case Plain(schema) => Weight(Obj(schema))
    case Union(schema, under) => AllCosts(under) + DressCost(schema, AllFruits(under))
  }

  ghost function AllCosts(trees: seq<Tree>): nat
    decreases trees, 0
  {
    if trees == [] then 0 else Cost(trees[0]) + AllCosts(trees[1..])
  }

  ghost function DressCost(parent: Schema, children: seq<Schema>): nat {
    if children == [] then 0
    else
      var added := Lacking(parent, children[0]);
      InheritedWeight(added, added.Keys) + DressCost(parent, children[1..])
  }

  // ---- Annotations ------------------------------------------------------------------------------

  lemma LackingInherited(parent: Schema, child: Schema)
    ensures Inherited(parent, child) == Lacking(parent, child)
  {
  }

  lemma ConflictsDisagree(parent: Schema, child: Schema)
    ensures Conflicts(parent, child) <==> !Agrees(parent, child)
  {
  }

  lemma DressedIsAdded(parent: Schema, child: Schema)
    ensures child + Lacking(parent, child) == Dressed(parent, child)
  {
  }

  lemma NothingLacking()
    ensures InheritedWeight(map[], {}) == 0
  {
  }

  lemma WrittenShallow(parent: Schema, child: Schema, added: Schema)
    requires added == Lacking(parent, child)
    ensures DressesOne(parent, child) <==>
      Agrees(parent, child) && forall key :: key in added ==> Shallow(added[key], 0)
  {
  }

  lemma InheritRefused(c: Counters, parent: Schema, child: Schema)
    requires Conflicts(parent, child)
    ensures Inherit(c, parent, child) == None
  {
  }

  lemma InheritDeep(c: Counters, parent: Schema, child: Schema, added: Schema, key: string)
    requires added == Inherited(parent, child) && key in added && !Shallow(added[key], 0)
    ensures Inherit(c, parent, child) == None
  {
  }

  lemma InheritGiven(c: Counters, parent: Schema, child: Schema, added: Schema, weight: nat)
    requires c.remaining >= 0 && added == Inherited(parent, child) && weight == InheritedWeight(added, added.Keys)
    requires !Conflicts(parent, child) && forall key :: key in added ==> Shallow(added[key], 0)
    requires added == map[] ==> weight == 0
    ensures Inherit(c, parent, child) ==
              if weight <= c.remaining
              then Some(Child(child + added, c.(remaining := c.remaining - weight))) else None
  {
  }

  lemma InheritIs(c: Counters, parent: Schema, child: Schema, added: Schema, weight: nat, shallow: bool)
    requires c.remaining >= 0 && added == Inherited(parent, child) && weight == InheritedWeight(added, added.Keys)
    requires shallow == forall key :: key in added ==> Shallow(added[key], 0)
    requires added == map[] ==> weight == 0
    ensures Inherit(c, parent, child) ==
              if !Conflicts(parent, child) && shallow && weight <= c.remaining
              then Some(Child(child + added, c.(remaining := c.remaining - weight))) else None
  {
    if Conflicts(parent, child) {
      InheritRefused(c, parent, child);
    } else if !shallow {
      var key :| key in added && !Shallow(added[key], 0);
      InheritDeep(c, parent, child, added, key);
    } else {
      InheritGiven(c, parent, child, added, weight);
    }
  }

  lemma InheritDresses(c: Counters, parent: Schema, child: Schema, added: Schema, weight: nat)
    requires c.remaining >= 0 && added == Lacking(parent, child) && weight == InheritedWeight(added, added.Keys)
    ensures Inherit(c, parent, child) ==
              if DressesOne(parent, child) && weight <= c.remaining
              then Some(Child(Dressed(parent, child), c.(remaining := c.remaining - weight))) else None
  {
    var shallow := forall key :: key in added ==> Shallow(added[key], 0);
    LackingInherited(parent, child);
    NothingLacking();
    InheritIs(c, parent, child, added, weight, shallow);
    ConflictsDisagree(parent, child);
    WrittenShallow(parent, child, added);
    DressedIsAdded(parent, child);
  }

  /** The children dressed, as far as the weight allows. */
  ghost function Clothed(c: Counters, parent: Schema, children: seq<Schema>): Option<Flat> {
    if Dresses(parent, children) && DressCost(parent, children) <= c.remaining
    then Some(Flat(DressedAll(parent, children), c.(remaining := c.remaining - DressCost(parent, children)))) else None
  }

  lemma DressFirst(parent: Schema, children: seq<Schema>, added: Schema, weight: nat)
    requires children != [] && added == Lacking(parent, children[0]) && weight == InheritedWeight(added, added.Keys)
    ensures Dresses(parent, children) == (DressesOne(parent, children[0]) && Dresses(parent, children[1..]))
    ensures DressCost(parent, children) == weight + DressCost(parent, children[1..])
    ensures DressedAll(parent, children) == [Dressed(parent, children[0])] + DressedAll(parent, children[1..])
  {
  }

  lemma ClothedFirst(c: Counters, parent: Schema, children: seq<Schema>, added: Schema, weight: nat, r: Option<Flat>)
    requires children != [] && added == Lacking(parent, children[0]) && weight == InheritedWeight(added, added.Keys)
    requires DressesOne(parent, children[0]) && weight <= c.remaining
    requires r == Clothed(c.(remaining := c.remaining - weight), parent, children[1..])
    ensures Clothed(c, parent, children) ==
      if r.None? then None else Some(Flat([Dressed(parent, children[0])] + r.value.items, r.value.counters))
  {
    var cost, rest := DressCost(parent, children[1..]), DressedAll(parent, children[1..]);
    DressFirst(parent, children, added, weight);
    if Dresses(parent, children[1..]) && weight + cost <= c.remaining {
      assert r == Some(Flat(rest, c.(remaining := c.remaining - weight - cost)));
    } else {
      assert r == None;
    }
  }

  lemma ClothedNot(c: Counters, parent: Schema, children: seq<Schema>, added: Schema, weight: nat)
    requires children != [] && added == Lacking(parent, children[0]) && weight == InheritedWeight(added, added.Keys)
    requires !(DressesOne(parent, children[0]) && weight <= c.remaining)
    ensures Clothed(c, parent, children) == None
  {
  }

  lemma {:induction false} InheritAllDresses(c: Counters, parent: Schema, children: seq<Schema>)
    requires c.remaining >= 0
    ensures InheritAll(c, parent, children) == Clothed(c, parent, children)
    decreases |children|
  {
    if children != [] {
      var added := Lacking(parent, children[0]);
      var weight := InheritedWeight(added, added.Keys);
      InheritDresses(c, parent, children[0], added, weight);
      var first := Inherit(c, parent, children[0]);
      if first.Some? {
        InheritAllDresses(first.value.counters, parent, children[1..]);
        ClothedFirst(c, parent, children, added, weight, InheritAll(first.value.counters, parent, children[1..]));
      } else {
        ClothedNot(c, parent, children, added, weight);
      }
    } else {
      assert DressedAll(parent, children) == [];
    }
  }

  // ---- From trees to the expansion ----------------------------------------------------------------

  /** The expansion that the trees promise, within the limits. */
  ghost function Expected(c: Counters, fruits: seq<Schema>, cost: nat, nested: bool): Option<Flat> {
    if c.branches + |fruits| <= MAX_BRANCHES && cost <= c.remaining
    then Some(Flat(fruits, Counters(c.branches + |fruits|, c.remaining - cost, c.nested || nested))) else None
  }

  predicate Within(c: Counters) {
    c.branches <= MAX_BRANCHES && c.remaining >= 0
  }

  /** A union is among the trees. */
  predicate Nested(trees: seq<Tree>) {
    trees != [] && (trees[0].Union? || Nested(trees[1..]))
  }

  lemma UnitesPurely(schema: Schema)
    ensures OnlyUnites(schema) <==> PureObjectUnion(schema)
  {
    if PureObjectUnion(schema) {
      forall key | key in schema
        ensures UnitesBy(schema, key)
      {
      }
    }
    if OnlyUnites(schema) {
      forall key | key in schema
        ensures key == "oneOf" || (key == "type" && schema[key] == Str("object")) ||
          (key == "properties" && schema[key] == Obj(map[])) ||
          (key !in ["oneOf", "type", "properties"] && IsAnnotation(key))
      {
        assert UnitesBy(schema, key);
      }
    }
  }

  lemma PlainExpands(root: Schema, value: Json, depth: nat, c: Counters, tree: Tree, r: Option<Flat>)
    requires depth <= MAX_DEPTH && Within(c) && tree.Plain? && Grows(root, value, depth, tree)
    requires r == FlattenOne(root, value, depth, c)
    ensures r == Expected(c, Fruits(tree), Cost(tree), tree.Union?)
  {
  }

  lemma UnionStep(root: Schema, value: Json, depth: nat, c: Counters, branch: Schema, children: Option<Flat>)
    requires depth <= MAX_DEPTH && Resolve(root, value, []) == Some(branch)
    requires "oneOf" in branch && branch["oneOf"].Arr? && PureObjectUnion(branch)
    requires children == Flatten(root, branch["oneOf"].items, depth + 1, c.(nested := true))
    ensures FlattenOne(root, value, depth, c) ==
      if children.None? then None else InheritAll(children.value.counters, branch, children.value.items)
  {
  }

  lemma UnionWithin(c: Counters, schema: Schema, fruits: seq<Schema>, cost: nat, nested: bool, children: Option<Flat>)
    requires Within(c) && Dresses(schema, fruits) && children == Expected(c.(nested := true), fruits, cost, nested)
    ensures (if children.None? then None else Clothed(children.value.counters, schema, children.value.items)) ==
      Expected(c, DressedAll(schema, fruits), cost + DressCost(schema, fruits), true)
  {
    DressedCount(schema, fruits);
  }

  lemma {:induction false} DressedCount(parent: Schema, children: seq<Schema>)
    ensures |DressedAll(parent, children)| == |children|
  {
    if children != [] { DressedCount(parent, children[1..]); }
  }

  lemma UnionExpected(c: Counters, tree: Tree, children: Option<Flat>, r: Option<Flat>)
    requires Within(c) && tree.Union? && Dresses(tree.schema, AllFruits(tree.under))
    requires children == Expected(c.(nested := true), AllFruits(tree.under), AllCosts(tree.under), Nested(tree.under))
    requires r == if children.None? then None
      else InheritAll(children.value.counters, tree.schema, children.value.items)
    ensures r == Expected(c, Fruits(tree), Cost(tree), tree.Union?)
  {
    if children.Some? { InheritAllDresses(children.value.counters, tree.schema, AllFruits(tree.under)); }
    UnionWithin(c, tree.schema, AllFruits(tree.under), AllCosts(tree.under), Nested(tree.under), children);
    UnionFruits(tree);
  }

  /** The value resolves to a pure union of these items, and the trees under it grow from them. */
  ghost predicate UnionAt(root: Schema, value: Json, depth: nat, tree: Tree, items: seq<Json>) {
    && tree.Union? && "oneOf" in tree.schema && tree.schema["oneOf"] == Arr(items) && items != [] && depth < MAX_DEPTH
    && Resolve(root, value, []) == Some(tree.schema) && PureObjectUnion(tree.schema)
    && Dresses(tree.schema, AllFruits(tree.under))
  }

  lemma UnionParts(root: Schema, value: Json, depth: nat, tree: Tree) returns (items: seq<Json>)
    requires tree.Union? && Grows(root, value, depth, tree)
    ensures UnionAt(root, value, depth, tree, items)
    ensures AllGrow(root, items, depth + 1, tree.under)
  {
    UnitesPurely(tree.schema);
    items := tree.schema["oneOf"].items;
  }

  lemma UnionExpands(root: Schema, value: Json, depth: nat, c: Counters, tree: Tree, items: seq<Json>,
                     children: Option<Flat>, r: Option<Flat>)
    requires Within(c) && UnionAt(root, value, depth, tree, items) && r == FlattenOne(root, value, depth, c)
    requires children == FlattenList(root, items, depth + 1, c.(nested := true))
    requires Promised(c, tree.under, children)
    ensures r == Expected(c, Fruits(tree), Cost(tree), tree.Union?)
  {
    UnionStep(root, value, depth, c, tree.schema, children);
    UnionExpected(c, tree, children, r);
  }

  lemma UnionFruits(tree: Tree)
    requires tree.Union?
    ensures Fruits(tree) == DressedAll(tree.schema, AllFruits(tree.under))
    ensures Cost(tree) == AllCosts(tree.under) + DressCost(tree.schema, AllFruits(tree.under))
  {
  }

  lemma {:induction false} TreeExpands(root: Schema, value: Json, depth: nat, c: Counters, tree: Tree, r: Option<Flat>)
    requires depth <= MAX_DEPTH && Within(c) && Grows(root, value, depth, tree)
    requires r == FlattenOne(root, value, depth, c)
    ensures r == Expected(c, Fruits(tree), Cost(tree), tree.Union?)
    decreases tree, 2
  {
    if tree.Plain? {
      PlainExpands(root, value, depth, c, tree, r);
    } else {
      var items := UnionParts(root, value, depth, tree);
      var children := FlattenList(root, items, depth + 1, c.(nested := true));
      if Promised(c, tree.under, children) { UnionExpands(root, value, depth, c, tree, items, children, r); }
      UnderExpands(root, items, depth, c, tree, children);
    }
  }

  /** The expansion below a union is what its trees promise. */
  ghost predicate Promised(c: Counters, under: seq<Tree>, children: Option<Flat>) {
    children == Expected(c.(nested := true), AllFruits(under), AllCosts(under), Nested(under))
  }

  lemma {:induction false} UnderExpands(root: Schema, items: seq<Json>, depth: nat, c: Counters, tree: Tree,
                                        children: Option<Flat>)
    requires Within(c) && tree.Union? && depth < MAX_DEPTH
    requires AllGrow(root, items, depth + 1, tree.under)
    requires children == FlattenList(root, items, depth + 1, c.(nested := true))
    ensures Promised(c, tree.under, children)
    decreases tree, 1
  {
    TreesExpand(root, items, depth + 1, c.(nested := true), tree.under, children);
  }

  /** The expansion of a list, from that of its first branch and of the others. */
  function Both(first: Option<Flat>, rest: Option<Flat>): Option<Flat> {
    if first.None? || rest.None? then None
    else Some(Flat(first.value.items + rest.value.items, rest.value.counters))
  }

  lemma ListStep(root: Schema, items: seq<Json>, depth: nat, c: Counters, first: Option<Flat>)
    requires depth <= MAX_DEPTH && items != [] && first == FlattenOne(root, items[0], depth, c)
    ensures FlattenList(root, items, depth, c) ==
      if first.None? then None else Both(first, FlattenList(root, items[1..], depth, first.value.counters))
  {
  }

  lemma BothWithin(c: Counters, a: seq<Schema>, b: seq<Schema>, x: nat, y: nat, m: bool, n: bool, first: Option<Flat>,
                   rest: Option<Flat>)
    requires first == Expected(c, a, x, m) && (first.Some? ==> rest == Expected(first.value.counters, b, y, n))
    ensures (if first.None? then None else Both(first, rest)) == Expected(c, a + b, x + y, m || n)
  {
  }

  lemma FirstOfAll(trees: seq<Tree>)
    requires trees != []
    ensures AllFruits(trees) == Fruits(trees[0]) + AllFruits(trees[1..])
    ensures AllCosts(trees) == Cost(trees[0]) + AllCosts(trees[1..])
    ensures Nested(trees) == (trees[0].Union? || Nested(trees[1..]))
  {
  }

  lemma BothExpected(c: Counters, trees: seq<Tree>, first: Option<Flat>, rest: Option<Flat>, both: Option<Flat>)
    requires trees != [] && first == Expected(c, Fruits(trees[0]), Cost(trees[0]), trees[0].Union?)
    requires first.Some? ==>
      rest == Expected(first.value.counters, AllFruits(trees[1..]), AllCosts(trees[1..]), Nested(trees[1..]))
    requires both == if first.None? then None else Both(first, rest)
    ensures both == Expected(c, AllFruits(trees), AllCosts(trees), Nested(trees))
  {
    var a, x, b, y := Fruits(trees[0]), Cost(trees[0]), AllFruits(trees[1..]), AllCosts(trees[1..]);
    BothWithin(c, a, b, x, y, trees[0].Union?, Nested(trees[1..]), first, rest);
    FirstOfAll(trees);
  }

  lemma {:induction false} TreesExpand(root: Schema, items: seq<Json>, depth: nat, c: Counters, trees: seq<Tree>,
                                       r: Option<Flat>)
    requires depth <= MAX_DEPTH && Within(c) && AllGrow(root, items, depth, trees)
    requires r == FlattenList(root, items, depth, c)
    ensures r == Expected(c, AllFruits(trees), AllCosts(trees), Nested(trees))
    decreases trees, 0
  {
    if trees == [] {
      assert items == [];
    } else {
      var first := FlattenOne(root, items[0], depth, c);
      TreeExpands(root, items[0], depth, c, trees[0], first);
      ListStep(root, items, depth, c, first);
      var rest := None;
      if first.Some? {
        rest := FlattenList(root, items[1..], depth, first.value.counters);
        TreesExpand(root, items[1..], depth, first.value.counters, trees[1..], rest);
      }
      BothExpected(c, trees, first, rest, r);
    }
  }

  // ---- From the expansion to trees ------------------------------------------------------------------

  lemma PlainGrows(root: Schema, value: Json, depth: nat, c: Counters, branch: Schema)
    requires depth <= MAX_DEPTH && FlattenOne(root, value, depth, c).Some? && Resolve(root, value, []) == Some(branch)
    requires "oneOf" !in branch
    ensures Grows(root, value, depth, Plain(branch))
  {
  }

  /** What a successful expansion of a union has shown. */
  ghost predicate Expanded(root: Schema, value: Json, depth: nat, c: Counters, branch: Schema, items: seq<Json>) {
    && "oneOf" in branch && branch["oneOf"] == Arr(items) && items != [] && depth < MAX_DEPTH && OnlyUnites(branch)
    && Resolve(root, value, []) == Some(branch)
    && match FlattenList(root, items, depth + 1, c)
       case None => false
       case Some(f) => InheritAll(f.counters, branch, f.items).Some?
  }

  lemma UnionExpanded(root: Schema, value: Json, depth: nat, c: Counters, branch: Schema) returns (items: seq<Json>)
    requires depth <= MAX_DEPTH && FlattenOne(root, value, depth, c).Some? && Resolve(root, value, []) == Some(branch)
    requires "oneOf" in branch
    ensures Expanded(root, value, depth, c.(nested := true), branch, items)
  {
    UnitesPurely(branch);
    items := branch["oneOf"].items;
  }

  lemma UnionGrows(root: Schema, value: Json, depth: nat, c: Counters, branch: Schema, items: seq<Json>,
                   under: seq<Tree>)
    requires Within(c) && Expanded(root, value, depth, c, branch, items)
    requires AllGrow(root, items, depth + 1, under)
    ensures Grows(root, value, depth, Union(branch, under))
  {
    var children := FlattenList(root, items, depth + 1, c);
    TreesExpand(root, items, depth + 1, c, under, children);
    InheritAllDresses(children.value.counters, branch, children.value.items);
  }

  lemma {:induction false} ExpansionGrows(root: Schema, value: Json, depth: nat, c: Counters) returns (tree: Tree)
    requires depth <= MAX_DEPTH && Within(c) && FlattenOne(root, value, depth, c).Some?
    ensures Grows(root, value, depth, tree)
    decreases MAX_DEPTH + 1 - depth, 1
  {
    var branch := Resolve(root, value, []).value;
    if "oneOf" in branch {
      var items := UnionExpanded(root, value, depth, c, branch);
      tree := UnionTree(root, value, depth, c.(nested := true), branch, items);
    } else {
      PlainGrows(root, value, depth, c, branch);
      tree := Plain(branch);
    }
  }

  lemma {:induction false} UnionTree(root: Schema, value: Json, depth: nat, c: Counters, branch: Schema,
                                     items: seq<Json>) returns (tree: Tree)
    requires Within(c) && Expanded(root, value, depth, c, branch, items)
    ensures Grows(root, value, depth, tree)
    decreases MAX_DEPTH + 1 - depth, 0
  {
    var under := ExpansionsGrow(root, items, depth + 1, c);
    UnionGrows(root, value, depth, c, branch, items, under);
    tree := Union(branch, under);
  }

  lemma {:induction false} ExpansionsGrow(root: Schema, items: seq<Json>, depth: nat, c: Counters)
      returns (trees: seq<Tree>)
    requires depth <= MAX_DEPTH && Within(c) && FlattenList(root, items, depth, c).Some?
    ensures AllGrow(root, items, depth, trees)
    decreases MAX_DEPTH + 1 - depth, |items| + 1
  {
    if items == [] {
      trees := [];
    } else {
      var tree := ExpansionGrows(root, items[0], depth, c);
      var first := FlattenOne(root, items[0], depth, c);
      TreeExpands(root, items[0], depth, c, tree, first);
      var rest := ExpansionsGrow(root, items[1..], depth, first.value.counters);
      trees := [tree] + rest;
    }
  }

  // ---- The root -------------------------------------------------------------------------------------

  ghost predicate PairwiseApart(root: Schema, fruits: seq<Schema>) {
    forall i, j :: 0 <= j < i < |fruits| ==> Apart(root, fruits[i], fruits[j])
  }

  /**
   The alternatives of the root grow into these trees, within the limits on the number and the
   weight of what is written, and where a union is among them the plain schemas are apart.
   */
  ghost predicate Acceptable(root: Schema, items: seq<Json>, trees: seq<Tree>) {
    && AllGrow(root, items, 0, trees) && trees != []
    && |AllFruits(trees)| <= MAX_BRANCHES && AllCosts(trees) <= MAX_WEIGHT
    && (Nested(trees) ==> PairwiseApart(root, AllFruits(trees)))
  }

  /** A root with alternatives of which one is a reference or a union. */
  predicate Rewritable(root: Schema) {
    && "oneOf" in root && root["oneOf"].Arr?
    && exists k :: 0 <= k < |root["oneOf"].items| && root["oneOf"].items[k].Obj? &&
         ("$ref" in root["oneOf"].items[k].fields || "oneOf" in root["oneOf"].items[k].fields)
  }

  lemma PairwiseDisjoint(root: Schema, fruits: seq<Schema>)
    ensures AllDisjoint(root, fruits) <==> PairwiseApart(root, fruits)
  {
    forall i, j | 0 <= j < i < |fruits|
      ensures Disjoint(root, fruits[i], fruits[j]) <==> Apart(root, fruits[i], fruits[j])
    {
      DisjointExactly(root, fruits[i], fruits[j]);
    }
  }

  lemma AcceptableFlattens(root: Schema, trees: seq<Tree>)
    requires Rewritable(root) && Acceptable(root, root["oneOf"].items, trees)
    ensures FlattenRoot(Obj(root)) == Some(Obj(root["oneOf" := Arr(Values(AllFruits(trees)))]))
  {
    TreesExpand(root, root["oneOf"].items, 0, START, trees, Flatten(root, root["oneOf"].items, 0, START));
    PairwiseDisjoint(root, AllFruits(trees));
  }

  /**
   A root to be rewritten is flattened exactly if its alternatives grow into acceptable trees,
   and the new alternatives are the plain schemas of those trees in order.
   */
  lemma FlattenExactly(root: Schema)
    requires Rewritable(root)
    ensures FlattenRoot(Obj(root)).Some? <==> exists trees :: Acceptable(root, root["oneOf"].items, trees)
    ensures forall trees :: Acceptable(root, root["oneOf"].items, trees) ==>
              FlattenRoot(Obj(root)) == Some(Obj(root["oneOf" := Arr(Values(AllFruits(trees)))]))
  {
    forall trees | Acceptable(root, root["oneOf"].items, trees)
      ensures FlattenRoot(Obj(root)) == Some(Obj(root["oneOf" := Arr(Values(AllFruits(trees)))]))
    {
      AcceptableFlattens(root, trees);
    }
    if FlattenRoot(Obj(root)).Some? {
      var trees := ExpansionsGrow(root, root["oneOf"].items, 0, START);
      TreesExpand(root, root["oneOf"].items, 0, START, trees, Flatten(root, root["oneOf"].items, 0, START));
      PairwiseDisjoint(root, AllFruits(trees));
      assert Acceptable(root, root["oneOf"].items, trees);
    }
  }

  /** An object weighs more than any of its fields. */
  lemma FieldLighter(value: Json, key: string)
    requires value.Obj? && key in value.fields
    ensures Weight(value) >= 1 + |key| + Weight(value.fields[key])
  {
    WeightRemove(value, value.fields.Keys, key);
  }

  /** A schema with a text or a number of a megabyte among its keywords is too heavy to be written. */
  lemma LongTextRefused(c: Counters, schema: Schema, key: string)
    requires key in schema && c.remaining <= MAX_WEIGHT
    requires (schema[key].Str? && |schema[key].value| >= 0x10_0000) ||
             (schema[key].Num? && |schema[key].text| >= 0x10_0000)
    ensures Charged(c, Obj(schema)) == None
  {
    FieldLighter(Obj(schema), key);
  }

  /** Anything else is returned as it is. */
  lemma OthersUnchanged(value: Json)
    requires !(value.Obj? && Rewritable(value.fields))
    ensures FlattenRoot(value) == Some(value)
  {
  }
}
