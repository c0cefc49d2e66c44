/**
 FlattenRootObjectUnion: the root oneOf of a tool schema with its references expanded and
 its nested object unions flattened, or an error where that might change validation.
 */
module SchemaFlatten {
  import opened Collections
  import opened SchemaPointer

  const MAX_DEPTH := 64
  const MAX_BRANCHES := 256
  const MAX_WEIGHT := 0x10_0000

  predicate IsAnnotation(key: string) {
    key in ["title", "description", "$comment", "default", "examples", "deprecated", "readOnly", "writeOnly"]
  }

  // ---- References ------------------------------------------------------------------------

  /** Whether one sibling of a reference may be moved onto the resolved schema. */
  predicate MayMerge(resolved: Schema, key: string, sibling: Json) {
    IsAnnotation(key) ||
    ((key == "type" || key == "required") && (key in resolved ==> resolved[key] == sibling))
  }

  function Siblings(schema: Schema): Schema {
    schema - {"$ref"}
  }

  /** resolve: the schema with its reference chain replaced by the target's keywords. */
  function Resolve(root: Schema, value: Json, seen: seq<string>): Option<Schema>
    requires |seen| <= MAX_DEPTH
    decreases MAX_DEPTH - |seen|
  {
    if !value.Obj? then None
    else
      var schema := value.fields;
      if "$id" in schema then None
      else if "$ref" !in schema then Some(schema)
      else if !schema["$ref"].Str? || schema["$ref"].value in seen || |seen| >= MAX_DEPTH then None
      else
        var ref := schema["$ref"].value;
        match Target(root, ref)
        case None => None
        case Some(target) =>
          match Resolve(root, target, seen + [ref])
          case None => None
          case Some(resolved) =>
            if forall key :: key in Siblings(schema) ==> MayMerge(resolved, key, schema[key])
            then Some(resolved + Siblings(schema)) else None
  }

  // ---- Expansion weight ------------------------------------------------------------------

  /** What charge subtracts for a value: one per node, and the bytes of keys and text. */
  ghost function Weight(value: Json): (w: nat)
    decreases value, if value.Obj? then |value.fields.Keys| + 1 else 0
  {
    match value
    case Obj(fields) => 1 + WeightOf(value, fields.Keys)
    case Arr(items) => 1 + WeightItems(items)
    case Str(text) => 1 + |text|
    case Num(text) => 1 + |text|
    case _ => 1
  }

  ghost function WeightItems(items: seq<Json>): nat {
    if items == [] then 0 else Weight(items[0]) + WeightItems(items[1..])
  }

  ghost function WeightOf(value: Json, keys: set<string>): nat
    requires value.Obj? && keys <= value.fields.Keys
    decreases value, |keys|
  {
    if keys == {} then 0
    else
      var k :| k in keys;
      |k| + Weight(value.fields[k]) + WeightOf(value, keys - {k})
  }

  /** The order in which keys are visited does not matter. */
  lemma {:induction false} WeightRemove(value: Json, keys: set<string>, key: string)
    requires value.Obj? && keys <= value.fields.Keys && key in keys
    ensures WeightOf(value, keys) == |key| + Weight(value.fields[key]) + WeightOf(value, keys - {key})
    decreases |keys|
  {
    var k :| k in keys && WeightOf(value, keys) == |k| + Weight(value.fields[k]) + WeightOf(value, keys - {k});
    if k != key {
      WeightRemove(value, keys - {k}, key);
      WeightRemove(value, keys - {key}, k);
      assert keys - {k} - {key} == keys - {key} - {k};
    }
  }

  /** No node lies deeper than the limit allows. */
  ghost predicate Shallow(value: Json, depth: nat)
    decreases value
  {
    depth <= MAX_DEPTH &&
    match value
    case Obj(fields) => forall k :: k in fields ==> Shallow(fields[k], depth + 1)
    case Arr(items) => forall i :: 0 <= i < |items| ==> Shallow(items[i], depth + 1)
    case _ => true
  }

  // ---- The resolver's counters --------------------------------------------------------------

  datatype Counters = Counters(branches: nat, remaining: int, nested: bool)

  /** charge: None is the error. */
  ghost function Charged(c: Counters, value: Json): Option<Counters> {
    if Shallow(value, 0) && c.remaining - Weight(value) >= 0 then Some(c.(remaining := c.remaining - Weight(value)))
    else None
  }

  /** Annotations of a union branch that a child does not have. */
  function Inherited(parent: Schema, child: Schema): Schema {
    map key | key in parent && IsAnnotation(key) && key !in child :: parent[key]
  }

  predicate Conflicts(parent: Schema, child: Schema) {
    exists key :: key in parent && IsAnnotation(key) && key in child && child[key] != parent[key]
  }

  ghost function InheritedWeight(added: Schema, keys: set<string>): nat
    requires keys <= added.Keys
    decreases |keys|
  {
    if keys == {} then 0
    else
      var k :| k in keys;
      Weight(added[k]) + InheritedWeight(added, keys - {k})
  }

  lemma {:induction false} InheritedRemove(added: Schema, keys: set<string>, key: string)
    requires keys <= added.Keys && key in keys
    ensures InheritedWeight(added, keys) == Weight(added[key]) + InheritedWeight(added, keys - {key})
    decreases |keys|
  {
    var k :| k in keys && InheritedWeight(added, keys) == Weight(added[k]) + InheritedWeight(added, keys - {k});
    if k != key {
      InheritedRemove(added, keys - {k}, key);
      InheritedRemove(added, keys - {key}, k);
      assert keys - {k} - {key} == keys - {key} - {k};
    }
  }

  datatype Child = Child(schema: Schema, counters: Counters)

  /** inheritAnnotations: None is the error. */
  ghost function Inherit(c: Counters, parent: Schema, child: Schema): Option<Child> {
    var added := Inherited(parent, child);
    if Conflicts(parent, child) || !(forall k :: k in added ==> Shallow(added[k], 0)) then None
    else if added != map[] && c.remaining - InheritedWeight(added, added.Keys) < 0 then None
    else Some(Child(child + added, c.(remaining := c.remaining - InheritedWeight(added, added.Keys))))
  }

  datatype Flat = Flat(items: seq<Schema>, counters: Counters)

  ghost function InheritAll(c: Counters, parent: Schema, children: seq<Schema>): Option<Flat>
    decreases |children|
  {
    if children == [] then Some(Flat([], c))
    else
      match Inherit(c, parent, children[0])
      case None => None
      case Some(first) =>
        match InheritAll(first.counters, parent, children[1..])
        case None => None
        case Some(rest) => Some(Flat([first.schema] + rest.items, rest.counters))
  }

  // ---- Flattening -------------------------------------------------------------------------------

  predicate PureObjectUnion(branch: Schema) {
    forall key :: key in branch ==>
      || key == "oneOf"
      || (key == "type" && branch[key] == Str("object"))
      || (key == "properties" && branch[key] == Obj(map[]))
      || (key !in ["oneOf", "type", "properties"] && IsAnnotation(key))
  }

  /** flatten: the leaves of a branch list, with the counters after it; None is the error. */
  ghost function Flatten(root: Schema, branches: seq<Json>, depth: nat, c: Counters): Option<Flat>
    decreases MAX_DEPTH + 1 - depth, |branches| + 1
  {
    if depth > MAX_DEPTH || branches == [] then None else FlattenList(root, branches, depth, c)
  }

  ghost function FlattenList(root: Schema, branches: seq<Json>, depth: nat, c: Counters): Option<Flat>
    requires depth <= MAX_DEPTH
    decreases MAX_DEPTH + 1 - depth, |branches|
  {
    if branches == [] then Some(Flat([], c))
    else
      match FlattenOne(root, branches[0], depth, c)
      case None => None
      case Some(first) =>
        match FlattenList(root, branches[1..], depth, first.counters)
        case None => None
        case Some(rest) => Some(Flat(first.items + rest.items, rest.counters))
  }

  /** The leaves of one branch. */
  ghost function FlattenOne(root: Schema, value: Json, depth: nat, c: Counters): Option<Flat>
    requires depth <= MAX_DEPTH
    decreases MAX_DEPTH + 1 - depth, 0
  {
    match Resolve(root, value, [])
    case None => None
    case Some(branch) =>
      if "oneOf" in branch then
        if !branch["oneOf"].Arr? || !PureObjectUnion(branch) then None
        else
          match Flatten(root, branch["oneOf"].items, depth + 1, c.(nested := true))
          case None => None
          case Some(children) => InheritAll(children.counters, branch, children.items)
      else if "type" !in branch || branch["type"] != Str("object") then None
      else
        match Charged(c, Obj(branch))
        case None => None
        case Some(paid) =>
          if paid.branches + 1 > MAX_BRANCHES then None
          else Some(Flat([branch], paid.(branches := paid.branches + 1)))
  }

  predicate NeedsFlattening(branches: seq<Json>) {
    exists i :: 0 <= i < |branches| && branches[i].Obj? &&
      ("$ref" in branches[i].fields || "oneOf" in branches[i].fields)
  }

  predicate Requires(schema: Schema, name: string) {
    "required" in schema && schema["required"].Arr? && Str(name) in schema["required"].items
  }

  /** stringValues: the strings a property schema allows; [] when it does not say. */
  function StringValues(root: Schema, value: Json): seq<string> {
    match Resolve(root, value, [])
    case None => []
    case Some(schema) =>
      if "const" in schema && schema["const"].Str? then [schema["const"].value]
      else if "enum" in schema && schema["enum"].Arr? then AllStrings(schema["enum"].items)
      else []
  }

  function AllStrings(entries: seq<Json>): (values: seq<string>)
    ensures values != [] ==> forall i :: 0 <= i < |entries| ==> entries[i].Str? && entries[i].value in values
  {
    if forall i :: 0 <= i < |entries| ==> entries[i].Str? then Texts(entries) else []
  }

  function Texts(entries: seq<Json>): (values: seq<string>)
    requires forall i :: 0 <= i < |entries| ==> entries[i].Str?
    ensures |values| == |entries| && forall i :: 0 <= i < |entries| ==> entries[i].value == values[i]
  {
    if entries == [] then [] else [entries[0].value] + Texts(entries[1..])
  }

  predicate Separated(left: seq<string>, right: seq<string>) {
    forall s :: s in right ==> s !in left
  }

  function Properties(schema: Schema): Schema {
    if "properties" in schema && schema["properties"].Obj? then schema["properties"].fields else map[]
  }

  /** One property that tells the two schemas apart. */
  predicate Discriminates(root: Schema, left: Schema, right: Schema, name: string) {
    && name in Properties(left) && Requires(left, name) && Requires(right, name)
    && name in Properties(right)
    && StringValues(root, Properties(left)[name]) != [] && StringValues(root, Properties(right)[name]) != []
    && Separated(StringValues(root, Properties(left)[name]), StringValues(root, Properties(right)[name]))
  }

  predicate Disjoint(root: Schema, left: Schema, right: Schema) {
    exists name :: name in Properties(left) && Discriminates(root, left, right, name)
  }

  predicate AllDisjoint(root: Schema, flat: seq<Schema>) {
    forall i, j :: 0 <= j < i < |flat| ==> Disjoint(root, flat[i], flat[j])
  }

  function Values(flat: seq<Schema>): (values: seq<Json>)
    ensures |values| == |flat| && forall i :: 0 <= i < |flat| ==> values[i] == Obj(flat[i])
  {
    seq(|flat|, i requires 0 <= i < |flat| => Obj(flat[i]))
  }

  const START := Counters(0, MAX_WEIGHT, false)

  /** FlattenRootObjectUnion: None is the error. */
  ghost function FlattenRoot(value: Json): Option<Json> {
    if !value.Obj? || "oneOf" !in value.fields || !value.fields["oneOf"].Arr? ||
       !NeedsFlattening(value.fields["oneOf"].items)
    then Some(value)
    else
      var root := value.fields;
      match Flatten(root, root["oneOf"].items, 0, START)
      case None => None
      case Some(flat) =>
        if flat.counters.nested && !AllDisjoint(root, flat.items) then None
        else Some(Obj(root["oneOf" := Arr(Values(flat.items))]))
  }

  // ---- What a successful flattening looks like ---------------------------------------------------

  predicate IsLeaf(schema: Schema) {
    "$ref" !in schema && "oneOf" !in schema && "type" in schema && schema["type"] == Str("object")
  }

  predicate Leaves(items: seq<Schema>) {
    forall i :: 0 <= i < |items| ==> IsLeaf(items[i])
  }

  lemma {:induction false} ResolvedHasNoRef(root: Schema, value: Json, seen: seq<string>)
    requires |seen| <= MAX_DEPTH && Resolve(root, value, seen).Some?
    ensures "$ref" !in Resolve(root, value, seen).value
    decreases MAX_DEPTH - |seen|
  {
    var schema := value.fields;
    if "$ref" in schema {
      ResolvedHasNoRef(root, Target(root, schema["$ref"].value).value, seen + [schema["$ref"].value]);
    }
  }

  lemma {:induction false} InheritAllLeaves(c: Counters, parent: Schema, children: seq<Schema>)
    requires InheritAll(c, parent, children).Some? && Leaves(children)
    ensures var f := InheritAll(c, parent, children).value;
            && Leaves(f.items) && |f.items| == |children|
            && f.counters.branches == c.branches && f.counters.nested == c.nested
    decreases |children|
  {
    if children != [] {
      var first := Inherit(c, parent, children[0]).value;
      assert IsLeaf(first.schema);
      InheritAllLeaves(first.counters, parent, children[1..]);
    }
  }

  /** Every result is a leaf, and every leaf was counted. */
  lemma {:induction false} FlattenLeaves(root: Schema, branches: seq<Json>, depth: nat, c: Counters)
    requires depth <= MAX_DEPTH && FlattenList(root, branches, depth, c).Some?
    ensures var f := FlattenList(root, branches, depth, c).value;
            && Leaves(f.items) && |f.items| == f.counters.branches - c.branches
            && (f.counters.branches <= MAX_BRANCHES || f.counters.branches == c.branches)
            && (c.nested ==> f.counters.nested)
    decreases MAX_DEPTH + 1 - depth, |branches|
  {
    if branches != [] {
      var first := FlattenOne(root, branches[0], depth, c).value;
      FlattenOneLeaves(root, branches[0], depth, c);
      FlattenLeaves(root, branches[1..], depth, first.counters);
    }
  }

  lemma {:induction false} FlattenOneLeaves(root: Schema, value: Json, depth: nat, c: Counters)
    requires depth <= MAX_DEPTH && FlattenOne(root, value, depth, c).Some?
    ensures var f := FlattenOne(root, value, depth, c).value;
            && Leaves(f.items) && |f.items| == f.counters.branches - c.branches
            && (f.counters.branches <= MAX_BRANCHES || f.counters.branches == c.branches)
            && (c.nested ==> f.counters.nested)
    decreases MAX_DEPTH + 1 - depth, 0
  {
    ResolvedHasNoRef(root, value, []);
    var branch := Resolve(root, value, []).value;
    if "oneOf" in branch {
      var children := Flatten(root, branch["oneOf"].items, depth + 1, c.(nested := true)).value;
      FlattenLeaves(root, branch["oneOf"].items, depth + 1, c.(nested := true));
      InheritAllLeaves(children.counters, branch, children.items);
    }
  }

  /**
   A rewritten root has at most 256 alternatives, none a reference or a union, so that
   flattening it again changes nothing.
   */
  lemma FlattenIsIdempotent(value: Json)
    requires FlattenRoot(value).Some?
    ensures var result := FlattenRoot(value).value;
            && FlattenRoot(result) == Some(result)
            && (result != value ==>
                && result.Obj? && "oneOf" in result.fields && result.fields["oneOf"].Arr?
                && 0 < |result.fields["oneOf"].items| <= MAX_BRANCHES
                && forall i :: 0 <= i < |result.fields["oneOf"].items| ==>
                     result.fields["oneOf"].items[i].Obj? && IsLeaf(result.fields["oneOf"].items[i].fields))
  {
    var result := FlattenRoot(value).value;
    if result != value {
      var root := value.fields;
      var flat := Flatten(root, root["oneOf"].items, 0, START).value;
      FlattenLeaves(root, root["oneOf"].items, 0, START);
      FlattenNonEmpty(root, root["oneOf"].items, 0, START);
      assert result.fields["oneOf"] == Arr(Values(flat.items));
    }
  }

  lemma {:induction false} FlattenNonEmpty(root: Schema, branches: seq<Json>, depth: nat, c: Counters)
    requires depth <= MAX_DEPTH && branches != [] && FlattenList(root, branches, depth, c).Some?
    ensures FlattenList(root, branches, depth, c).value.items != []
    decreases MAX_DEPTH + 1 - depth
  {
    var first := FlattenOne(root, branches[0], depth, c).value;
    var branch := Resolve(root, branches[0], []).value;
    if "oneOf" in branch {
      var children := Flatten(root, branch["oneOf"].items, depth + 1, c.(nested := true)).value;
      FlattenNonEmpty(root, branch["oneOf"].items, depth + 1, c.(nested := true));
      FlattenLeaves(root, branch["oneOf"].items, depth + 1, c.(nested := true));
      InheritAllLeaves(children.counters, branch, children.items);
    }
  }
}
