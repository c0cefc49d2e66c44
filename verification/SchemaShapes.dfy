/**
 A root that refers to a union of two shapes, told apart by a constant text: it is flattened,
 and both shapes keep the union's description.
 */
module SchemaShapes {
  import opened Collections
  import opened SchemaPointer
  import opened SchemaFlatten
  import opened SchemaReferences
  import opened SchemaAccept

  const TEXT := Str("A shape")

  /** An object that must say which kind it is. */
  function Kind(kind: string): Schema {
    map["type" := Str("object"), "properties" := Obj(map["kind" := Obj(map["const" := Str(kind)])]),
      "required" := Arr([Str("kind")])]
  }

  function Described(kind: string): Schema {
    Kind(kind)["description" := TEXT]
  }

  const SHAPE: Schema := map["description" := TEXT, "oneOf" := Arr([Obj(Kind("circle")), Obj(Kind("square"))])]
  const NAMED: Schema := map["$ref" := Str("#/$defs/Shape")]
  const SHAPES: Schema := map["oneOf" := Arr([Obj(NAMED)]), "$defs" := Obj(map["Shape" := Obj(SHAPE)])]

  // ---- What the parts say -----------------------------------------------------------------------

  lemma KindKeys(kind: string)
    ensures Kind(kind).Keys == {"type", "properties", "required"}
    ensures Kind(kind)["type"] == Str("object") && Kind(kind)["required"] == Arr([Str("kind")])
    ensures Kind(kind)["properties"] == Obj(map["kind" := Obj(map["const" := Str(kind)])])
  {
  }

  lemma RootKeys()
    ensures SHAPE.Keys == {"description", "oneOf"} && NAMED.Keys == {"$ref"} && SHAPES.Keys == {"oneOf", "$defs"}
    ensures SHAPE["description"] == TEXT && SHAPE["oneOf"] == Arr([Obj(Kind("circle")), Obj(Kind("square"))])
    ensures SHAPES["oneOf"] == Arr([Obj(NAMED)]) && SHAPES["$defs"] == Obj(map["Shape" := Obj(SHAPE)])
  {
  }

  lemma ShapeFound(root: Schema, shape: Schema)
    requires "$defs" in root && root["$defs"] == Obj(map["Shape" := Obj(shape)])
    ensures Target(root, "#/$defs/Shape") == Some(Obj(shape))
  {
    var tokens := ["$defs", "Shape"];
    PlainReference(root, "$defs", "Shape");
    assert "#/" + ("$defs" + ("/" + "Shape")) == "#/$defs/Shape";
    assert tokens[1..] == ["Shape"] && tokens[1..][1..] == [];
  }

  lemma NamedResolves(root: Schema, shape: Schema, named: Schema, ref: string)
    requires named == map["$ref" := Str(ref)] && Target(root, ref) == Some(Obj(shape))
    requires "$id" !in shape && "$ref" !in shape
    ensures Resolve(root, Obj(named), []) == Some(shape)
  {
    assert Resolve(root, Obj(shape), [] + [ref]) == Some(shape);
    assert Siblings(named) == map[];
    assert shape + Siblings(named) == shape;
  }

  lemma KindResolves(root: Schema, kind: string)
    ensures Resolve(root, Obj(Kind(kind)), []) == Some(Kind(kind))
  {
    KindKeys(kind);
  }

  // ---- Weights ------------------------------------------------------------------------------------

  lemma OneKey(key: string, value: Json)
    ensures Weight(Obj(map[key := value])) == 1 + |key| + Weight(value)
    ensures Shallow(value, 1) ==> Shallow(Obj(map[key := value]), 0)
  {
    var shape := Obj(map[key := value]);
    assert shape.fields.Keys == {key};
    WeightRemove(shape, {key}, key);
    assert {key} - {key} == {};
  }

  lemma ThreeKeys(schema: Schema, a: string, b: string, c: string)
    requires schema.Keys == {a, b, c} && a != b && b != c && a != c
    ensures Weight(Obj(schema)) ==
      1 + |a| + Weight(schema[a]) + |b| + Weight(schema[b]) + |c| + Weight(schema[c])
  {
    var shape := Obj(schema);
    WeightRemove(shape, schema.Keys, a);
    assert schema.Keys - {a} == {b, c};
    WeightRemove(shape, {b, c}, b);
    assert {b, c} - {b} == {c};
    WeightRemove(shape, {c}, c);
    assert {c} - {c} == {};
  }

  lemma KindWeight(kind: string)
    ensures Weight(Obj(Kind(kind))) == 48 + |kind|
  {
    KindKeys(kind);
    OneKey("const", Str(kind));
    OneKey("kind", Obj(map["const" := Str(kind)]));
    ThreeKeys(Kind(kind), "type", "properties", "required");
    assert [Str("kind")][1..] == [];
  }

  lemma KindShallow(kind: string)
    ensures Shallow(Obj(Kind(kind)), 0)
  {
    KindKeys(kind);
    assert Shallow(Str(kind), 3);
    assert Shallow(Obj(map["const" := Str(kind)]), 2);
    assert Shallow(Obj(map["kind" := Obj(map["const" := Str(kind)])]), 1);
    assert Shallow(Arr([Str("kind")]), 1);
  }

  lemma Describes(shape: Schema, kind: string)
    requires shape.Keys == {"description", "oneOf"} && shape["description"] == TEXT
    ensures Dressed(shape, Kind(kind)) == Described(kind) && DressesOne(shape, Kind(kind))
    ensures var added := Lacking(shape, Kind(kind)); InheritedWeight(added, added.Keys) == 8
  {
    KindKeys(kind);
    DescriptionLacks(shape, Kind(kind));
    var added := Lacking(shape, Kind(kind));
    assert added.Keys == {"description"};
    InheritedRemove(added, added.Keys, "description");
    assert {"description"} - {"description"} == {};
    assert Dressed(shape, Kind(kind)) == Kind(kind) + added;
  }

  lemma DescriptionLacks(shape: Schema, child: Schema)
    requires shape.Keys == {"description", "oneOf"} && shape["description"] == TEXT
    requires child.Keys == {"type", "properties", "required"}
    ensures Lacking(shape, child) == map["description" := TEXT] && DressesOne(shape, child)
  {
    AnnotationsNamed("description");
    AnnotationsNamed("oneOf");
  }

  // ---- The tree -----------------------------------------------------------------------------------

  lemma TwoFruits(shape: Schema, a: Schema, b: Schema, x: nat, y: nat)
    requires x == InheritedWeight(Lacking(shape, a), Lacking(shape, a).Keys)
    requires y == InheritedWeight(Lacking(shape, b), Lacking(shape, b).Keys)
    requires DressesOne(shape, a) && DressesOne(shape, b)
    ensures var tree := Union(shape, [Plain(a), Plain(b)]);
            && Fruits(tree) == [Dressed(shape, a), Dressed(shape, b)] && Dresses(shape, AllFruits(tree.under))
            && Cost(tree) == Weight(Obj(a)) + Weight(Obj(b)) + x + y
  {
    var under := [Plain(a), Plain(b)];
    var children := [a, b];
    assert under[1..] == [Plain(b)] && under[1..][1..] == [];
    assert children[1..] == [b] && children[1..][1..] == [];
    FirstOfAll(under);
    FirstOfAll(under[1..]);
    assert AllFruits(under) == children;
    DressFirst(shape, children, Lacking(shape, a), x);
    DressFirst(shape, children[1..], Lacking(shape, b), y);
    UnionFruits(Union(shape, under));
  }

  lemma TwoGrow(root: Schema, a: Schema, b: Schema, depth: nat)
    requires Grows(root, Obj(a), depth, Plain(a)) && Grows(root, Obj(b), depth, Plain(b))
    ensures AllGrow(root, [Obj(a), Obj(b)], depth, [Plain(a), Plain(b)])
  {
    var items, under := [Obj(a), Obj(b)], [Plain(a), Plain(b)];
    assert items[1..] == [Obj(b)] && under[1..] == [Plain(b)];
    assert items[1..][1..] == [] && under[1..][1..] == [];
  }

  lemma KindGrows(root: Schema, kind: string, depth: nat)
    ensures Grows(root, Obj(Kind(kind)), depth, Plain(Kind(kind)))
  {
    KindResolves(root, kind);
    KindShallow(kind);
    KindKeys(kind);
  }

  lemma ShapeGrows(root: Schema, value: Json, shape: Schema, first: string, second: string)
    requires Resolve(root, value, []) == Some(shape)
    requires shape.Keys == {"description", "oneOf"} && shape["description"] == TEXT
    requires shape["oneOf"] == Arr([Obj(Kind(first)), Obj(Kind(second))])
    ensures var tree := Union(shape, [Plain(Kind(first)), Plain(Kind(second))]);
            && Grows(root, value, 0, tree) && Fruits(tree) == [Described(first), Described(second)]
            && Cost(tree) == 112 + |first| + |second|
  {
    KindGrows(root, first, 1);
    KindGrows(root, second, 1);
    TwoGrow(root, Kind(first), Kind(second), 1);
    Describes(shape, first);
    Describes(shape, second);
    KindWeight(first);
    KindWeight(second);
    TwoFruits(shape, Kind(first), Kind(second), 8, 8);
    DescriptionUnites(shape);
  }

  lemma DescriptionUnites(shape: Schema)
    requires shape.Keys == {"description", "oneOf"}
    ensures OnlyUnites(shape)
  {
    AnnotationsNamed("description");
  }

  lemma KindAllows(root: Schema, kind: string)
    ensures Demands(Described(kind), "kind") && HasProperty(Described(kind), "kind")
    ensures Allows(root, Described(kind)["properties"].fields["kind"], {kind})
  {
    var property: Schema := map["const" := Str(kind)];
    KindKeys(kind);
    assert Described(kind)["required"].items[0] == Str("kind");
    assert Described(kind)["properties"].fields["kind"] == Obj(property);
    assert property.Keys == {"const"};
    assert Leads(root, Obj(property), [], property);
    assert Reaches(root, Obj(property), property) && Lists(property, {kind});
  }

  lemma KindsApart(root: Schema, first: string, second: string)
    requires first != second
    ensures Apart(root, Described(first), Described(second))
  {
    KindAllows(root, first);
    KindAllows(root, second);
    assert ApartBy(root, Described(first), Described(second), "kind", {first}, {second});
  }

  lemma PairApart(root: Schema, a: Schema, b: Schema)
    requires Apart(root, b, a)
    ensures PairwiseApart(root, [a, b])
  {
  }

  lemma OneGrows(root: Schema, value: Json, tree: Tree)
    requires Grows(root, value, 0, tree)
    ensures AllGrow(root, [value], 0, [tree])
    ensures AllFruits([tree]) == Fruits(tree) && AllCosts([tree]) == Cost(tree)
  {
    var items, trees := [value], [tree];
    assert items[1..] == [] && trees[1..] == [];
    FirstOfAll(trees);
    assert Fruits(tree) + [] == Fruits(tree);
  }

  lemma OneRewritable(root: Schema, named: Schema)
    requires "oneOf" in root && root["oneOf"] == Arr([Obj(named)]) && "$ref" in named
    ensures Rewritable(root)
  {
    assert root["oneOf"].items[0].fields == named;
  }

  lemma OneAcceptable(root: Schema, value: Json, tree: Tree, a: Schema, b: Schema)
    requires Grows(root, value, 0, tree) && Fruits(tree) == [a, b] && Cost(tree) <= MAX_WEIGHT && Apart(root, b, a)
    ensures Acceptable(root, [value], [tree]) && AllFruits([tree]) == [a, b]
  {
    OneGrows(root, value, tree);
    PairApart(root, a, b);
  }

  lemma OneTree(root: Schema, named: Schema, tree: Tree, a: Schema, b: Schema, r: Option<Json>)
    requires "oneOf" in root && root["oneOf"] == Arr([Obj(named)]) && "$ref" in named
    requires Acceptable(root, [Obj(named)], [tree]) && AllFruits([tree]) == [a, b] && r == FlattenRoot(Obj(root))
    ensures r == Some(Obj(root["oneOf" := Arr([Obj(a), Obj(b)])]))
  {
    OneRewritable(root, named);
    AcceptableFlattens(root, [tree]);
    assert Values([a, b]) == [Obj(a), Obj(b)];
  }

  /** Whatever two kinds the shapes are: the root is flattened into them, each with the union's description. */
  lemma KindsFlatten(root: Schema, shape: Schema, named: Schema, first: string, second: string)
    requires "oneOf" in root && root["oneOf"] == Arr([Obj(named)]) && named == map["$ref" := Str("#/$defs/Shape")]
    requires "$defs" in root && root["$defs"] == Obj(map["Shape" := Obj(shape)])
    requires shape.Keys == {"description", "oneOf"} && shape["description"] == TEXT
    requires shape["oneOf"] == Arr([Obj(Kind(first)), Obj(Kind(second))])
    requires first != second && |first| + |second| <= 1000
    ensures FlattenRoot(Obj(root)) == Some(Obj(root["oneOf" := Arr([Obj(Described(first)), Obj(Described(second))])]))
  {
    var tree := Union(shape, [Plain(Kind(first)), Plain(Kind(second))]);
    ShapeFound(root, shape);
    NamedResolves(root, shape, named, "#/$defs/Shape");
    ShapeGrows(root, Obj(named), shape, first, second);
    KindsApart(root, second, first);
    OneAcceptable(root, Obj(named), tree, Described(first), Described(second));
    OneTree(root, named, tree, Described(first), Described(second), FlattenRoot(Obj(root)));
  }

  /** A circle and a square. */
  lemma ShapesFlatten()
    ensures FlattenRoot(Obj(SHAPES)) ==
      Some(Obj(SHAPES["oneOf" := Arr([Obj(Described("circle")), Obj(Described("square"))])]))
  {
    RootKeys();
    KindsFlatten(SHAPES, SHAPE, NAMED, "circle", "square");
  }
}
