/** One document with a reference and a nested union: it is flattened, it has a meaning, and a reference in it moves. */
module SchemaExample {
  import opened Collections
  import opened SchemaPointer
  import opened SchemaFlatten
  import opened SchemaMeaning
  import opened SchemaReferences

  const LEAF: Schema := map["type" := Str("object")]
  const UNION: Schema := map["type" := Str("object"), "oneOf" := Arr([Obj(LEAF)])]
  const NAMED: Schema := map["$ref" := Str("#/$defs/A")]
  const DOCUMENT: Schema := map["oneOf" := Arr([Obj(NAMED)]), "$defs" := Obj(map["A" := Obj(UNION)])]
  const FLATTENED: Schema := DOCUMENT["oneOf" := Arr([Obj(LEAF)])]

  // ---- Flattening the document -------------------------------------------------------------------

  lemma DefinitionFound(root: Schema)
    requires "$defs" in root && root["$defs"] == Obj(map["A" := Obj(UNION)])
    ensures Target(root, "#/$defs/A") == Some(Obj(UNION))
  {
    var tokens := ["$defs", "A"];
    PlainReference(root, "$defs", "A");
    assert "#/" + ("$defs" + ("/" + "A")) == "#/$defs/A";
    assert tokens[1..] == ["A"] && tokens[1..][1..] == [];
  }

  lemma Keys()
    ensures LEAF.Keys == {"type"} && UNION.Keys == {"type", "oneOf"} && NAMED.Keys == {"$ref"} &&
      DOCUMENT.Keys == {"oneOf", "$defs"}
    ensures DOCUMENT["oneOf"] == Arr([Obj(NAMED)]) && DOCUMENT["$defs"] == Obj(map["A" := Obj(UNION)])
  {
  }

  lemma UnionResolves(seen: seq<string>)
    requires |seen| <= MAX_DEPTH
    ensures Resolve(DOCUMENT, Obj(UNION), seen) == Some(UNION)
  {
    Keys();
  }

  lemma PointerResolves()
    ensures Resolve(DOCUMENT, Obj(NAMED), []) == Some(UNION)
  {
    Keys();
    DefinitionFound(DOCUMENT);
    UnionResolves([] + ["#/$defs/A"]);
    assert Siblings(NAMED) == map[];
    assert UNION + Siblings(NAMED) == UNION;
  }

  lemma LeafWeight()
    ensures Weight(Obj(LEAF)) == 12 && Shallow(Obj(LEAF), 0)
  {
    var leaf := Obj(LEAF);
    assert LEAF.Keys == {"type"};
    WeightRemove(leaf, LEAF.Keys, "type");
    assert LEAF.Keys - {"type"} == {};
  }

  lemma ListOfOne(root: Schema, value: Json, depth: nat, c: Counters, one: Flat)
    requires depth <= MAX_DEPTH && FlattenOne(root, value, depth, c) == Some(one)
    ensures Flatten(root, [value], depth, c) == FlattenList(root, [value], depth, c) == Some(one)
  {
    assert [value][1..] == [] && one.items + [] == one.items;
  }

  lemma LeafFlat(depth: nat, c: Counters)
    requires depth <= MAX_DEPTH && c.branches == 0 && c.remaining == MAX_WEIGHT
    ensures FlattenList(DOCUMENT, [Obj(LEAF)], depth, c) ==
      Some(Flat([LEAF], c.(remaining := MAX_WEIGHT - 12, branches := 1)))
  {
    LeafWeight();
    assert Resolve(DOCUMENT, Obj(LEAF), []) == Some(LEAF);
    var one := Flat([LEAF], c.(remaining := MAX_WEIGHT - 12, branches := 1));
    ListOfOne(DOCUMENT, Obj(LEAF), depth, c, one);
  }

  lemma NothingInherited(c: Counters)
    ensures InheritAll(c, UNION, [LEAF]) == Some(Flat([LEAF], c))
  {
    assert Inherited(UNION, LEAF) == map[];
    assert LEAF + Inherited(UNION, LEAF) == LEAF;
    assert InheritedWeight(map[], {}) == 0;
    assert Inherit(c, UNION, LEAF) == Some(Child(LEAF, c));
    assert [LEAF][1..] == [] && [LEAF] + [] == [LEAF];
  }

  lemma PointerFlat()
    ensures FlattenOne(DOCUMENT, Obj(NAMED), 0, START) == Some(Flat([LEAF], Counters(1, MAX_WEIGHT - 12, true)))
  {
    Keys();
    PointerResolves();
    LeafFlat(1, START.(nested := true));
    NothingInherited(Counters(1, MAX_WEIGHT - 12, true));
  }

  lemma DocumentFlat()
    ensures Flatten(DOCUMENT, [Obj(NAMED)], 0, START) == Some(Flat([LEAF], Counters(1, MAX_WEIGHT - 12, true)))
  {
    PointerFlat();
    ListOfOne(DOCUMENT, Obj(NAMED), 0, START, Flat([LEAF], Counters(1, MAX_WEIGHT - 12, true)));
  }

  lemma DocumentFlattens()
    ensures Rewritten(DOCUMENT) && FlattenRoot(Obj(DOCUMENT)) == Some(Obj(FLATTENED))
  {
    Keys();
    DocumentFlat();
    assert [Obj(NAMED)][0] == Obj(NAMED) && "$ref" in NAMED;
    assert Values([LEAF]) == [Obj(LEAF)];
  }

  /** The reference to the first alternative found the pointer, and finds what it pointed to after flattening. */
  lemma PointerIntoUnionMoves()
    ensures FlattenRoot(Obj(DOCUMENT)) == Some(Obj(FLATTENED))
    ensures Target(DOCUMENT, "#/oneOf/0") == Some(Obj(NAMED)) && Target(FLATTENED, "#/oneOf/0") == Some(Obj(LEAF))
  {
    DocumentFlattens();
    FirstAlternative(DOCUMENT);
    FirstAlternative(FLATTENED);
  }

  lemma FirstAlternative(root: Schema)
    requires "oneOf" in root && root["oneOf"].Arr? && root["oneOf"].items != []
    ensures Target(root, "#/oneOf/0") == Some(root["oneOf"].items[0])
  {
    PlainReference(root, "oneOf", "0");
    assert "#/" + ("oneOf" + ("/" + "0")) == "#/oneOf/0";
    AlternativeTarget(root, 0);
    EveryPathIsReferable(root, ["oneOf", Numeral(0)]);
    assert Numeral(0) == "0";
  }

  // ---- A meaning of the document -----------------------------------------------------------------

  /** Only empty and object-shaped schemas pass the other keywords here. */
  function Rest(core: Schema, marks: set<Json>, v: Json): Verdict {
    if core == map[] || core == map["properties" := Obj(map[])] then Pass(marks) else Fail
  }

  /** The parts of a meaning that do not depend on the document. */
  function Base(): Interp {
    Interp((s: Json, v: Json) =>
      Fail, (c, m, v) => Rest(c, m, v), (ref: string) => None, (s: Json, v: Json) => Fail, (n: string) => true)
  }

  /** The verdict with at most n references followed in a row. */
  function Eval(root: Schema, n: nat, s: Json, v: Json): Verdict
    decreases n, s
  {
    if !s.Obj? then Fail
    else
      var schema := s.fields;
      var target :=
        if "$ref" !in schema then Pass({})
        else if n > 0 && schema["$ref"].Str? && Deref(Base(), root, schema["$ref"].value).Some?
        then Eval(root, n - 1, Deref(Base(), root, schema["$ref"].value).value, v) else Fail;
      var union :=
        if "oneOf" in schema && schema["oneOf"].Arr?
        then ExactlyOne(seq(|schema["oneOf"].items|, k requires 0 <= k < |schema["oneOf"].items| =>
          Eval(root, n, schema["oneOf"].items[k], v)))
        else Pass({});
      if TypeOk(Base(), schema, v) && RequiredOk(schema, v) && target.Pass? && union.Pass?
      then Rest(Core(schema), target.marks + union.marks, v) else Fail
  }

  /** n references are enough. */
  ghost predicate Grounded(root: Schema, n: nat, s: Json)
    decreases n, s
  {
    s.Obj? ==>
      && ("$ref" in s.fields && s.fields["$ref"].Str? && Deref(Base(), root, s.fields["$ref"].value).Some? ==>
            n > 0 && Grounded(root, n - 1, Deref(Base(), root, s.fields["$ref"].value).value))
      && ("oneOf" in s.fields && s.fields["oneOf"].Arr? ==>
            forall k :: 0 <= k < |s.fields["oneOf"].items| ==> Grounded(root, n, s.fields["oneOf"].items[k]))
  }

  lemma {:induction false} EnoughIsEnough(root: Schema, n: nat, s: Json, v: Json)
    requires Grounded(root, n, s)
    ensures Eval(root, n + 1, s, v) == Eval(root, n, s, v)
    decreases n, s
  {
    if s.Obj? {
      var schema := s.fields;
      if "$ref" in schema && schema["$ref"].Str? && Deref(Base(), root, schema["$ref"].value).Some? {
        EnoughIsEnough(root, n - 1, Deref(Base(), root, schema["$ref"].value).value, v);
      }
      if "oneOf" in schema && schema["oneOf"].Arr? {
        var items := schema["oneOf"].items;
        forall k | 0 <= k < |items|
          ensures Eval(root, n + 1, items[k], v) == Eval(root, n, items[k], v)
        {
          EnoughIsEnough(root, n, items[k], v);
        }
        assert seq(|items|, k requires 0 <= k < |items| => Eval(root, n + 1, items[k], v)) ==
               seq(|items|, k requires 0 <= k < |items| => Eval(root, n, items[k], v));
      }
    }
  }

  /** The same of every value inside. */
  ghost predicate Everywhere(root: Schema, n: nat, s: Json)
    decreases s
  {
    && Grounded(root, n, s)
    && (s.Obj? ==> forall k :: k in s.fields ==> Everywhere(root, n, s.fields[k]))
    && (s.Arr? ==> forall k :: 0 <= k < |s.items| ==> Everywhere(root, n, s.items[k]))
  }

  lemma {:induction false} WalkStays(root: Schema, n: nat, value: Json, tokens: seq<string>, step: nat)
    requires Everywhere(root, n, value) && Walk(value, tokens, step).Some?
    ensures Everywhere(root, n, Walk(value, tokens, step).value)
    decreases |tokens|
  {
    if tokens != [] {
      match value
      case Obj(fields) => WalkStays(root, n, fields[tokens[0]], tokens[1..], step + 1);
      case Arr(items) => WalkStays(root, n, items[ParseIndex(tokens[0]).value], tokens[1..], step + 1);
      case _ =>
    }
  }

  /** The meaning that follows references as far as the document needs it. */
  function MeaningOf(root: Schema): Interp {
    Base().(verdict := (s, v) => Eval(root, 3, s, v))
  }

  /** A document in which two references in a row are enough has a meaning. */
  lemma GroundedHasMeaning(root: Schema)
    requires Everywhere(root, 2, Obj(root))
    ensures Interprets(MeaningOf(root), root) && CoreLaws(MeaningOf(root))
  {
    var i := MeaningOf(root);
    forall schema: Schema, v: Json
      ensures i.verdict(Obj(schema), v) == Keywords(i, root, schema, v)
    {
      EvalIsKeywords(root, schema, v);
    }
  }

  /** The reference's part of Eval. */
  function EvalReference(root: Schema, schema: Schema, v: Json): Verdict {
    if "$ref" !in schema then Pass({})
    else if schema["$ref"].Str? && Deref(Base(), root, schema["$ref"].value).Some?
    then Eval(root, 2, Deref(Base(), root, schema["$ref"].value).value, v) else Fail
  }

  lemma ReferencePart(root: Schema, schema: Schema, v: Json)
    requires Everywhere(root, 2, Obj(root))
    ensures Reference(MeaningOf(root), root, schema, v) == EvalReference(root, schema, v)
  {
    if "$ref" in schema && schema["$ref"].Str? && Deref(Base(), root, schema["$ref"].value).Some? {
      var ref := schema["$ref"].value;
      if ref != "#" { WalkStays(root, 2, Obj(root), Tokens(ref).value, 0); }
      EnoughIsEnough(root, 2, Deref(Base(), root, ref).value, v);
    }
  }

  /** The union's part of Eval. */
  function EvalUnion(root: Schema, schema: Schema, v: Json): Verdict {
    if "oneOf" in schema && schema["oneOf"].Arr?
    then ExactlyOne(seq(|schema["oneOf"].items|, k requires 0 <= k < |schema["oneOf"].items| =>
      Eval(root, 3, schema["oneOf"].items[k], v)))
    else Pass({})
  }

  lemma UnionPart(root: Schema, schema: Schema, v: Json)
    ensures OneOf(MeaningOf(root), schema, v) == EvalUnion(root, schema, v)
  {
    if "oneOf" in schema && schema["oneOf"].Arr? {
      var items := schema["oneOf"].items;
      assert seq(|items|, k requires 0 <= k < |items| => Eval(root, 3, items[k], v)) ==
        Verdicts(MeaningOf(root), items, v);
    }
  }

  lemma EvalParts(root: Schema, schema: Schema, v: Json)
    ensures var target, union := EvalReference(root, schema, v), EvalUnion(root, schema, v);
            Eval(root, 3, Obj(schema), v) ==
            if TypeOk(Base(), schema, v) && RequiredOk(schema, v) && target.Pass? && union.Pass?
            then Rest(Core(schema), target.marks + union.marks, v) else Fail
  {
  }

  lemma TypePart(root: Schema, schema: Schema, v: Json)
    ensures TypeOk(Base(), schema, v) == TypeOk(MeaningOf(root), schema, v)
  {
  }

  lemma EvalIsKeywords(root: Schema, schema: Schema, v: Json)
    requires Everywhere(root, 2, Obj(root))
    ensures Eval(root, 3, Obj(schema), v) == Keywords(MeaningOf(root), root, schema, v)
  {
    ReferencePart(root, schema, v);
    UnionPart(root, schema, v);
    TypePart(root, schema, v);
    EvalParts(root, schema, v);
  }

  lemma DocumentGrounded()
    ensures Everywhere(DOCUMENT, 2, Obj(DOCUMENT))
  {
    Keys();
    UnionGrounded(1);
    UnionGrounded(2);
    PointerGrounded();
    assert Everywhere(DOCUMENT, 2, Arr([Obj(NAMED)]));
    assert Everywhere(DOCUMENT, 2, Obj(map["A" := Obj(UNION)]));
  }

  lemma UnionGrounded(n: nat)
    ensures Everywhere(DOCUMENT, n, Obj(UNION))
  {
    Keys();
    assert Everywhere(DOCUMENT, n, Str("object"));
    assert Everywhere(DOCUMENT, n, Obj(LEAF));
    assert Everywhere(DOCUMENT, n, Arr([Obj(LEAF)]));
  }

  lemma PointerGrounded()
    ensures Everywhere(DOCUMENT, 2, Obj(NAMED))
  {
    Keys();
    DefinitionFound(DOCUMENT);
    UnionGrounded(1);
    assert Deref(Base(), DOCUMENT, "#/$defs/A") == Some(Obj(UNION));
    assert Everywhere(DOCUMENT, 2, Str("#/$defs/A"));
  }

  /**
   The theorems about meanings are not empty: this document, with its reference and its nested
   union, has one and is flattened.
   */
  lemma DocumentHasMeaning() returns (i: Interp)
    ensures Interprets(i, DOCUMENT) && CoreLaws(i)
    ensures FlattenRoot(Obj(DOCUMENT)) == Some(Obj(FLATTENED)) && FLATTENED != DOCUMENT
  {
    i := MeaningOf(DOCUMENT);
    DocumentGrounded();
    GroundedHasMeaning(DOCUMENT);
    DocumentFlattens();
    assert FLATTENED["oneOf"].items[0] == Obj(LEAF) && DOCUMENT["oneOf"].items[0] == Obj(NAMED);
    assert "$ref" in NAMED && "$ref" !in LEAF;
  }
}
