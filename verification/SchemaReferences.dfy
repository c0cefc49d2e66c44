/** References that survive flattening: when all of them keep their targets, and when the whole meaning is kept. */
module SchemaReferences {
  import opened Collections
  import opened SchemaPointer
  import opened SchemaFlatten
  import opened SchemaMeaning

  /** The guard of the rewrite: some root alternative is a reference or a union. */
  predicate Rewritten(root: Schema) {
    "oneOf" in root && root["oneOf"].Arr? && NeedsFlattening(root["oneOf"].items)
  }

  /** Every reference finds the same schema in both documents. */
  ghost predicate AllStillFind(root: Schema, changed: Schema) {
    forall ref :: Target(changed, ref) == Target(root, ref)
  }

  function AlternativeRef(k: nat): string {
    "#/" + PercentEncode(JoinPointer(["oneOf", Numeral(k)]))
  }

  lemma AlternativeTarget(root: Schema, k: nat)
    requires "oneOf" in root && root["oneOf"].Arr?
    ensures Target(root, AlternativeRef(k)) == if k < |root["oneOf"].items| then Some(root["oneOf"].items[k]) else None
  {
    var tokens := ["oneOf", Numeral(k)];
    EveryPathIsReferable(root, tokens);
    NumeralParses(k);
    assert tokens[1..] == [Numeral(k)] && [Numeral(k)][1..] == [];
    assert Walk(Obj(root), tokens, 0) == Walk(root["oneOf"], [Numeral(k)], 1);
    if k < |root["oneOf"].items| {
      assert Walk(root["oneOf"], [Numeral(k)], 1) == Walk(root["oneOf"].items[k], [], 2);
    }
  }

  /** An alternative that needed flattening is no leaf, and all new alternatives are: the reference to it moves. */
  lemma RewrittenMoves(root: Schema, changed: Schema) returns (ref: string)
    requires FlattenRoot(Obj(root)) == Some(Obj(changed)) && Rewritten(root)
    ensures Target(root, ref).Some? && Target(changed, ref) != Target(root, ref)
  {
    var branches := root["oneOf"].items;
    var k: nat :| k < |branches| && branches[k].Obj? && ("$ref" in branches[k].fields || "oneOf" in branches[k].fields);
    ref := AlternativeRef(k);
    AlternativeTarget(root, k);
    var flat := Flatten(root, branches, 0, START).value;
    FlattenLeaves(root, branches, 0, START);
    assert changed["oneOf"] == Arr(Values(flat.items));
    AlternativeTarget(changed, k);
  }

  /**
   After a successful flattening all references keep their targets if and only if no root
   alternative was a reference or a union.
   */
  lemma ReferencesStayExactly(root: Schema, changed: Schema)
    requires FlattenRoot(Obj(root)) == Some(Obj(changed))
    ensures AllStillFind(root, changed) <==> !Rewritten(root)
  {
    if Rewritten(root) { var ref := RewrittenMoves(root, changed); }
  }

  // ---- The meaning of the whole document -------------------------------------------------------

  /** What a reference means in a document. */
  function Means(i: Interp, root: Schema, ref: string, v: Json): Verdict {
    if Deref(i, root, ref).Some? then i.verdict(Deref(i, root, ref).value, v) else i.broken(Str(ref), v)
  }

  function Bare(ref: string): Schema {
    map["$ref" := Str(ref)]
  }

  lemma BareReference(i: Interp, root: Schema, ref: string, v: Json)
    requires CoreLaws(i)
    ensures Keywords(i, root, Bare(ref), v) == Means(i, root, ref, v)
  {
    var schema, target := Bare(ref), Means(i, root, ref, v);
    assert Core(schema) == map[];
    assert Reference(i, root, schema, v) == target;
    if target.Pass? { assert target.marks + {} == target.marks; }
  }

  lemma SameReferences(i: Interp, root: Schema, changed: Schema, schema: Schema, v: Json)
    requires forall ref, x :: Means(i, changed, ref, x) == Means(i, root, ref, x)
    ensures Keywords(i, changed, schema, v) == Keywords(i, root, schema, v)
  {
    if "$ref" in schema && schema["$ref"].Str? {
      var ref := schema["$ref"].value;
      assert Means(i, changed, ref, v) == Means(i, root, ref, v);
    }
    assert Reference(i, changed, schema, v) == Reference(i, root, schema, v);
  }

  /**
   A meaning of the old document is one of the new document if and only if every reference means
   in it what it meant before.
   */
  lemma DocumentMeansSame(i: Interp, root: Schema, changed: Schema)
    requires Interprets(i, root) && CoreLaws(i) && FlattenRoot(Obj(root)) == Some(Obj(changed))
    ensures Interprets(i, changed) <==> forall ref, v :: Means(i, changed, ref, v) == Means(i, root, ref, v)
  {
    if Interprets(i, changed) {
      forall ref, v
        ensures Means(i, changed, ref, v) == Means(i, root, ref, v)
      {
        Equation(i, root, Bare(ref), v);
        Equation(i, changed, Bare(ref), v);
        BareReference(i, root, ref, v);
        BareReference(i, changed, ref, v);
      }
    }
    if forall ref, v :: Means(i, changed, ref, v) == Means(i, root, ref, v) {
      forall schema: Schema, v
        ensures i.verdict(Obj(schema), v) == Keywords(i, changed, schema, v)
      {
        Equation(i, root, schema, v);
        SameReferences(i, root, changed, schema, v);
      }
    }
  }
}
