/**
 What a tool schema accepts (JSON Schema Core 2020-12, sections 8.2.3.1 and 10.2.1.3, and
 Validation 2020-12, sections 6.1 and 6.5.3), and the proof that flattening keeps it.

 A meaning is any function that satisfies the keyword equations, so recursive references
 need no bound on unfolding.
 */
module SchemaMeaning {
  import opened Collections
  import opened SchemaPointer
  import opened SchemaFlatten

  /** A validation result; marks are the locations that annotation-aware keywords may see. */
  datatype Verdict = Fail | Pass(marks: set<Json>)

  /**
   verdict is the meaning of every schema. rest judges all keywords but $ref, oneOf, type,
   required and plain annotations; far and broken judge references that are not local
   pointers or that point nowhere; integer reads a number literal.
   */
  datatype Interp = Interp(
    verdict: (Json, Json) -> Verdict,
    rest: (Schema, set<Json>, Json) -> Verdict,
    far: string -> Option<Json>,
    broken: (Json, Json) -> Verdict,
    integer: string -> bool)

  // ---- Keywords ---------------------------------------------------------------------------

  predicate HasType(i: Interp, name: string, v: Json) {
    match name
    case "object" => v.Obj?
    case "array" => v.Arr?
    case "string" => v.Str?
    case "boolean" => v.Bool?
    case "null" => v.Null?
    case "number" => v.Num?
    case "integer" => v.Num? && i.integer(v.text)
    case _ => false
  }

  predicate TypeOk(i: Interp, schema: Schema, v: Json) {
    "type" in schema ==>
      match schema["type"]
      case Str(name) => HasType(i, name, v)
      case Arr(names) => exists k :: 0 <= k < |names| && names[k].Str? && HasType(i, names[k].value, v)
      case _ => true
  }

  predicate RequiredOk(schema: Schema, v: Json) {
    "required" in schema && schema["required"].Arr? && v.Obj? ==>
      forall k :: 0 <= k < |schema["required"].items| && schema["required"].items[k].Str? ==>
        schema["required"].items[k].value in v.fields
  }

  /** The passing verdicts of a list, in order. */
  function Passing(verdicts: seq<Verdict>): seq<Verdict> {
    if verdicts == [] then []
    else (if verdicts[0].Pass? then [verdicts[0]] else []) + Passing(verdicts[1..])
  }

  /** oneOf: exactly one alternative accepts, and its marks are kept. */
  function ExactlyOne(verdicts: seq<Verdict>): Verdict {
    if |Passing(verdicts)| == 1 then Passing(verdicts)[0] else Fail
  }

  function Verdicts(i: Interp, schemas: seq<Json>, v: Json): (vs: seq<Verdict>)
    ensures |vs| == |schemas| && forall k :: 0 <= k < |vs| ==> vs[k] == i.verdict(schemas[k], v)
  {
    seq(|schemas|, k requires 0 <= k < |schemas| => i.verdict(schemas[k], v))
  }

  function OneOf(i: Interp, schema: Schema, v: Json): Verdict {
    if "oneOf" in schema && schema["oneOf"].Arr? then ExactlyOne(Verdicts(i, schema["oneOf"].items, v)) else Pass({})
  }

  /** "#" is the document itself, "#/..." a local pointer; anything else is far. */
  function Deref(i: Interp, root: Schema, ref: string): Option<Json> {
    if ref == "#" then Some(Obj(root))
    else if |ref| >= 2 && ref[..2] == "#/" then Target(root, ref)
    else i.far(ref)
  }

  function Reference(i: Interp, root: Schema, schema: Schema, v: Json): Verdict {
    if "$ref" !in schema then Pass({})
    else if schema["$ref"].Str? && Deref(i, root, schema["$ref"].value).Some? then
      i.verdict(Deref(i, root, schema["$ref"].value).value, v)
    else i.broken(schema["$ref"], v)
  }

  /** The keywords that rest judges. */
  function Core(schema: Schema): Schema {
    map key | key in schema && !IsAnnotation(key) && key !in ["$ref", "oneOf", "type", "required"] :: schema[key]
  }

  /** The keyword equations: every keyword of an object schema must accept. */
  function Keywords(i: Interp, root: Schema, schema: Schema, v: Json): Verdict {
    var target, union := Reference(i, root, schema, v), OneOf(i, schema, v);
    if TypeOk(i, schema, v) && RequiredOk(schema, v) && target.Pass? && union.Pass?
    then i.rest(Core(schema), target.marks + union.marks, v)
    else Fail
  }

  /** verdict is a meaning of the document root. */
  ghost predicate Interprets(i: Interp, root: Schema) {
    forall schema: Schema, v: Json {:trigger Keywords(i, root, schema, v)} ::
      i.verdict(Obj(schema), v) == Keywords(i, root, schema, v)
  }

  lemma Equation(i: Interp, root: Schema, schema: Schema, v: Json)
    requires Interprets(i, root)
    ensures i.verdict(Obj(schema), v) == Keywords(i, root, schema, v)
  {
  }

  /** What the flattening relies on from the other keywords. */
  ghost predicate CoreLaws(i: Interp) {
    && (forall marks, v :: i.rest(map[], marks, v) == Pass(marks))
    && (forall marks, v :: i.rest(map["properties" := Obj(map[])], marks, v) == Pass(marks))
    && (forall core, marks, v :: i.rest(core, marks, v).Pass? ==> CoreAccepts(i, core, v))
  }

  /** const, enum and properties, where they can tell two alternatives apart. */
  ghost predicate CoreAccepts(i: Interp, core: Schema, v: Json) {
    && ("const" in core && core["const"].Str? ==> v == core["const"])
    && (("enum" in core && core["enum"].Arr? &&
         (forall k :: 0 <= k < |core["enum"].items| ==> core["enum"].items[k].Str?)) ==>
          v in core["enum"].items)
    && (v.Obj? && "properties" in core && core["properties"].Obj? ==>
        forall name :: name in core["properties"].fields && name in v.fields ==>
          i.verdict(core["properties"].fields[name], v.fields[name]).Pass?)
  }

  // ---- References expand to conjunctions -----------------------------------------------------

  /** Two schemas that agree on every validating keyword agree on everything. */
  lemma SameKeywords(i: Interp, root: Schema, a: Schema, b: Schema, v: Json)
    requires Core(a) == Core(b)
    requires forall key :: key in ["$ref", "oneOf", "type", "required"] ==>
               (key in a <==> key in b) && (key in a ==> a[key] == b[key])
    ensures Keywords(i, root, a, v) == Keywords(i, root, b, v)
  {
    assert "$ref" in ["$ref", "oneOf", "type", "required"] && "oneOf" in ["$ref", "oneOf", "type", "required"];
    assert "type" in ["$ref", "oneOf", "type", "required"] && "required" in ["$ref", "oneOf", "type", "required"];
    assert Reference(i, root, a, v) == Reference(i, root, b, v);
    assert OneOf(i, a, v) == OneOf(i, b, v);
    assert TypeOk(i, a, v) == TypeOk(i, b, v);
    assert RequiredOk(a, v) == RequiredOk(b, v);
  }

  /** Annotations do not validate. */
  lemma AnnotationsIgnored(i: Interp, root: Schema, schema: Schema, added: Schema, v: Json)
    requires Interprets(i, root)
    requires forall key :: key in added ==> IsAnnotation(key)
    ensures i.verdict(Obj(schema + added), v) == i.verdict(Obj(schema), v)
  {
    AnnotationsOutsideCore(schema, added);
    SameKeywords(i, root, schema + added, schema, v);
    Equation(i, root, schema, v);
  }

  lemma AnnotationsOutsideCore(schema: Schema, added: Schema)
    requires forall key :: key in added ==> IsAnnotation(key)
    ensures Core(schema + added) == Core(schema)
  {
  }

  /** A schema that only refers, with mergeable siblings, means its target and the siblings. */
  lemma MergedMeaning(i: Interp, root: Schema, schema: Schema, resolved: Schema, v: Json)
    requires Interprets(i, root) && CoreLaws(i)
    requires "$ref" in schema && "$ref" !in resolved
    requires forall key :: key in Siblings(schema) ==> MayMerge(resolved, key, schema[key])
    requires Reference(i, root, schema, v) == i.verdict(Obj(resolved), v)
    ensures i.verdict(Obj(resolved + Siblings(schema)), v) == i.verdict(Obj(schema), v)
  {
    MergedKeywords(i, schema, resolved, v);
    MarksPass(i, root, schema, v);
    Equation(i, root, resolved, v);
    assert Keywords(i, root, resolved + Siblings(schema), v) ==
           if TypeOk(i, schema, v) && RequiredOk(schema, v) then Keywords(i, root, resolved, v) else Fail;
  }

  lemma MergedKeywords(i: Interp, schema: Schema, resolved: Schema, v: Json)
    requires "$ref" in schema && "$ref" !in resolved
    requires forall key :: key in Siblings(schema) ==> MayMerge(resolved, key, schema[key])
    ensures var merged := resolved + Siblings(schema);
            && "$ref" !in merged && Core(merged) == Core(resolved) && Core(schema) == map[]
            && OneOf(i, merged, v) == OneOf(i, resolved, v) && OneOf(i, schema, v) == Pass({})
            && (TypeOk(i, merged, v) <==> TypeOk(i, resolved, v) && TypeOk(i, schema, v))
            && (RequiredOk(merged, v) <==> RequiredOk(resolved, v) && RequiredOk(schema, v))
  {
    MergedCore(schema, resolved);
    MergedUnion(i, schema, resolved, v);
    MergedType(i, schema, resolved, v);
    MergedRequired(schema, resolved, v);
  }

  lemma MergedUnion(i: Interp, schema: Schema, resolved: Schema, v: Json)
    requires forall key :: key in Siblings(schema) ==> MayMerge(resolved, key, schema[key])
    ensures var merged := resolved + Siblings(schema);
            OneOf(i, merged, v) == OneOf(i, resolved, v) && OneOf(i, schema, v) == Pass({})
  {
    assert "oneOf" !in Siblings(schema);
  }

  lemma MergedType(i: Interp, schema: Schema, resolved: Schema, v: Json)
    requires forall key :: key in Siblings(schema) ==> MayMerge(resolved, key, schema[key])
    ensures TypeOk(i, resolved + Siblings(schema), v) <==> TypeOk(i, resolved, v) && TypeOk(i, schema, v)
  {
    assert "type" in resolved + Siblings(schema) <==> "type" in schema || "type" in resolved;
  }

  lemma MergedRequired(schema: Schema, resolved: Schema, v: Json)
    requires forall key :: key in Siblings(schema) ==> MayMerge(resolved, key, schema[key])
    ensures RequiredOk(resolved + Siblings(schema), v) <==> RequiredOk(resolved, v) && RequiredOk(schema, v)
  {
    assert "required" in resolved + Siblings(schema) <==> "required" in schema || "required" in resolved;
  }

  lemma MergedCore(schema: Schema, resolved: Schema)
    requires forall key :: key in Siblings(schema) ==> MayMerge(resolved, key, schema[key])
    ensures Core(resolved + Siblings(schema)) == Core(resolved) && Core(schema) == map[]
  {
    forall key | key in schema
      ensures key !in Core(schema)
    {
      assert key != "$ref" ==> key in Siblings(schema);
    }
  }

  lemma MarksPass(i: Interp, root: Schema, schema: Schema, v: Json)
    requires Interprets(i, root) && CoreLaws(i) && Core(schema) == map[] && OneOf(i, schema, v) == Pass({})
    ensures i.verdict(Obj(schema), v) ==
            if TypeOk(i, schema, v) && RequiredOk(schema, v) then Reference(i, root, schema, v) else Fail
  {
    var target := Reference(i, root, schema, v);
    Equation(i, root, schema, v);
    if target.Pass? { assert target.marks + {} == target.marks; }
  }

  /** A resolved schema means what the unresolved one did. */
  lemma {:induction false} ResolveKeepsMeaning(i: Interp, root: Schema, value: Json, seen: seq<string>, v: Json)
    requires Interprets(i, root) && CoreLaws(i)
    requires |seen| <= MAX_DEPTH && Resolve(root, value, seen).Some?
    ensures i.verdict(Obj(Resolve(root, value, seen).value), v) == i.verdict(value, v)
    decreases MAX_DEPTH - |seen|
  {
    var schema := value.fields;
    if "$ref" in schema {
      var ref := schema["$ref"].value;
      var target := Target(root, ref).value;
      var resolved := Resolve(root, target, seen + [ref]).value;
      ResolveKeepsMeaning(i, root, target, seen + [ref], v);
      ResolvedHasNoRef(root, target, seen + [ref]);
      MergedMeaning(i, root, schema, resolved, v);
    }
  }

  // ---- Exclusive unions collapse when at most one leaf accepts ---------------------------------

  lemma {:induction false} PassingConcat(a: seq<Verdict>, b: seq<Verdict>)
    ensures Passing(a + b) == Passing(a) + Passing(b)
  {
    if a == [] {
      assert a + b == b;
    } else {
      PassingConcat(a[1..], b);
      PassingFirst(a, b);
    }
  }

  lemma PassingFirst(a: seq<Verdict>, b: seq<Verdict>)
    requires a != [] && Passing(a[1..] + b) == Passing(a[1..]) + Passing(b)
    ensures Passing(a + b) == Passing(a) + Passing(b)
  {
    assert (a + b)[1..] == a[1..] + b;
    var first := if a[0].Pass? then [a[0]] else [];
    assert first + (Passing(a[1..]) + Passing(b)) == first + Passing(a[1..]) + Passing(b);
  }

  lemma VerdictsConcat(i: Interp, a: seq<Schema>, b: seq<Schema>, v: Json)
    ensures Verdicts(i, Values(a + b), v) == Verdicts(i, Values(a), v) + Verdicts(i, Values(b), v)
  {
  }

  ghost function LeafPassing(i: Interp, items: seq<Schema>, v: Json): seq<Verdict> {
    Passing(Verdicts(i, Values(items), v))
  }

  /** Each child means what it meant. */
  predicate SameMeanings(i: Interp, kept: seq<Schema>, children: seq<Schema>, v: Json) {
    |kept| == |children| && forall k :: 0 <= k < |kept| ==> i.verdict(Obj(kept[k]), v) == i.verdict(Obj(children[k]), v)
  }

  lemma InheritOneKeepsMeaning(i: Interp, root: Schema, c: Counters, parent: Schema, child: Schema, kept: Child,
                               v: Json)
    requires Interprets(i, root) && Inherit(c, parent, child) == Some(kept)
    ensures i.verdict(Obj(kept.schema), v) == i.verdict(Obj(child), v)
  {
    AnnotationsIgnored(i, root, child, Inherited(parent, child), v);
  }

  lemma {:induction false} InheritedMeanings(i: Interp, root: Schema, c: Counters, parent: Schema,
                                             children: seq<Schema>, kept: Flat, v: Json)
    requires Interprets(i, root) && InheritAll(c, parent, children) == Some(kept)
    ensures SameMeanings(i, kept.items, children, v)
    decreases |children|
  {
    if children != [] {
      var first := Inherit(c, parent, children[0]).value;
      var rest := InheritAll(first.counters, parent, children[1..]).value;
      InheritedMeanings(i, root, first.counters, parent, children[1..], rest, v);
      InheritOneKeepsMeaning(i, root, c, parent, children[0], first, v);
      assert kept.items == [first.schema] + rest.items && children == [children[0]] + children[1..];
    }
  }

  lemma InheritAllKeepsMeaning(i: Interp, root: Schema, c: Counters, parent: Schema, children: seq<Schema>, v: Json)
    requires Interprets(i, root) && InheritAll(c, parent, children).Some?
    ensures Verdicts(i, Values(InheritAll(c, parent, children).value.items), v) == Verdicts(i, Values(children), v)
  {
    InheritedMeanings(i, root, c, parent, children, InheritAll(c, parent, children).value, v);
  }

  lemma VerdictsCons(i: Interp, first: Schema, rest: seq<Schema>, v: Json)
    ensures Verdicts(i, Values([first] + rest), v) == [i.verdict(Obj(first), v)] + Verdicts(i, Values(rest), v)
  {
  }

  /** A leaf accepts objects only. */
  lemma LeafAcceptsObjects(i: Interp, root: Schema, leaf: Schema, v: Json)
    requires Interprets(i, root) && IsLeaf(leaf) && i.verdict(Obj(leaf), v).Pass?
    ensures v.Obj?
  {
    assert Keywords(i, root, leaf, v).Pass?;
    assert HasType(i, "object", v);
  }

  lemma {:induction false} SomeLeafPasses(i: Interp, items: seq<Schema>, v: Json) returns (k: nat)
    requires LeafPassing(i, items, v) != []
    ensures k < |items| && i.verdict(Obj(items[k]), v).Pass?
  {
    var vs := Verdicts(i, Values(items), v);
    k := FirstPassing(vs);
  }

  lemma {:induction false} FirstPassing(vs: seq<Verdict>) returns (k: nat)
    requires Passing(vs) != []
    ensures k < |vs| && vs[k].Pass?
  {
    if vs[0].Pass? {
      k := 0;
    } else {
      k := FirstPassing(vs[1..]);
      k := k + 1;
    }
  }

  /** A pure union means exactly one of its alternatives, when those accept objects only. */
  lemma PureUnionMeaning(i: Interp, root: Schema, branch: Schema, v: Json)
    requires Interprets(i, root) && CoreLaws(i)
    requires "oneOf" in branch && branch["oneOf"].Arr? && PureObjectUnion(branch)
    requires OneOf(i, branch, v).Pass? ==> v.Obj?
    ensures i.verdict(Obj(branch), v) == OneOf(i, branch, v)
  {
    var union := OneOf(i, branch, v);
    Equation(i, root, branch, v);
    if "properties" in branch {
      assert Core(branch) == map["properties" := Obj(map[])];
    } else {
      assert Core(branch) == map[];
    }
    assert Reference(i, root, branch, v) == Pass({});
    assert RequiredOk(branch, v);
    assert v.Obj? ==> TypeOk(i, branch, v);
    if union.Pass? { assert {} + union.marks == union.marks; }
  }

  /** Whether the passing alternatives are kept one by one. */
  ghost predicate Collapses(i: Interp, branches: seq<Json>, f: Flat, v: Json) {
    !f.counters.nested || |LeafPassing(i, f.items, v)| <= 1 ==>
      Passing(Verdicts(i, branches, v)) == LeafPassing(i, f.items, v)
  }

  lemma {:induction false} FlattenListKeepsMeaning(i: Interp, root: Schema, branches: seq<Json>, depth: nat,
                                                   c: Counters, v: Json)
    requires Interprets(i, root) && CoreLaws(i)
    requires depth <= MAX_DEPTH && FlattenList(root, branches, depth, c).Some?
    ensures Collapses(i, branches, FlattenList(root, branches, depth, c).value, v)
    decreases MAX_DEPTH + 1 - depth, |branches|
  {
    var f := FlattenList(root, branches, depth, c).value;
    if branches == [] {
      assert f.items == [];
    } else {
      var first := FlattenOne(root, branches[0], depth, c).value;
      var rest := FlattenList(root, branches[1..], depth, first.counters).value;
      FlattenOneKeepsMeaning(i, root, branches[0], depth, c, v);
      FlattenListKeepsMeaning(i, root, branches[1..], depth, first.counters, v);
      FlattenLeaves(root, branches[1..], depth, first.counters);
      VerdictsConcat(i, first.items, rest.items, v);
      PassingConcat(Verdicts(i, Values(first.items), v), Verdicts(i, Values(rest.items), v));
      assert Verdicts(i, branches, v)[1..] == Verdicts(i, branches[1..], v);
      PassingHead(i, branches, v);
    }
  }

  lemma PassingHead(i: Interp, branches: seq<Json>, v: Json)
    requires branches != []
    ensures Passing(Verdicts(i, branches, v)) ==
      Passing([i.verdict(branches[0], v)]) + Passing(Verdicts(i, branches[1..], v))
  {
    var vs := Verdicts(i, branches, v);
    assert vs[1..] == Verdicts(i, branches[1..], v);
    assert [vs[0]][1..] == [];
  }

  lemma {:induction false} FlattenOneKeepsMeaning(i: Interp, root: Schema, value: Json, depth: nat, c: Counters,
                                                  v: Json)
    requires Interprets(i, root) && CoreLaws(i)
    requires depth <= MAX_DEPTH && FlattenOne(root, value, depth, c).Some?
    ensures var f := FlattenOne(root, value, depth, c).value;
            !f.counters.nested || |LeafPassing(i, f.items, v)| <= 1 ==>
              Passing([i.verdict(value, v)]) == LeafPassing(i, f.items, v)
    decreases MAX_DEPTH + 1 - depth, 0
  {
    var f := FlattenOne(root, value, depth, c).value;
    var branch := Resolve(root, value, []).value;
    ResolveKeepsMeaning(i, root, value, [], v);
    if "oneOf" in branch {
      FlattenListKeepsMeaning(i, root, branch["oneOf"].items, depth + 1, c.(nested := true), v);
      NestedUnion(i, root, branch, branch["oneOf"].items, depth + 1, c.(nested := true), f, v);
    } else {
      LoneLeaf(i, branch, v);
    }
  }

  /** A resolved branch that is a union itself, once its own alternatives are flattened. */
  lemma NestedUnion(i: Interp, root: Schema, branch: Schema, alternatives: seq<Json>, depth: nat, c: Counters, f: Flat,
                    v: Json)
    requires Interprets(i, root) && CoreLaws(i) && depth <= MAX_DEPTH && c.nested &&
      FlattenList(root, alternatives, depth, c).Some?
    requires "oneOf" in branch && branch["oneOf"] == Arr(alternatives) && PureObjectUnion(branch)
    requires var children := FlattenList(root, alternatives, depth, c).value;
             InheritAll(children.counters, branch, children.items) == Some(f) && Collapses(i, alternatives, children, v)
    ensures f.counters.nested
    ensures |LeafPassing(i, f.items, v)| <= 1 ==> Passing([i.verdict(Obj(branch), v)]) == LeafPassing(i, f.items, v)
  {
    var children := FlattenList(root, alternatives, depth, c).value;
    FlattenLeaves(root, alternatives, depth, c);
    InheritAllLeaves(children.counters, branch, children.items);
    InheritedUnion(i, root, branch, children, v);
  }

  lemma LoneLeaf(i: Interp, branch: Schema, v: Json)
    ensures LeafPassing(i, [branch], v) == Passing([i.verdict(Obj(branch), v)])
  {
    VerdictsCons(i, branch, [], v);
    assert [branch] == [branch] + [] && Verdicts(i, Values([]), v) == [];
  }

  lemma InheritedUnion(i: Interp, root: Schema, branch: Schema, children: Flat, v: Json)
    requires Interprets(i, root) && CoreLaws(i) && Leaves(children.items)
    requires "oneOf" in branch && branch["oneOf"].Arr? && PureObjectUnion(branch)
    requires InheritAll(children.counters, branch, children.items).Some?
    requires Collapses(i, branch["oneOf"].items, children, v)
    ensures var items := InheritAll(children.counters, branch, children.items).value.items;
            |LeafPassing(i, items, v)| <= 1 ==> Passing([i.verdict(Obj(branch), v)]) == LeafPassing(i, items, v)
  {
    InheritAllKeepsMeaning(i, root, children.counters, branch, children.items, v);
    if |LeafPassing(i, children.items, v)| <= 1 {
      NestedMeaning(i, root, branch, children.items, v);
    }
  }

  lemma NestedMeaning(i: Interp, root: Schema, branch: Schema, leaves: seq<Schema>, v: Json)
    requires Interprets(i, root) && CoreLaws(i) && Leaves(leaves)
    requires "oneOf" in branch && branch["oneOf"].Arr? && PureObjectUnion(branch)
    requires |LeafPassing(i, leaves, v)| <= 1
    requires Passing(Verdicts(i, branch["oneOf"].items, v)) == LeafPassing(i, leaves, v)
    ensures Passing([i.verdict(Obj(branch), v)]) == LeafPassing(i, leaves, v)
  {
    var passing := LeafPassing(i, leaves, v);
    if passing != [] {
      var k := SomeLeafPasses(i, leaves, v);
      LeafAcceptsObjects(i, root, leaves[k], v);
      PassingPass(Verdicts(i, Values(leaves), v));
    }
    PureUnionMeaning(i, root, branch, v);
    var verdict := i.verdict(Obj(branch), v);
    assert [verdict][1..] == [];
  }

  lemma {:induction false} PassingPass(vs: seq<Verdict>)
    ensures forall k :: 0 <= k < |Passing(vs)| ==> Passing(vs)[k].Pass?
  {
    if vs != [] { PassingPass(vs[1..]); }
  }

  // ---- Discriminated leaves are disjoint ---------------------------------------------------------

  /** A property schema accepts only the strings that stringValues lists. */
  lemma StringValuesSound(i: Interp, root: Schema, property: Json, x: Json)
    requires Interprets(i, root) && CoreLaws(i)
    requires StringValues(root, property) != [] && i.verdict(property, x).Pass?
    ensures x.Str? && x.value in StringValues(root, property)
  {
    var schema := Resolve(root, property, []).value;
    ResolveKeepsMeaning(i, root, property, [], x);
    CoreOfPassing(i, root, schema, x);
  }

  /** Whatever passes a schema passes its other keywords. */
  lemma CoreOfPassing(i: Interp, root: Schema, schema: Schema, v: Json)
    requires Interprets(i, root) && CoreLaws(i) && i.verdict(Obj(schema), v).Pass?
    ensures CoreAccepts(i, Core(schema), v) && RequiredOk(schema, v)
    ensures "const" in schema ==> "const" in Core(schema) && Core(schema)["const"] == schema["const"]
    ensures "enum" in schema ==> "enum" in Core(schema) && Core(schema)["enum"] == schema["enum"]
    ensures "properties" in schema ==>
      "properties" in Core(schema) && Core(schema)["properties"] == schema["properties"]
  {
    Equation(i, root, schema, v);
    var marks := Reference(i, root, schema, v).marks + OneOf(i, schema, v).marks;
    assert i.rest(Core(schema), marks, v).Pass?;
  }

  lemma PropertyPasses(i: Interp, root: Schema, leaf: Schema, name: string, v: Json)
    requires Interprets(i, root) && CoreLaws(i) && v.Obj? && i.verdict(Obj(leaf), v).Pass?
    requires name in Properties(leaf) && Requires(leaf, name)
    ensures name in v.fields && i.verdict(Properties(leaf)[name], v.fields[name]).Pass?
  {
    CoreOfPassing(i, root, leaf, v);
    var k :| 0 <= k < |leaf["required"].items| && leaf["required"].items[k] == Str(name);
    assert leaf["required"].items[k].Str?;
  }

  lemma DisjointSound(i: Interp, root: Schema, left: Schema, right: Schema, v: Json)
    requires Interprets(i, root) && CoreLaws(i) && IsLeaf(left) && IsLeaf(right) && Disjoint(root, left, right)
    ensures !(i.verdict(Obj(left), v).Pass? && i.verdict(Obj(right), v).Pass?)
  {
    if i.verdict(Obj(left), v).Pass? && i.verdict(Obj(right), v).Pass? {
      var name :| name in Properties(left) && Discriminates(root, left, right, name);
      LeafAcceptsObjects(i, root, left, v);
      PropertyPasses(i, root, left, name, v);
      PropertyPasses(i, root, right, name, v);
      StringValuesSound(i, root, Properties(left)[name], v.fields[name]);
      StringValuesSound(i, root, Properties(right)[name], v.fields[name]);
      assert false;
    }
  }

  lemma {:induction false} TwoPassing(vs: seq<Verdict>) returns (a: nat, b: nat)
    requires |Passing(vs)| > 1
    ensures a < b < |vs| && vs[a].Pass? && vs[b].Pass?
  {
    if vs[0].Pass? {
      a := 0;
      b := FirstPassing(vs[1..]);
      b := b + 1;
    } else {
      a, b := TwoPassing(vs[1..]);
      a, b := a + 1, b + 1;
    }
  }

  lemma AtMostOneLeaf(i: Interp, root: Schema, items: seq<Schema>, v: Json)
    requires Interprets(i, root) && CoreLaws(i) && Leaves(items) && AllDisjoint(root, items)
    ensures |LeafPassing(i, items, v)| <= 1
  {
    if |LeafPassing(i, items, v)| > 1 {
      var a, b := TwoPassing(Verdicts(i, Values(items), v));
      DisjointSound(i, root, items[b], items[a], v);
      assert false;
    }
  }

  // ---- The theorems --------------------------------------------------------------------------------

  /** A reference into the rewritten array would find another schema there. */
  predicate PointsIntoUnion(schema: Schema) {
    && "$ref" in schema && schema["$ref"].Str?
    && Tokens(schema["$ref"].value).Some? && Tokens(schema["$ref"].value).value[0] == "oneOf"
  }

  /**
   Whenever flattening succeeds, the new root accepts exactly the instances of the old one,
   with the same marks, under every meaning of the old document.
   */
  lemma FlatteningKeepsMeaning(i: Interp, root: Schema, v: Json)
    requires Interprets(i, root) && CoreLaws(i) && FlattenRoot(Obj(root)).Some?
    ensures i.verdict(FlattenRoot(Obj(root)).value, v) == i.verdict(Obj(root), v)
  {
    var result := FlattenRoot(Obj(root)).value;
    if result != Obj(root) {
      var flat := Flatten(root, root["oneOf"].items, 0, START).value;
      FlattenLeaves(root, root["oneOf"].items, 0, START);
      FlattenListKeepsMeaning(i, root, root["oneOf"].items, 0, START, v);
      if flat.counters.nested { AtMostOneLeaf(i, root, flat.items, v); }
      UnionReplaced(i, root, flat.items, v);
    }
  }

  lemma UnionReplaced(i: Interp, root: Schema, items: seq<Schema>, v: Json)
    requires Interprets(i, root) && "oneOf" in root && root["oneOf"].Arr?
    requires Passing(Verdicts(i, root["oneOf"].items, v)) == LeafPassing(i, items, v)
    ensures i.verdict(Obj(root["oneOf" := Arr(Values(items))]), v) == i.verdict(Obj(root), v)
  {
    var changed := root["oneOf" := Arr(Values(items))];
    Equation(i, root, changed, v);
    Equation(i, root, root, v);
    assert Core(changed) == Core(root);
    assert OneOf(i, changed, v) == OneOf(i, root, v);
    SameTypes(i, changed, root, v);
    assert RequiredOk(changed, v) == RequiredOk(root, v);
    assert Reference(i, root, changed, v) == Reference(i, root, root, v);
  }

  lemma SameTypes(i: Interp, a: Schema, b: Schema, v: Json)
    requires ("type" in a <==> "type" in b) && ("type" in a ==> a["type"] == b["type"])
    ensures TypeOk(i, a, v) == TypeOk(i, b, v)
  {
  }

  /** The schema's own reference, if it is a local pointer, finds in the new root what it found in the old one. */
  predicate StillFinds(root: Schema, changed: Schema, schema: Schema) {
    "$ref" in schema && schema["$ref"].Str? ==>
      Target(changed, schema["$ref"].value) == Target(root, schema["$ref"].value)
  }

  /** Only references into the union can find something else. */
  lemma OthersStillFind(root: Schema, schema: Schema)
    requires FlattenRoot(Obj(root)).Some? && !PointsIntoUnion(schema)
    ensures FlattenRoot(Obj(root)).value.Obj?
    ensures StillFinds(root, FlattenRoot(Obj(root)).value.fields, schema)
  {
    var changed := FlattenRoot(Obj(root)).value.fields;
    if changed != root && "$ref" in schema && schema["$ref"].Str? {
      SameTarget(root, changed, schema["$ref"].value);
    }
  }

  /**
   The old meaning is also a meaning of the new document: the keyword equations hold with
   references looked up in the new root, for every schema whose own reference still finds
   the same schema.
   */
  lemma FlattenedDocumentHasSameMeaning(i: Interp, root: Schema, schema: Schema, v: Json)
    requires Interprets(i, root) && CoreLaws(i) && FlattenRoot(Obj(root)).Some?
    requires FlattenRoot(Obj(root)).value.Obj? ==> StillFinds(root, FlattenRoot(Obj(root)).value.fields, schema)
    ensures FlattenRoot(Obj(root)).value.Obj?
    ensures i.verdict(Obj(schema), v) == Keywords(i, FlattenRoot(Obj(root)).value.fields, schema, v)
  {
    var changed := FlattenRoot(Obj(root)).value.fields;
    FlatteningKeepsMeaning(i, root, v);
    Equation(i, root, schema, v);
    assert Reference(i, changed, schema, v) == Reference(i, root, schema, v);
  }

  lemma SameTarget(root: Schema, changed: Schema, ref: string)
    requires "oneOf" in root && "oneOf" in changed && changed == root["oneOf" := changed["oneOf"]]
    requires Tokens(ref).Some? ==> Tokens(ref).value != [] && Tokens(ref).value[0] != "oneOf"
    ensures Target(changed, ref) == Target(root, ref)
  {
  }
}
