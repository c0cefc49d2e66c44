/**
 Flattening an assistant message whose content is an array of plain text parts into one
 JSON string, straight from the request bytes.
 */
module CopilotHistory {
  import opened Collections
  import opened Utf8
  import opened JsonString
  import opened JsonTree
  import opened JsonScan
  import opened FieldEdits
  import opened JsonDoc
  import opened JsonObject
  import opened JsonLookup
  import opened StringRepair
  import opened Buffers

  const TEXT: Bytes := [0x74, 0x65, 0x78, 0x74]

  /** copilotPlainAssistantPart: an object whose last "text" is a JSON string. */
  ghost predicate PlainPart(t: Tree) {
    && t.Obj?
    && Find(LastWins(LookupFields(t.members)), TEXT).Some?
    && exists body: Bytes :: ValidBody(body) && Find(LastWins(LookupFields(t.members)), TEXT).value == Quoted(body)
  }

  /** The interior of that string. */
  ghost function TextBody(t: Tree): (body: Bytes)
    requires PlainPart(t)
    ensures ValidBody(body) && Find(LastWins(LookupFields(t.members)), TEXT) == Some(Quoted(body))
  {
    var body: Bytes :| ValidBody(body) && Find(LastWins(LookupFields(t.members)), TEXT).value == Quoted(body);
    body
  }

  ghost predicate PlainParts(items: seq<Item>) {
    forall i :: 0 <= i < |items| ==> PlainPart(items[i].value)
  }

  ghost function TextBodies(items: seq<Item>): (bodies: seq<Bytes>)
    requires PlainParts(items)
    ensures |bodies| == |items| && forall i :: 0 <= i < |bodies| ==> bodies[i] == TextBody(items[i].value)
  {
    seq(|items|, i requires 0 <= i < |items| => TextBody(items[i].value))
  }

  lemma {:induction false} RepairAllSnoc(parts: seq<Bytes>, part: Bytes)
    ensures RepairAll(parts + [part]) == RepairAll(parts) + Repair(part)
  {
    if parts == [] {
      assert parts + [part] == [part] && [part][1..] == [];
    } else {
      assert (parts + [part])[1..] == parts[1..] + [part];
      RepairAllSnoc(parts[1..], part);
    }
  }

  lemma {:induction false} VisitedAll(items: seq<Item>)
    ensures |Visited(items, (v: Bytes) => true)| == |items|
    ensures forall i :: 0 <= i < |items| ==> Visited(items, (v: Bytes) => true)[i] == Render(items[i].value)
  {
    if items != [] { VisitedAll(items[1..]); }
  }

  /**
   writeCopilotAssistantText: the written token is one JSON string that decodes to the
   texts of the parts, each decoded on its own, in order.
   */
  method WriteAssistantText(output: Buffer, raw: Bytes, ghost tree: Tree)
    requires Wf(tree) && tree.Arr? && Render(tree) == Trim(raw) && PlainParts(tree.items)
    modifies output
    ensures ValidBody(RepairAll(TextBodies(tree.items)))
    ensures output.content == old(output.content) + Quoted(RepairAll(TextBodies(tree.items)))
    ensures Decode(RepairAll(TextBodies(tree.items))) == DecodeParts(TextBodies(tree.items))
  {
    ghost var start, bodies := output.content, TextBodies(tree.items);
    output.Write([QUOTE]);
    var parts, ok := VisitArray(raw, (v: Bytes) => true, Some(tree), true);
    VisitedAll(tree.items);
    ghost var trees := ItemTrees(tree);
    WriteParts(output, parts, trees, bodies);
    output.Write([QUOTE]);
    JoinedPartsDecode(bodies);
    QuotedAssoc(start, RepairAll(bodies));
  }

  lemma QuotedAssoc(start: Bytes, body: Bytes)
    ensures start + [QUOTE] + body + [QUOTE] == start + Quoted(body)
  {
  }

  ghost function ItemTrees(t: Tree): (trees: seq<Tree>)
    requires t.Arr? && Wf(t)
    ensures |trees| == |t.items| && forall i :: 0 <= i < |trees| ==> trees[i] == t.items[i].value && Wf(trees[i])
  {
    assert forall i :: 0 <= i < |t.items| ==> WfItem(t.items[i]);
    seq(|t.items|, i requires 0 <= i < |t.items| => t.items[i].value)
  }

  method WriteParts(output: Buffer, parts: seq<Bytes>, ghost trees: seq<Tree>, ghost bodies: seq<Bytes>)
    requires |trees| == |bodies| == |parts|
    requires forall i :: 0 <= i < |trees| ==> Wf(trees[i]) && Render(trees[i]) == parts[i]
    requires forall i :: 0 <= i < |trees| ==> PlainPart(trees[i]) && bodies[i] == TextBody(trees[i])
    modifies output
    ensures output.content == old(output.content) + RepairAll(bodies)
  {
    ghost var start := output.content;
    for i := 0 to |parts|
      invariant output.content == start + RepairAll(bodies[..i])
    {
      RepairAllSnoc(bodies[..i], bodies[i]);
      Assoc(start, RepairAll(bodies[..i]), Repair(bodies[i]));
      assert bodies[..i + 1] == bodies[..i] + [bodies[i]];
      WritePartText(output, parts[i], trees[i]);
    }
    assert bodies[..|parts|] == bodies;
  }

  method WritePartText(output: Buffer, part: Bytes, ghost tree: Tree)
    requires Wf(tree) && Render(tree) == part && PlainPart(tree)
    modifies output
    ensures output.content == old(output.content) + Repair(TextBody(tree))
  {
    PrintIsTrimmed(tree);
    var text := Lookup(part, TEXT, tree);
    ghost var body := TextBody(tree);
    assert text.value[1..|text.value| - 1] == body;
    AppendJsonStringText(output, text.value[1..|text.value| - 1]);
  }
}
