/** What a run of chunks says, read without the converter: the texts, and each call's id, name and arguments. */
module CopilotHeard {
  import opened Collections
  import opened CopilotEvents

  /** The pieces of the chunks' deltas that are not empty, in order. */
  datatype Atom = Text(text: string) | Refusal(text: string) | Call(call: CallDelta)

  function Texts(atoms: seq<Atom>): string {
    if atoms == [] then ""
    else
      var before, last := atoms[..|atoms| - 1], atoms[|atoms| - 1];
      if last.Text? then Texts(before) + last.text else Texts(before)
  }

  function Refusals(atoms: seq<Atom>): string {
    if atoms == [] then ""
    else
      var before, last := atoms[..|atoms| - 1], atoms[|atoms| - 1];
      if last.Refusal? then Refusals(before) + last.text else Refusals(before)
  }

  /** The calls' indexes, in the order they first appear. */
  function Order(atoms: seq<Atom>): seq<int> {
    if atoms == [] then []
    else
      var before, last := atoms[..|atoms| - 1], atoms[|atoms| - 1];
      if last.Call? && last.call.index !in Order(before) then Order(before) + [last.call.index] else Order(before)
  }

  /** The last id given to a call, or none. */
  function IdOf(atoms: seq<Atom>, i: int): string {
    if atoms == [] then ""
    else
      var before, last := atoms[..|atoms| - 1], atoms[|atoms| - 1];
      if last.Call? && last.call.index == i && last.call.id != "" then last.call.id else IdOf(before, i)
  }

  function NameOf(atoms: seq<Atom>, i: int): string {
    if atoms == [] then ""
    else
      var before, last := atoms[..|atoms| - 1], atoms[|atoms| - 1];
      if last.Call? && last.call.index == i then NameOf(before, i) + last.call.name else NameOf(before, i)
  }

  function ArgumentsOf(atoms: seq<Atom>, i: int): string {
    if atoms == [] then ""
    else
      var before, last := atoms[..|atoms| - 1], atoms[|atoms| - 1];
      if last.Call? && last.call.index == i then ArgumentsOf(before, i) + last.call.arguments
      else ArgumentsOf(before, i)
  }

  /** As much of the name as was known when the first arguments came; the whole name when none came. */
  function NameInTime(atoms: seq<Atom>, i: int): string {
    if ArgumentsOf(atoms, i) == "" then NameOf(atoms, i)
    else
      var before := atoms[..|atoms| - 1];
      if ArgumentsOf(before, i) == "" then NameOf(atoms, i) else NameInTime(before, i)
  }

  /** The refusal began before the text did. */
  predicate RefusalFirst(atoms: seq<Atom>) {
    if atoms == [] then false
    else
      var before, last := atoms[..|atoms| - 1], atoms[|atoms| - 1];
      RefusalFirst(before) || (last.Text? && Texts(before) == "" && Refusals(before) != "")
  }

  predicate CallFirst(atoms: seq<Atom>) {
    atoms != [] && atoms[0].Call?
  }

  predicate Speaks(atoms: seq<Atom>) {
    Texts(atoms) != "" || Refusals(atoms) != ""
  }

  /** What one chunk says: its text, its refusal, its calls. */
  function Said(chunk: Chunk): seq<Atom> {
    if chunk.error || chunk.choice.None? then []
    else
      var choice := chunk.choice.value;
      TextSaid(choice.content) + RefusalSaid(choice.refusal) + Calls(choice.calls)
  }

  function TextSaid(content: string): seq<Atom> {
    if content != "" then [Text(content)] else []
  }

  function RefusalSaid(refusal: string): seq<Atom> {
    if refusal != "" then [Refusal(refusal)] else []
  }

  function Calls(calls: seq<CallDelta>): seq<Atom> {
    seq(|calls|, k requires 0 <= k < |calls| => Call(calls[k]))
  }

  /** Everything said before the first error. */
  function AllSaid(chunks: seq<Chunk>): seq<Atom> {
    if chunks == [] || chunks[0].error then [] else Said(chunks[0]) + AllSaid(chunks[1..])
  }

  /** One atom more, seen from both sides. */
  lemma OneMore(atoms: seq<Atom>, a: Atom)
    ensures (atoms + [a])[..|atoms + [a]| - 1] == atoms && (atoms + [a])[|atoms + [a]| - 1] == a
  {
  }
}
