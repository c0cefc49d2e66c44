/** Transcript parts, how a long text is cut, and what cutting a transcript leaves intact. */
module CompactParts {
  import opened Utf8
  import opened JsonString
  import opened JsonMarshal

  const CHUNK_BYTES := 0x2_0000
  const MAX_IMAGE_BYTES := 0x20_0000
  const MAX_SUMMARY_BYTES := 0x8000
  const MAX_CALLS := 128
  const MIN_SPLIT_BYTES := 2048

  /** {"text":...,"type":"input_text"} around the string token. */
  const TEXT_FRAME := 29

  datatype Part = Text(text: seq<byte>) | Image(raw: seq<byte>)

  /** The length of a part as JSON. */
  function Size(p: Part): nat {
    match p
    case Text(text) => TEXT_FRAME + |Marshal(text)|
    case Image(raw) => |raw|
  }

  function TotalSize(parts: seq<Part>): nat {
    if parts == [] then 0 else Size(parts[0]) + TotalSize(parts[1..])
  }

  lemma {:induction false} TotalSizeAppend(a: seq<Part>, b: seq<Part>)
    ensures TotalSize(a + b) == TotalSize(a) + TotalSize(b)
  {
    if a == [] {
      assert a + b == b;
    } else {
      assert (a + b)[1..] == a[1..] + b;
      TotalSizeAppend(a[1..], b);
    }
  }

  /** Text parts are valid UTF-8, as the JSON encoder writes them; an image part is some JSON. */
  predicate WellFormed(parts: seq<Part>) {
    forall p :: p in parts ==> if p.Text? then Valid(p.text) else p.raw != []
  }

  // ---- Character boundaries -----------------------------------------------------------------------

  /** A character that is not the start of the text's first one starts no earlier than after it. */
  lemma FirstTail(text: seq<byte>, m: nat)
    requires Valid(text) && text != [] && 0 < m < DecodeRune(text).size
    ensures !IsRuneStart(text[m])
  {
  }

  lemma PrefixDecodes(text: seq<byte>, m: nat)
    requires text != [] && DecodeRune(text).size <= m <= |text| && (text[0] < 0x80 || DecodeRune(text).size > 1)
    ensures DecodeRune(text[..m]) == DecodeRune(text)
  {
  }

  /** Cutting valid UTF-8 at the start of a character gives two valid halves. */
  lemma {:induction false} CutValid(text: seq<byte>, m: nat)
    requires Valid(text) && m < |text| && IsRuneStart(text[m])
    ensures Valid(text[..m]) && Valid(text[m..])
  {
    if m == 0 {
      assert text[0..] == text;
    } else {
      var k := DecodeRune(text).size;
      if m < k {
        FirstTail(text, m);
      } else {
        PrefixDecodes(text, m);
        if m == k {
          assert text[..m][k..] == [];
        } else {
          CutValid(text[k..], m - k);
          assert text[..m][k..] == text[k..][..m - k];
          assert text[m..] == text[k..][m - k..];
        }
      }
    }
  }

  /** In valid UTF-8 a character starts at most three bytes before any position. */
  lemma {:induction false} NearestStart(text: seq<byte>, m: nat) returns (j: nat)
    requires Valid(text) && m < |text|
    ensures j <= m <= j + 3 && IsRuneStart(text[j])
  {
    var k := DecodeRune(text).size;
    if m < k {
      j := 0;
    } else {
      j := NearestStart(text[k..], m - k);
      j := j + k;
    }
  }

  /** Marshalling works character by character, so it splits where the text does. */
  lemma {:induction false} MarshalAppend(a: seq<byte>, b: seq<byte>)
    requires Valid(a)
    ensures MarshalBody(a + b) == MarshalBody(a) + MarshalBody(b)
  {
    if a == [] {
      assert a + b == b;
    } else {
      var w := MarshalHead(a);
      HeadAppend(a, b);
      HeadStable(a);
      assert (a + b)[w.size..] == a[w.size..] + b;
      MarshalAppend(a[w.size..], b);
    }
  }

  lemma HeadAppend(a: seq<byte>, b: seq<byte>)
    requires Valid(a) && a != []
    ensures MarshalHead(a + b) == MarshalHead(a)
  {
    assert DecodeRune(a + b) == DecodeRune(a);
    assert (a + b)[..DecodeRune(a).size] == a[..DecodeRune(a).size];
  }

  lemma MarshalNonempty(text: seq<byte>)
    requires text != []
    ensures |MarshalBody(text)| > 0
  {
  }

  // ---- What cutting preserves ---------------------------------------------------------------------------

  function Joined(parts: seq<Part>): seq<byte> {
    if parts == [] then []
    else if parts[0].Text? then parts[0].text + Joined(parts[1..])
    else Joined(parts[1..])
  }

  lemma {:induction false} JoinedAppend(a: seq<Part>, b: seq<Part>)
    ensures Joined(a + b) == Joined(a) + Joined(b)
  {
    if a == [] {
      assert a + b == b;
    } else {
      assert (a + b)[1..] == a[1..] + b;
      JoinedAppend(a[1..], b);
    }
  }

  predicate AllText(parts: seq<Part>) {
    forall p :: p in parts ==> p.Text?
  }

  /**
   What may become of one part: an image stays itself; a text becomes texts that join to it,
   each whole characters.
   */
  predicate Pieces(p: Part, pieces: seq<Part>) {
    && pieces != []
    && match p
       case Image(_) => pieces == [p]
       case Text(text) => AllText(pieces) && WellFormed(pieces) && Joined(pieces) == text
  }

  /** Group by group, what became of each part. */
  predicate Grouped(parts: seq<Part>, groups: seq<seq<Part>>) {
    |groups| == |parts| && forall i :: 0 <= i < |parts| ==> Pieces(parts[i], groups[i])
  }

  /** `cut` is the transcript `parts`, part by part and in order, with texts at most cut. */
  ghost predicate CutOf(parts: seq<Part>, cut: seq<Part>) {
    exists groups :: Grouped(parts, groups) && Concat(groups) == cut
  }

  lemma {:induction false} CutOfSelf(parts: seq<Part>)
    requires WellFormed(parts)
    ensures CutOf(parts, parts)
  {
    var groups := seq(|parts|, i requires 0 <= i < |parts| => [parts[i]]);
    forall i | 0 <= i < |parts|
      ensures Pieces(parts[i], groups[i])
    {
      assert parts[i] in parts && [parts[i]][1..] == [];
    }
    ConcatSingles(parts, groups);
  }

  lemma {:induction false} ConcatSingles(parts: seq<Part>, groups: seq<seq<Part>>)
    requires |groups| == |parts| && forall i :: 0 <= i < |parts| ==> groups[i] == [parts[i]]
    ensures Concat(groups) == parts
  {
    if parts != [] { ConcatSingles(parts[1..], groups[1..]); }
  }

  /** Cutting one part of a cut transcript further leaves a cut transcript. */
  lemma CutFurther(parts: seq<Part>, a: seq<Part>, p: Part, pieces: seq<Part>, b: seq<Part>)
    requires CutOf(parts, a + [p] + b) && Pieces(p, pieces)
    ensures CutOf(parts, a + pieces + b)
  {
    var groups :| Grouped(parts, groups) && Concat(groups) == a + [p] + b;
    var finer := CutGroup(parts, groups, a, p, pieces, b);
  }

  lemma {:induction false} CutGroup(parts: seq<Part>, groups: seq<seq<Part>>, a: seq<Part>, p: Part, pieces: seq<Part>,
                                    b: seq<Part>)
    returns (finer: seq<seq<Part>>)
    requires Grouped(parts, groups) && Concat(groups) == a + [p] + b && Pieces(p, pieces)
    ensures Grouped(parts, finer) && Concat(finer) == a + pieces + b
    decreases |groups|
  {
    var g, rest := groups[0], groups[1..];
    Align(g, Concat(rest), a, p, b);
    if |a| < |g| {
      PiecesFurther(parts[0], g, |a|, pieces);
      finer := [a + pieces + g[|a| + 1..]] + rest;
      assert finer[1..] == rest;
      Regroup(a, pieces, g[|a| + 1..], Concat(rest));
    } else {
      var tail := CutGroup(parts[1..], rest, a[|g|..], p, pieces, b);
      finer := [g] + tail;
      assert finer[1..] == tail;
      Regroup(g, a[|g|..], pieces, b);
    }
  }

  lemma Regroup<T>(a: seq<T>, b: seq<T>, c: seq<T>, d: seq<T>)
    ensures a + b + c + d == a + b + (c + d) && a + (b + c + d) == a + b + c + d
  {
  }

  /** Where an element of a concatenation lies. */
  lemma Align<T>(g: seq<T>, r: seq<T>, a: seq<T>, p: T, b: seq<T>)
    requires g + r == a + [p] + b
    ensures |a| < |g| ==> g[|a|] == p && g[..|a|] == a && g[|a| + 1..] + r == b
    ensures |g| <= |a| ==> a == g + a[|g|..] && r == a[|g|..] + [p] + b
  {
    var whole := g + r;
    if |a| < |g| {
      assert whole[|a|] == p && whole[..|a|] == a && whole[|a| + 1..] == b;
    } else {
      assert whole[..|g|] == g && whole[|g|..] == r;
    }
  }

  lemma PiecesFurther(whole: Part, pieces: seq<Part>, i: nat, finer: seq<Part>)
    requires Pieces(whole, pieces) && i < |pieces| && Pieces(pieces[i], finer)
    ensures Pieces(whole, pieces[..i] + finer + pieces[i + 1..])
  {
    var a, p, b := pieces[..i], pieces[i], pieces[i + 1..];
    assert pieces == a + [p] + b;
    if whole.Text? {
      assert p in pieces;
      assert Joined([p]) == p.text by { assert [p][1..] == []; }
      JoinedAppend(a + [p], b);
      JoinedAppend(a, [p]);
      JoinedAppend(a + finer, b);
      JoinedAppend(a, finer);
      assert a + finer + b != [];
    } else {
      assert a == [] && b == [] && finer == [p];
      assert [] + finer + [] == finer;
    }
  }

  /** Nothing is lost, repeated or reordered: the texts of the cut join to the texts of the transcript. */
  lemma CutJoins(parts: seq<Part>, cut: seq<Part>)
    requires CutOf(parts, cut)
    ensures Joined(cut) == Joined(parts) && ImagesOf(cut) == ImagesOf(parts)
  {
    var groups :| Grouped(parts, groups) && Concat(groups) == cut;
    GroupsJoin(parts, groups);
  }

  lemma {:induction false} GroupsJoin(parts: seq<Part>, groups: seq<seq<Part>>)
    requires Grouped(parts, groups)
    ensures Joined(Concat(groups)) == Joined(parts) && ImagesOf(Concat(groups)) == ImagesOf(parts)
  {
    if parts != [] {
      var g := groups[0];
      GroupsJoin(parts[1..], groups[1..]);
      JoinedAppend(g, Concat(groups[1..]));
      ImagesAppend(g, Concat(groups[1..]));
      if parts[0].Text? {
        TextsHaveNoImages(g);
      } else {
        assert g == [parts[0]] && [parts[0]][1..] == [];
      }
    }
  }

  /** The images of a transcript in order. */
  function ImagesOf(parts: seq<Part>): seq<Part> {
    if parts == [] then []
    else if parts[0].Image? then [parts[0]] + ImagesOf(parts[1..])
    else ImagesOf(parts[1..])
  }

  lemma {:induction false} ImagesAppend(a: seq<Part>, b: seq<Part>)
    ensures ImagesOf(a + b) == ImagesOf(a) + ImagesOf(b)
  {
    if a == [] {
      assert a + b == b;
    } else {
      assert (a + b)[1..] == a[1..] + b;
      ImagesAppend(a[1..], b);
    }
  }

  lemma {:induction false} TextsHaveNoImages(parts: seq<Part>)
    requires AllText(parts)
    ensures ImagesOf(parts) == []
  {
    if parts != [] {
      assert parts[0] in parts;
      TextsHaveNoImages(parts[1..]);
    }
  }

  // ---- Lists of segments -----------------------------------------------------------------------------------

  function Concat(segments: seq<seq<Part>>): seq<Part> {
    if segments == [] then [] else segments[0] + Concat(segments[1..])
  }

  lemma {:induction false} ConcatAppend(a: seq<seq<Part>>, b: seq<seq<Part>>)
    ensures Concat(a + b) == Concat(a) + Concat(b)
  {
    if a == [] {
      assert a + b == b;
    } else {
      assert (a + b)[1..] == a[1..] + b;
      ConcatAppend(a[1..], b);
      assert a[0] + (Concat(a[1..]) + Concat(b)) == a[0] + Concat(a[1..]) + Concat(b);
    }
  }

  lemma ConcatOne(segment: seq<Part>)
    ensures Concat([segment]) == segment
  {
    assert [segment][1..] == [];
  }
}
