/**
 Summarising a transcript in bounded calls: chunking, splitting after a capacity rejection, and
 the rolling summary.
 */
module CompactRun {
  import opened Utf8
  import opened JsonString
  import opened JsonMarshal
  import opened CompactParts

  // ---- Splitting ----------------------------------------------------------------------------------

  /** One text in two, neither empty. */
  predicate TwoTexts(p: Part, left: seq<Part>, right: seq<Part>) {
    && p.Text? && |left| == 1 && |right| == 1 && left[0].Text? && right[0].Text?
    && left[0].text != [] && right[0].text != [] && p.text == left[0].text + right[0].text
  }

  /** What a split leaves: two smaller requests that together carry the same parts, or one text cut in two. */
  predicate Halves(parts: seq<Part>, left: seq<Part>, right: seq<Part>) {
    && left != [] && right != [] && WellFormed(left) && WellFormed(right)
    && TotalSize(left) < TotalSize(parts) && TotalSize(right) < TotalSize(parts)
    && if |parts| == 1 then TwoTexts(parts[0], left, right) else left + right == parts
  }

  predicate Splittable(parts: seq<Part>) {
    |parts| > 1 || (|parts| == 1 && parts[0].Text? && |parts[0].text| >= MIN_SPLIT_BYTES)
  }

  lemma PositiveSize(parts: seq<Part>)
    requires WellFormed(parts) && parts != []
    ensures TotalSize(parts) > 0
  {
    assert parts[0] in parts;
  }

  lemma HalvesOfList(parts: seq<Part>, middle: nat)
    requires WellFormed(parts) && 0 < middle < |parts|
    ensures Halves(parts, parts[..middle], parts[middle..])
  {
    var left, right := parts[..middle], parts[middle..];
    assert parts == left + right;
    TotalSizeAppend(left, right);
    PositiveSize(left);
    PositiveSize(right);
  }

  lemma SizeOfOne(p: Part)
    ensures TotalSize([p]) == Size(p)
  {
    assert [p][1..] == [];
  }

  lemma TextSizes(a: seq<byte>, b: seq<byte>)
    requires Valid(a) && a != [] && b != []
    ensures Size(Text(a)) < Size(Text(a + b)) && Size(Text(b)) < Size(Text(a + b))
  {
    MarshalAppend(a, b);
    MarshalNonempty(a);
    MarshalNonempty(b);
  }

  lemma HalvesOfText(text: seq<byte>, middle: nat)
    requires Valid(text) && 0 < middle < |text| && IsRuneStart(text[middle])
    ensures Halves([Text(text)], [Text(text[..middle])], [Text(text[middle..])])
  {
    var a, b := text[..middle], text[middle..];
    assert text == a + b;
    CutValid(text, middle);
    TextSizes(a, b);
    SizeOfOne(Text(a));
    SizeOfOne(Text(b));
    SizeOfOne(Text(text));
  }

  lemma TwoTextsArePieces(p: Part, left: seq<Part>, right: seq<Part>)
    requires TwoTexts(p, left, right) && WellFormed(left) && WellFormed(right)
    ensures Pieces(p, left + right)
  {
    JoinedAppend(left, right);
    assert left[1..] == [] && right[1..] == [];
  }

  /** The last character start at or before m. */
  function CharacterStart(text: seq<byte>, m: nat): (j: nat)
    requires m < |text|
    ensures j <= m
  {
    if m == 0 || IsRuneStart(text[m]) then m else CharacterStart(text, m - 1)
  }

  lemma {:induction false} StartsFrom(text: seq<byte>, j: nat, m: nat)
    requires j <= m < |text| && IsRuneStart(text[j])
    ensures j <= CharacterStart(text, m) <= m && IsRuneStart(text[CharacterStart(text, m)])
  {
    if m > j && !IsRuneStart(text[m]) { StartsFrom(text, j, m - 1); }
  }

  /** Where a text is cut: at the character that holds its middle byte. */
  function CutAt(text: seq<byte>): nat
    requires text != []
  {
    CharacterStart(text, |text| / 2)
  }

  function LeftHalf(p: Part): Part
    requires p.Text? && p.text != []
  {
    Text(p.text[..CutAt(p.text)])
  }

  function RightHalf(p: Part): Part
    requires p.Text? && p.text != []
  {
    Text(p.text[CutAt(p.text)..])
  }

  method SplitParts(parts: seq<Part>) returns (left: seq<Part>, right: seq<Part>, ok: bool)
    requires WellFormed(parts)
    ensures ok == Splittable(parts)
    ensures ok ==> Halves(parts, left, right)
    ensures ok && |parts| > 1 ==> left == parts[..|parts| / 2] && right == parts[|parts| / 2..]
    ensures ok && |parts| == 1 ==> left == [LeftHalf(parts[0])] && right == [RightHalf(parts[0])]
    ensures ok && |parts| == 1 ==> |LeftHalf(parts[0]).text| <= |parts[0].text| / 2 <= |LeftHalf(parts[0]).text| + 3
  {
    if |parts| > 1 {
      var middle := |parts| / 2;
      HalvesOfList(parts, middle);
      return parts[..middle], parts[middle..], true;
    }
    if |parts| != 1 || !parts[0].Text? { return [], [], false; }
    var text := parts[0].text;
    if |text| < MIN_SPLIT_BYTES { return [], [], false; }
    assert parts[0] in parts;
    var middle := |text| / 2;
    ghost var start := NearestStart(text, middle);
    while !IsRuneStart(text[middle])
      invariant start <= middle <= |text| / 2 <= start + 3 && CharacterStart(text, middle) == CutAt(text)
      decreases middle
    {
      middle := middle - 1;
    }
    HalvesOfText(text, middle);
    assert parts == [Text(text)];
    return [Text(text[..middle])], [Text(text[middle..])], true;
  }

  // ---- Chunking --------------------------------------------------------------------------------------

  /** One request: a single image, or texts that fit. */
  predicate IsChunk(chunk: seq<Part>) {
    && WellFormed(chunk) && chunk != []
    && ((|chunk| == 1 && chunk[0].Image? && |chunk[0].raw| <= MAX_IMAGE_BYTES)
        || (AllText(chunk) && TotalSize(chunk) <= CHUNK_BYTES))
  }

  predicate AllChunks(chunks: seq<seq<Part>>) {
    forall c :: c in chunks ==> IsChunk(c)
  }

  predicate OversizedImage(parts: seq<Part>) {
    exists p :: p in parts && p.Image? && |p.raw| > MAX_IMAGE_BYTES
  }

  function Weight(parts: seq<Part>): nat {
    if parts == [] then 0
    else (if parts[0].Text? && |parts[0].text| > 0 then 2 * |parts[0].text| - 1 else 1) + Weight(parts[1..])
  }

  lemma {:induction false} WeightAppend(a: seq<Part>, b: seq<Part>)
    ensures Weight(a + b) == Weight(a) + Weight(b)
  {
    if a == [] {
      assert a + b == b;
    } else {
      assert (a + b)[1..] == a[1..] + b;
      WeightAppend(a[1..], b);
    }
  }

  /** A text too long for a chunk is long enough to be cut: marshalling grows it at most sixfold. */
  lemma LongTextSplits(text: seq<byte>)
    requires Size(Text(text)) > CHUNK_BYTES
    ensures |text| >= MIN_SPLIT_BYTES
  {
    MarshalDecodes(text);
  }

  // ---- The chunks of a transcript ------------------------------------------------------------------

  /** A text that is too long for a chunk is cut in two. */
  lemma LongHalves(p: Part)
    requires p.Text? && Valid(p.text) && Size(p) > CHUNK_BYTES
    ensures |p.text| >= MIN_SPLIT_BYTES
    ensures WellFormed([LeftHalf(p), RightHalf(p)]) && TwoTexts(p, [LeftHalf(p)], [RightHalf(p)])
    ensures |LeftHalf(p).text| + 3 >= |p.text| / 2 && |RightHalf(p).text| >= |p.text| / 2
  {
    LongTextSplits(p.text);
    CutNearMiddle(p.text);
    CutValid(p.text, CutAt(p.text));
    assert p.text == p.text[..CutAt(p.text)] + p.text[CutAt(p.text)..];
  }

  lemma CutNearMiddle(text: seq<byte>)
    requires Valid(text) && |text| >= MIN_SPLIT_BYTES
    ensures |text| / 2 <= CutAt(text) + 3 && CutAt(text) <= |text| / 2 && IsRuneStart(text[CutAt(text)])
  {
    var j := NearestStart(text, |text| / 2);
    StartsFrom(text, j, |text| / 2);
  }

  lemma LongWeighs(p: Part, rest: seq<Part>)
    requires p.Text? && Valid(p.text) && Size(p) > CHUNK_BYTES
    ensures p.text != [] && Weight([LeftHalf(p), RightHalf(p)] + rest) < Weight([p] + rest)
  {
    LongHalves(p);
    TwoTextsWeigh(p, [LeftHalf(p)], [RightHalf(p)]);
    assert [LeftHalf(p)] + [RightHalf(p)] == [LeftHalf(p), RightHalf(p)];
    WeightAppend([LeftHalf(p), RightHalf(p)], rest);
    WeightAppend([p], rest);
  }

  lemma LongCut(queue: seq<Part>)
    requires WellFormed(queue) && queue != [] && queue[0].Text? && Size(queue[0]) > CHUNK_BYTES
    ensures queue[0].text != []
    ensures var next := [LeftHalf(queue[0]), RightHalf(queue[0])] + queue[1..];
            WellFormed(next) && Weight(next) < Weight(queue)
  {
    assert queue[0] in queue;
    LongHalves(queue[0]);
    LongWeighs(queue[0], queue[1..]);
    assert queue == [queue[0]] + queue[1..];
  }

  function Closed(current: seq<Part>): seq<seq<Part>> {
    if current == [] then [] else [current]
  }

  /** What chunks does, with no limit on the number of chunks or the size of images: the chunks still to come. */
  function Greedy(current: seq<Part>, queue: seq<Part>): seq<seq<Part>>
    requires WellFormed(queue)
    decreases Weight(queue)
  {
    if queue == [] then Closed(current)
    else
      var part, rest := queue[0], queue[1..];
      if part.Image? then Closed(current) + [[part]] + Greedy([], rest)
      else if Size(part) > CHUNK_BYTES then
        LongCut(queue);
        Greedy(current, [LeftHalf(part), RightHalf(part)] + rest)
      else if current != [] && TotalSize(current) + Size(part) > CHUNK_BYTES then [current] + Greedy([part], rest)
      else Greedy(current + [part], rest)
  }

  /** More chunks than calls. */
  predicate Crowded(parts: seq<Part>) {
    WellFormed(parts) && |Greedy([], parts)| > MAX_CALLS
  }

  lemma {:induction false} GreedySome(current: seq<Part>, queue: seq<Part>)
    requires WellFormed(queue) && (current != [] || queue != [])
    ensures Greedy(current, queue) != []
    decreases Weight(queue)
  {
    if queue != [] && queue[0].Text? {
      if Size(queue[0]) > CHUNK_BYTES {
        LongCut(queue);
        GreedySome(current, [LeftHalf(queue[0]), RightHalf(queue[0])] + queue[1..]);
      } else if !(current != [] && TotalSize(current) + Size(queue[0]) > CHUNK_BYTES) {
        GreedySome(current + [queue[0]], queue[1..]);
      }
    }
  }

  /**
   What is closed and what is to come are the chunks of the transcript; images that are too
   large are still to come.
   */
  ghost predicate Ahead(parts: seq<Part>, result: seq<seq<Part>>, current: seq<Part>, queue: seq<Part>) {
    && WellFormed(parts) && WellFormed(queue) && Greedy([], parts) == result + Greedy(current, queue)
    && (OversizedImage(parts) ==> OversizedImage(queue))
  }

  lemma AheadImage(parts: seq<Part>, result: seq<seq<Part>>, current: seq<Part>, queue: seq<Part>)
    requires Ahead(parts, result, current, queue) && queue != [] && queue[0].Image? && |queue[0].raw| <= MAX_IMAGE_BYTES
    ensures Ahead(parts, result + Closed(current) + [[queue[0]]], [], queue[1..])
  {
    var more := Greedy([], queue[1..]);
    assert result + (Closed(current) + [[queue[0]]] + more) == result + Closed(current) + [[queue[0]]] + more;
    LaterImages(parts, queue);
  }

  /** An image that is too large is not the first part. */
  lemma LaterImages(parts: seq<Part>, queue: seq<Part>)
    requires queue != [] && (OversizedImage(parts) ==> OversizedImage(queue))
    requires queue[0].Image? ==> |queue[0].raw| <= MAX_IMAGE_BYTES
    ensures OversizedImage(parts) ==> OversizedImage(queue[1..])
  {
    if OversizedImage(parts) {
      var p :| p in queue && p.Image? && |p.raw| > MAX_IMAGE_BYTES;
      assert p in queue[1..];
    }
  }

  lemma AheadCut(parts: seq<Part>, result: seq<seq<Part>>, current: seq<Part>, queue: seq<Part>)
    requires Ahead(parts, result, current, queue) && queue != [] && queue[0].Text? && Size(queue[0]) > CHUNK_BYTES
    ensures queue[0].text != [] && Ahead(parts, result, current, [LeftHalf(queue[0]), RightHalf(queue[0])] + queue[1..])
  {
    LongCut(queue);
    LaterImages(parts, queue);
    var next := [LeftHalf(queue[0]), RightHalf(queue[0])] + queue[1..];
    if OversizedImage(queue[1..]) {
      var p :| p in queue[1..] && p.Image? && |p.raw| > MAX_IMAGE_BYTES;
      assert p in next;
    }
  }

  /** Closing a chunk that the next text does not fit into. */
  lemma AheadClose(parts: seq<Part>, result: seq<seq<Part>>, current: seq<Part>, queue: seq<Part>)
    requires Ahead(parts, result, current, queue) && queue != [] && queue[0].Text? && Size(queue[0]) <= CHUNK_BYTES
    requires current != [] && TotalSize(current) + Size(queue[0]) > CHUNK_BYTES
    ensures Ahead(parts, result + [current], [], queue)
  {
    var more := Greedy([queue[0]], queue[1..]);
    assert [] + [queue[0]] == [queue[0]];
    assert result + ([current] + more) == result + [current] + more;
  }

  lemma AheadTake(parts: seq<Part>, result: seq<seq<Part>>, current: seq<Part>, queue: seq<Part>)
    requires Ahead(parts, result, current, queue) && queue != [] && queue[0].Text? && Size(queue[0]) <= CHUNK_BYTES
    requires current == [] || TotalSize(current) + Size(queue[0]) <= CHUNK_BYTES
    ensures Ahead(parts, result, current + [queue[0]], queue[1..])
  {
    LaterImages(parts, queue);
  }

  lemma AheadFull(parts: seq<Part>, result: seq<seq<Part>>, current: seq<Part>, queue: seq<Part>)
    requires Ahead(parts, result, current, queue)
    ensures |result| > MAX_CALLS || (|result| == MAX_CALLS && queue != []) ==> Crowded(parts)
  {
    if queue != [] { GreedySome(current, queue); }
  }

  lemma AheadEnd(parts: seq<Part>, result: seq<seq<Part>>, current: seq<Part>)
    requires Ahead(parts, result, current, [])
    ensures !OversizedImage(parts) && Greedy([], parts) == result + Closed(current)
  {
  }

  /** The chunker's position: closed chunks, the open one, and what is left. */
  ghost predicate Chunking(parts: seq<Part>, result: seq<seq<Part>>, current: seq<Part>, queue: seq<Part>) {
    && CutOf(parts, Concat(result) + current + queue)
    && WellFormed(queue) && AllChunks(result) && |result| <= MAX_CALLS
    && (current != [] ==> IsChunk(current) && AllText(current) && |result| < MAX_CALLS)
  }

  lemma Close(parts: seq<Part>, result: seq<seq<Part>>, current: seq<Part>, queue: seq<Part>)
    requires Chunking(parts, result, current, queue) && current != []
    ensures Chunking(parts, result + [current], [], queue)
  {
    ConcatAppend(result, [current]);
    ConcatOne(current);
    assert Concat(result) + current + queue == Concat(result + [current]) + [] + queue;
  }

  lemma ShiftText(a: seq<Part>, b: seq<Part>, queue: seq<Part>)
    requires queue != []
    ensures a + b + queue == a + (b + [queue[0]]) + queue[1..]
  {
  }

  lemma TakeText(parts: seq<Part>, result: seq<seq<Part>>, current: seq<Part>, queue: seq<Part>)
    requires Chunking(parts, result, current, queue) && queue != [] && queue[0].Text? && |result| < MAX_CALLS
    requires TotalSize(current) + Size(queue[0]) <= CHUNK_BYTES
    ensures Chunking(parts, result, current + [queue[0]], queue[1..])
    ensures TotalSize(current + [queue[0]]) == TotalSize(current) + Size(queue[0])
  {
    TotalSizeAppend(current, [queue[0]]);
    SizeOfOne(queue[0]);
    assert queue[0] in queue;
    ShiftText(Concat(result), current, queue);
  }

  lemma TakeImage(parts: seq<Part>, result: seq<seq<Part>>, queue: seq<Part>)
    requires Chunking(parts, result, [], queue) && queue != [] && queue[0].Image? && |queue[0].raw| <= MAX_IMAGE_BYTES
    ensures |result| < MAX_CALLS ==> Chunking(parts, result + [[queue[0]]], [], queue[1..])
  {
    assert queue[0] in queue;
    ConcatAppend(result, [[queue[0]]]);
    ConcatOne([queue[0]]);
    assert Concat(result) + [] + queue == Concat(result + [[queue[0]]]) + [] + queue[1..];
  }

  lemma TwoTextsWeigh(p: Part, left: seq<Part>, right: seq<Part>)
    requires TwoTexts(p, left, right)
    ensures Weight(left + right) < Weight([p])
  {
    WeightAppend(left, right);
    assert left[1..] == [] && right[1..] == [] && [p][1..] == [];
  }

  lemma CutFront(parts: seq<Part>, result: seq<seq<Part>>, current: seq<Part>, queue: seq<Part>, left: seq<Part>,
                 right: seq<Part>)
    requires Chunking(parts, result, current, queue) && queue != [] && queue[0].Text? && Halves([queue[0]], left, right)
    ensures Chunking(parts, result, current, left + right + queue[1..])
    ensures Weight(left + right + queue[1..]) < Weight(queue)
  {
    var before, rest := Concat(result) + current, queue[1..];
    TwoTextsArePieces(queue[0], left, right);
    CutFrontOf(parts, before, queue, left + right);
    TwoTextsWeigh(queue[0], left, right);
    WeightAppend(left + right, rest);
    WeightAppend([queue[0]], rest);
    assert queue == [queue[0]] + rest;
  }

  lemma CutFrontOf(parts: seq<Part>, before: seq<Part>, queue: seq<Part>, pieces: seq<Part>)
    requires queue != [] && CutOf(parts, before + queue) && Pieces(queue[0], pieces)
    ensures CutOf(parts, before + (pieces + queue[1..]))
  {
    assert before + queue == before + [queue[0]] + queue[1..];
    CutFurther(parts, before, queue[0], pieces, queue[1..]);
    assert before + pieces + queue[1..] == before + (pieces + queue[1..]);
  }

  lemma Start(parts: seq<Part>)
    requires WellFormed(parts)
    ensures Chunking(parts, [], [], parts)
  {
    CutOfSelf(parts);
    assert Concat([]) + [] + parts == parts;
  }

  lemma Finish(parts: seq<Part>, result: seq<seq<Part>>)
    requires Chunking(parts, result, [], [])
    ensures CutOf(parts, Concat(result))
  {
    assert Concat(result) + [] + [] == Concat(result);
  }

  /** Every image the chunker meets is one of the transcript's. */
  lemma FromParts(parts: seq<Part>, result: seq<seq<Part>>, current: seq<Part>, queue: seq<Part>)
    requires Chunking(parts, result, current, queue) && queue != [] && queue[0].Image?
    ensures queue[0] in parts
  {
    var before := Concat(result) + current;
    CutJoins(parts, before + queue);
    ImagesAppend(before, queue);
    assert ImagesOf(queue)[0] == queue[0];
    assert (ImagesOf(before) + ImagesOf(queue))[|ImagesOf(before)|] == queue[0];
    ImagesFrom(parts, queue[0]);
  }

  lemma {:induction false} ImagesFrom(parts: seq<Part>, p: Part)
    requires p in ImagesOf(parts)
    ensures p in parts
  {
    if parts[0] != p { ImagesFrom(parts[1..], p); }
  }

  /** Where the loop of chunks is. */
  ghost predicate At(parts: seq<Part>, result: seq<seq<Part>>, current: seq<Part>, size: nat, queue: seq<Part>) {
    Chunking(parts, result, current, queue) && Ahead(parts, result, current, queue) && size == TotalSize(current)
  }

  lemma AtStart(parts: seq<Part>)
    requires WellFormed(parts)
    ensures At(parts, [], [], 0, parts)
  {
    Start(parts);
  }

  /** chunks: refused exactly for an image that is too large or for more chunks than calls. */
  method Chunks(parts: seq<Part>) returns (result: seq<seq<Part>>, ok: bool)
    requires WellFormed(parts)
    ensures ok ==> |result| <= MAX_CALLS && AllChunks(result) && CutOf(parts, Concat(result))
    ensures ok <==> !OversizedImage(parts) && !Crowded(parts)
    ensures ok ==> result == Greedy([], parts)
  {
    result, ok := [], true;
    var current, size, queue := [], 0, parts;
    AtStart(parts);
    while |queue| > 0
      invariant At(parts, result, current, size, queue)
      decreases Weight(queue)
    {
      var part := queue[0];
      if part.Image? {
        ok, result, queue := TakeImagePart(parts, result, current, size, queue);
        current, size := [], 0;
      } else if Size(part) > CHUNK_BYTES {
        queue := CutLong(parts, result, current, queue);
      } else {
        ok, result, current, size, queue := TakeTextPart(parts, result, current, size, queue);
      }
      if !ok { return [], false; }
    }
    result := LastChunk(parts, result, current, size);
  }

  /** The chunk under way is closed at the end. */
  method LastChunk(ghost parts: seq<Part>, before: seq<seq<Part>>, current: seq<Part>, ghost size: nat)
      returns (result: seq<seq<Part>>)
    requires At(parts, before, current, size, [])
    ensures |result| <= MAX_CALLS && AllChunks(result) && CutOf(parts, Concat(result))
    ensures !OversizedImage(parts) && !Crowded(parts) && result == Greedy([], parts)
  {
    AheadEnd(parts, before, current);
    result := before;
    if |current| > 0 {
      Close(parts, before, current, []);
      result := before + [current];
    }
    Finish(parts, result);
  }

  /** The branch for an image: the chunk under way is closed, and the image is a chunk of its own. */
  method TakeImagePart(ghost parts: seq<Part>, before: seq<seq<Part>>, current: seq<Part>, ghost size: nat,
                       queue0: seq<Part>)
      returns (ok: bool, result: seq<seq<Part>>, queue: seq<Part>)
    requires At(parts, before, current, size, queue0) && queue0 != [] && queue0[0].Image?
    ensures ok ==> At(parts, result, [], 0, queue) && Weight(queue) < Weight(queue0)
    ensures !ok ==> OversizedImage(parts) || Crowded(parts)
  {
    FromParts(parts, before, current, queue0);
    if |queue0[0].raw| > MAX_IMAGE_BYTES { return false, before, queue0; }
    AheadImage(parts, before, current, queue0);
    result, queue := before, queue0[1..];
    if |current| > 0 {
      Close(parts, before, current, queue0);
      result := result + [current];
    } else {
      assert before + Closed(current) == before;
    }
    AheadFull(parts, result + [[queue0[0]]], [], queue);
    if |result| >= MAX_CALLS { return false, result, queue; }
    TakeImage(parts, result, queue0);
    result, ok := result + [[queue0[0]]], true;
  }

  /** The branch for a text that fits into a chunk. */
  method TakeTextPart(
    ghost parts: seq<Part>, before: seq<seq<Part>>, current0: seq<Part>, size0: nat, queue0: seq<Part>)
      returns (ok: bool, result: seq<seq<Part>>, current: seq<Part>, size: nat, queue: seq<Part>)
    requires At(parts, before, current0, size0, queue0) && queue0 != []
    requires queue0[0].Text? && Size(queue0[0]) <= CHUNK_BYTES
    ensures ok ==> At(parts, result, current, size, queue) && Weight(queue) < Weight(queue0)
    ensures !ok ==> Crowded(parts)
  {
    var part := queue0[0];
    result, current, size, queue := before, current0, size0, queue0;
    if |current| > 0 && size + Size(part) > CHUNK_BYTES {
      Close(parts, before, current0, queue0);
      AheadClose(parts, before, current0, queue0);
      result, current, size := before + [current0], [], 0;
    }
    AheadFull(parts, result, current, queue0);
    if |result| >= MAX_CALLS { return false, result, current, size, queue; }
    TakeText(parts, result, current, queue0);
    AheadTake(parts, result, current, queue0);
    current, size, queue, ok := current + [part], size + Size(part), queue0[1..], true;
  }

  /** The branch for a text that is too long. */
  method CutLong(ghost parts: seq<Part>, ghost result: seq<seq<Part>>, ghost current: seq<Part>, queue: seq<Part>)
    returns (next: seq<Part>)
    requires Chunking(parts, result, current, queue) && Ahead(parts, result, current, queue)
    requires queue != [] && queue[0].Text? && Size(queue[0]) > CHUNK_BYTES
    ensures Chunking(parts, result, current, next) && Ahead(parts, result, current, next) &&
      Weight(next) < Weight(queue)
  {
    LongTextSplits(queue[0].text);
    assert queue[0] in queue;
    var left, right, split := SplitParts([queue[0]]);
    CutFront(parts, result, current, queue, left, right);
    AheadCut(parts, result, current, queue);
    next := left + right + queue[1..];
    assert left + right == [LeftHalf(queue[0]), RightHalf(queue[0])];
  }
}
