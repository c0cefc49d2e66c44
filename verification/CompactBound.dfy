/** How much text is never refused for its size. */
module CompactBound {
  import opened Utf8
  import opened JsonMarshal
  import opened CompactParts
  import opened CompactRun

  /** What cutting a text adds: a second frame and a second pair of quotes. */
  const FRAME := TEXT_FRAME + 2

  /** Sixteen times what a part can come to after any cuts; a text long enough to be a half has one frame in hand. */
  function Charge(p: Part): nat {
    if Size(p) >= 17 * FRAME then 17 * (Size(p) - FRAME) else 17 * Size(p)
  }

  function Charges(queue: seq<Part>): nat {
    if queue == [] then 0 else Charge(queue[0]) + Charges(queue[1..])
  }

  lemma ChargeCovers(p: Part)
    ensures 16 * Size(p) <= Charge(p) <= 17 * Size(p)
  {
  }

  lemma {:induction false} ChargesBounded(queue: seq<Part>)
    ensures Charges(queue) <= 17 * TotalSize(queue)
  {
    if queue != [] { ChargesBounded(queue[1..]); }
  }

  /** Marshalling never shortens a text. */
  lemma {:induction false} MarshalLonger(text: seq<byte>)
    ensures |text| <= |MarshalBody(text)|
  {
    if text != [] { MarshalLonger(text[MarshalHead(text).size..]); }
  }

  /** The two halves are charged no more than the whole. */
  lemma HalvesCharged(p: Part)
    requires p.Text? && Valid(p.text) && Size(p) > CHUNK_BYTES
    ensures p.text != [] && Charge(LeftHalf(p)) + Charge(RightHalf(p)) <= Charge(p)
  {
    LongHalves(p);
    var a, b := LeftHalf(p).text, RightHalf(p).text;
    assert p.text == a + b;
    assert Valid(LeftHalf(p).text) by { assert LeftHalf(p) in [LeftHalf(p), RightHalf(p)]; }
    MarshalAppend(a, b);
    MarshalLonger(a);
    MarshalLonger(b);
  }

  lemma CutCharged(queue: seq<Part>)
    requires WellFormed(queue) && queue != [] && queue[0].Text? && Size(queue[0]) > CHUNK_BYTES
    ensures queue[0].text != [] && Charges([LeftHalf(queue[0]), RightHalf(queue[0])] + queue[1..]) <= Charges(queue)
  {
    assert queue[0] in queue;
    HalvesCharged(queue[0]);
    var left, right, rest := LeftHalf(queue[0]), RightHalf(queue[0]), queue[1..];
    var next := [left, right] + rest;
    assert next[1..] == [right] + rest && next[1..][1..] == rest;
  }

  /** Two neighbouring chunks of text are more than one chunk's worth, so the chunks cannot be many. */
  lemma {:induction false} ChunksBounded(current: seq<Part>, queue: seq<Part>)
    requires WellFormed(queue) && AllText(queue) && (current != [] || queue != [])
    ensures Greedy(current, queue) != []
    ensures TotalSize(current) <= TotalSize(Greedy(current, queue)[0])
    ensures 16 * ((|Greedy(current, queue)| - 1) * CHUNK_BYTES + TotalSize(Greedy(current, queue)[0])) <=
            2 * (16 * TotalSize(current) + Charges(queue))
    decreases Weight(queue)
  {
    if queue != [] {
      var part, rest := queue[0], queue[1..];
      ChargeCovers(part);
      if Size(part) > CHUNK_BYTES {
        LongCut(queue);
        CutCharged(queue);
        ChunksBounded(current, [LeftHalf(part), RightHalf(part)] + rest);
      } else if current != [] && TotalSize(current) + Size(part) > CHUNK_BYTES {
        OneText(part);
        ChunksBounded([part], rest);
      } else {
        TotalSizeAppend(current, [part]);
        OneText(part);
        ChunksBounded(current + [part], rest);
      }
    }
  }

  lemma OneText(p: Part)
    ensures TotalSize([p]) == Size(p)
  {
    SizeOfOne(p);
  }

  const NEVER_REFUSED := 60 * CHUNK_BYTES

  /**
   A transcript of text of at most sixty chunks' worth of bytes is never refused for its size,
   however it is divided into parts.
   */
  lemma TextNeverRefused(parts: seq<Part>)
    requires WellFormed(parts) && AllText(parts) && TotalSize(parts) <= NEVER_REFUSED
    ensures !OversizedImage(parts) && !Crowded(parts)
  {
    if parts != [] {
      ChunksBounded([], parts);
      ChargesBounded(parts);
    }
  }
}
