/** Buffered reading of request bodies against the shared byte budget. */
module BodyBudget {
  import opened Collections
  import opened BudgetModel

  // ---- Costs ----------------------------------------------------------------------------------------------

  /** requestBodyCost; no product is formed that could overflow. */
  function RequestBodyCost(bytes: int, copies: int): Option<int> {
    if bytes < 0 || copies <= 0 || bytes > MAX / copies then Option.None else Some(bytes * copies)
  }

  lemma CostIsProduct(bytes: int, copies: int)
    ensures RequestBodyCost(bytes, copies) == if bytes >= 0 && copies > 0 && bytes * copies <= MAX
      then Some(bytes * copies) else Option.None
  {
    if copies > 0 {
      if bytes > MAX / copies {
        Product(MAX / copies + 1, bytes, copies);
      } else {
        Product(bytes, MAX / copies, copies);
      }
    }
  }

  lemma Product(a: int, b: int, copies: int)
    requires a <= b && copies > 0
    ensures a * copies <= b * copies
  {
  }

  // ---- The budget and a reservation, used by one owner -----------------------------------------------------

  class ByteBudget {
    const limit: int
    var used: int

    constructor (limit: int)
      ensures this.limit == limit && used == 0
    {
      this.limit := limit;
      used := 0;
    }

    /** The loop of load and swap, when nobody comes between; BudgetModel has the loop. */
    method TryAcquireWithin(bytes: int, limit: int) returns (ok: bool)
      modifies this
      ensures ok <==> 0 <= bytes <= limit && bytes <= limit - old(used)
      ensures used == old(used) + if ok then bytes else 0
    {
      if bytes < 0 || bytes > limit { return false; }
      if bytes > limit - used { return false; }
      used := used + bytes;
      return true;
    }

    method Release(bytes: int)
      requires bytes <= used
      modifies this
      ensures used == old(used) - if bytes > 0 then bytes else 0
    {
      if bytes <= 0 { return; }
      used := used - bytes;
    }

    /** What the other requests hold when this one next looks. */
    method Meanwhile(others: int, held: int)
      modifies this
      ensures used == others + held
    {
      used := others + held;
    }
  }

  class BodyReservation {
    const budget: ByteBudget
    const limit: int
    var bytes: int
    var released: bool

    constructor (budget: ByteBudget, limit: int, bytes: int)
      ensures this.budget == budget && this.limit == limit && this.bytes == bytes && !released
    {
      this.budget, this.limit, this.bytes, released := budget, limit, bytes, false;
    }

    method Resize(target: int)
      requires !released && 0 <= target && bytes <= budget.used
      modifies this`bytes, budget
      ensures bytes == if target < old(bytes) then target else old(bytes)
      ensures budget.used - bytes == old(budget.used - bytes)
    {
      if target >= bytes { return; }
      budget.Release(bytes - target);
      bytes := target;
    }

    method Grow(target: int) returns (ok: bool)
      requires !released
      modifies this`bytes, budget
      ensures ok <==>
        target <= old(bytes) || (target - old(bytes) <= limit && target <= limit - old(budget.used - bytes))
      ensures bytes == if ok && target > old(bytes) then target else old(bytes)
      ensures budget.used - bytes == old(budget.used - bytes)
      ensures bytes > old(bytes) ==> budget.used <= limit
    {
      if target <= bytes { return true; }
      ok := budget.TryAcquireWithin(target - bytes, limit);
      if ok { bytes := target; }
    }

    method Release()
      requires released || 0 <= bytes <= budget.used
      modifies this`released, budget
      ensures released && budget.used == old(budget.used) - if old(released) then 0 else bytes
    {
      if !released {
        released := true;
        budget.Release(bytes);
      }
    }
  }

  // ---- Reading ----------------------------------------------------------------------------------------------

  datatype Ending = Going | EndOfFile | Broken

  /** What one Read gives for a buffer of some size. */
  datatype Got<T> = Got(bytes: seq<T>, err: Ending)

  /** The k-th read of a body, with room for so many bytes. */
  type Reader<!T> = (nat, nat) -> Got<T>

  /** io.Reader's promise: no more than fits. */
  ghost predicate Fits<T>(reader: Reader<T>) {
    forall k: nat, n: nat :: |reader(k, n).bytes| <= n
  }

  /** All that reads with these buffer sizes deliver. */
  function Delivered<T>(reader: Reader<T>, sizes: seq<nat>): seq<T> {
    if sizes == [] then []
    else
      var k: nat := |sizes| - 1;
      Delivered(reader, sizes[..k]) + reader(k, sizes[k]).bytes
  }

  /** The last of these reads. */
  function LastRead<T>(reader: Reader<T>, sizes: seq<nat>): Got<T>
    requires sizes != []
  {
    reader(|sizes| - 1, sizes[|sizes| - 1])
  }

  /** The reads before the k-th end in nothing. */
  predicate QuietBefore<T(==)>(reader: Reader<T>, sizes: seq<nat>, k: int) {
    forall j: nat :: j < k && j < |sizes| ==> reader(j, sizes[j]).err == Going
  }

  /** The last n reads gave nothing at all. */
  predicate IdleFor<T(==)>(reader: Reader<T>, sizes: seq<nat>, n: int) {
    n <= |sizes| && forall j: nat :: |sizes| - n <= j < |sizes| ==> reader(j, sizes[j]) == Got([], Going)
  }

  datatype Outcome = Complete | TooLarge | NoCapacity | NoProgress | ReadFailed | Reading

  datatype Limits = Limits(maxBody: int, maxInflight: int)

  /** Room for the next read: at most the buffer, and at most what may still come. */
  function ReadSize(length: nat, limits: Limits): int {
    if limits.maxBody - length < 0x1_0000 then limits.maxBody - length else 0x1_0000
  }

  /** The reservation covers what has been read, exactly so when no length was declared. */
  predicate Covers(bytes: int, length: nat, declared: int, copies: int) {
    && 0 <= length * copies <= bytes && (declared < 0 ==> bytes == length * copies)
    && (length > 0 ==> RequestBodyCost(length, copies) == Some(length * copies))
  }

  /** What has been read so far, in the reader's terms. */
  ghost predicate SoFar<T>(reader: Reader<T>, sizes: seq<nat>, body: seq<T>, emptyReads: nat, limits: Limits) {
    && body == Delivered(reader, sizes) && (body == [] || |body| <= limits.maxBody) &&
       QuietBefore(reader, sizes, |sizes|)
    && emptyReads < 100 && IdleFor(reader, sizes, emptyReads)
  }

  /** One read more, as seen by the reader's own functions. */
  lemma Another<T>(reader: Reader<T>, sizes: seq<nat>, n: nat, k: nat, emptyReads: nat)
    requires k == |sizes| && QuietBefore(reader, sizes, k) && IdleFor(reader, sizes, emptyReads)
    ensures var after := sizes + [n];
            && Delivered(reader, after) == Delivered(reader, sizes) + reader(k, n).bytes &&
               LastRead(reader, after) == reader(k, n)
            && QuietBefore(reader, after, |after| - 1)
            && (reader(k, n).err == Going ==> QuietBefore(reader, after, |after|))
            && (reader(k, n) == Got([], Going) ==> IdleFor(reader, after, emptyReads + 1))
            && IdleFor(reader, after, 0)
  {
    assert (sizes + [n])[..k] == sizes;
  }

  /** The cost of less is less. */
  lemma CostBelow(length: nat, more: int, copies: int)
    requires length <= more && RequestBodyCost(more, copies).Some?
    ensures RequestBodyCost(length, copies) == Some(length * copies) &&
      0 <= length * copies <= RequestBodyCost(more, copies).value == more * copies
  {
    CostIsProduct(more, copies);
    CostIsProduct(length, copies);
    Product(length, more, copies);
    Product(0, length, copies);
  }

  /** Why a reading ended. */
  ghost predicate Explained<T>(out: Outcome, reader: Reader<T>, sizes: seq<nat>, body: seq<T>, emptyReads: nat,
                               declared: int, copies: int,
                               limits: Limits, others: int, asked: int)
  {
    match out
    case Reading => SoFar(reader, sizes, body, emptyReads, limits)
    case Complete =>
      && sizes != [] && body == Delivered(reader, sizes) && (body == [] || |body| <= limits.maxBody)
      && LastRead(reader, sizes).err == EndOfFile && QuietBefore(reader, sizes, |sizes| - 1)
    case TooLarge => declared > limits.maxBody || |Delivered(reader, sizes)| > limits.maxBody >= 0
    case NoCapacity =>
      && (asked == declared >= 0 || asked == |Delivered(reader, sizes)| + ReadSize(|Delivered(reader, sizes)|, limits))
      && (RequestBodyCost(asked, copies).None? || RequestBodyCost(asked, copies).value > limits.maxInflight - others)
    case NoProgress => IdleFor(reader, sizes, 100) && QuietBefore(reader, sizes, |sizes|)
    case ReadFailed => sizes != [] && LastRead(reader, sizes).err == Broken && QuietBefore(reader, sizes, |sizes| - 1)
  }

  /** The loop's branch for a body that is as long as it may be: only its end may follow. */
  method AtLimit<T>(reader: Reader<T>, body: seq<T>, ghost sizes: seq<nat>, taken: nat, emptyReads: nat, limits: Limits)
    returns (out: Outcome, empty: nat)
    requires Fits(reader) && SoFar(reader, sizes, body, emptyReads, limits) && taken == |sizes| &&
      |body| == limits.maxBody
    ensures forall declared, copies, others,
      asked :: Explained(out, reader, sizes + [1], body, empty, declared, copies, limits, others, asked)
    ensures out == Reading ==> empty > emptyReads
    ensures out != NoCapacity
  {
    var got := reader(taken, 1);
    Another(reader, sizes, 1, taken, emptyReads);
    empty := emptyReads;
    if |got.bytes| > 0 { return TooLarge, empty; }
    assert Delivered(reader, sizes + [1]) == body;
    if got.err == EndOfFile { return Complete, empty; }
    if got.err == Broken { return ReadFailed, empty; }
    empty := emptyReads + 1;
    out := if empty >= 100 then NoProgress else Reading;
  }

  /** The loop's other branch once there is room: a read, and what it means. */
  method ReadMore<T>(reader: Reader<T>, body: seq<T>, ghost sizes: seq<nat>, taken: nat, emptyReads: nat,
                     limits: Limits, size: nat)
    returns (out: Outcome, more: seq<T>, empty: nat)
    requires Fits(reader) && SoFar(reader, sizes, body, emptyReads, limits) && taken == |sizes| &&
      size == ReadSize(|body|, limits)
    ensures forall declared, copies, others,
      asked :: Explained(out, reader, sizes + [size], more, empty, declared, copies, limits, others, asked)
    ensures |body| <= |more| <= |body| + size
    ensures out == Reading ==> |more| > |body| || empty > emptyReads
    ensures out != NoCapacity
  {
    var got := reader(taken, size);
    Another(reader, sizes, size, taken, emptyReads);
    more, empty := body + got.bytes, emptyReads;
    assert Delivered(reader, sizes + [size]) == more;
    if |got.bytes| > 0 {
      empty := 0;
    } else if got.err == Going {
      empty := emptyReads + 1;
      if empty >= 100 { return NoProgress, more, empty; }
    }
    if got.err == EndOfFile { return Complete, more, empty; }
    if got.err == Broken { return ReadFailed, more, empty; }
    out := Reading;
  }

  /** Before a read: the reservation grows to cover the buffer. */
  method MakeRoom(reservation: BodyReservation, length: nat, ghost declared: int, copies: int, limits: Limits,
                  ghost others: int) returns (ok: bool)
    requires !reservation.released && reservation.limit == limits.maxInflight &&
      reservation.budget.used == others + reservation.bytes
    requires Covers(reservation.bytes, length, declared, copies) && others >= 0 && ReadSize(length, limits) != 0
    modifies reservation`bytes, reservation.budget
    ensures reservation.budget.used == others + reservation.bytes && reservation.bytes >= old(reservation.bytes)
    ensures var cost := RequestBodyCost(length + ReadSize(length, limits), copies);
            if ok then cost.Some? && reservation.bytes >= cost.value
            else reservation.bytes == old(reservation.bytes) && (cost.None? || cost.value > limits.maxInflight - others)
  {
    var target := RequestBodyCost(length + ReadSize(length, limits), copies);
    if target.None? { return false; }
    ok := reservation.Grow(target.value);
  }

  /** After a read, when no length was declared: only what was read stays reserved. */
  method Settle(reservation: BodyReservation, length: nat, ghost asked: int, declared: int, copies: int,
                ghost others: int)
    requires !reservation.released && reservation.budget.used == others + reservation.bytes && others >= 0
    requires length <= asked && RequestBodyCost(asked, copies).Some? &&
      reservation.bytes >= RequestBodyCost(asked, copies).value
    modifies reservation`bytes, reservation.budget
    ensures reservation.budget.used == others + reservation.bytes && Covers(reservation.bytes, length, declared, copies)
  {
    CostBelow(length, asked, copies);
    if declared < 0 {
      var observed := RequestBodyCost(length, copies);
      reservation.Resize(if observed.Some? then observed.value else 0);
    }
  }

  /** The loop's branch for a body that may still grow. */
  method ReadInto<T>(reservation: BodyReservation, reader: Reader<T>, body: seq<T>, ghost sizes: seq<nat>, taken: nat,
                     emptyReads: nat,
                     declared: int, copies: int, limits: Limits, ghost others: int)
    returns (out: Outcome, more: seq<T>, empty: nat, ghost sizes': seq<nat>)
    requires !reservation.released && reservation.limit == limits.maxInflight &&
      reservation.budget.used == others + reservation.bytes
    requires Covers(reservation.bytes, |body|, declared, copies) && others >= 0 && ReadSize(|body|, limits) != 0
    requires Fits(reader) && SoFar(reader, sizes, body, emptyReads, limits) && taken == |sizes|
    modifies reservation`bytes, reservation.budget
    ensures reservation.budget.used == others + reservation.bytes && Covers(reservation.bytes, |more|, declared, copies)
    ensures Explained(out, reader, sizes', more, empty, declared, copies, limits, others,
      |body| + ReadSize(|body|, limits))
    ensures out == Reading ==>
      (|body| < |more| <= limits.maxBody || (|more| == |body| && empty > emptyReads)) && |sizes'| == taken + 1
  {
    more, empty, sizes' := body, emptyReads, sizes;
    var size := ReadSize(|body|, limits);
    var ok := MakeRoom(reservation, |body|, declared, copies, limits, others);
    if !ok { return NoCapacity, more, empty, sizes'; }
    out, more, empty := ReadMore(reader, body, sizes, taken, emptyReads, limits, size);
    sizes' := sizes + [size];
    Settle(reservation, |more|, |body| + size, declared, copies, others);
  }

  /** The reservation for a declared length, if there is room. */
  method Admit(budget: ByteBudget, declared: int, copies: int, limits: Limits) returns (reservation: BodyReservation?)
    modifies budget
    ensures reservation == null ==>
      declared >= 0 && budget.used == old(budget.used) &&
      (RequestBodyCost(declared, copies).None? ||
        RequestBodyCost(declared, copies).value > limits.maxInflight - old(budget.used) ||
       RequestBodyCost(declared, copies).value > limits.maxInflight)
    ensures reservation != null ==>
      && fresh(reservation) && reservation.budget == budget && reservation.limit == limits.maxInflight &&
         !reservation.released
      && budget.used == old(budget.used) + reservation.bytes && Covers(reservation.bytes, 0, declared, copies)
  {
    var reserved := 0;
    if declared >= 0 {
      var cost := RequestBodyCost(declared, copies);
      CostIsProduct(declared, copies);
      if cost.None? { return null; }
      var ok := budget.TryAcquireWithin(cost.value, limits.maxInflight);
      if !ok { return null; }
      reserved := cost.value;
    }
    reservation := new BodyReservation(budget, limits.maxInflight, reserved);
  }

  /**
   readBufferedBodyWithLimits. It ends for every reader. While it runs the others may take
   and give back as they like: others(k) is what they hold at its k-th look. It ends with
   the whole body and a reservation of exactly its cost, or with nothing held.
   */
  method ReadBufferedBody<T>(budget: ByteBudget, reader: Reader<T>, declared: int, copies: int, limits: Limits,
                             others: nat -> nat)
    returns (out: Outcome, body: seq<T>, reservation: BodyReservation?, ghost sizes: seq<nat>, ghost at: nat,
      ghost asked: int)
    requires Fits(reader) && budget.used == others(0)
    modifies budget
    ensures out != Reading && Explained(out, reader, sizes, body, 0, declared, copies, limits, others(at), asked)
    ensures out == Complete ==>
      && reservation != null && fresh(reservation) && reservation.budget == budget && !reservation.released
      && reservation.bytes == |body| * copies && budget.used == others(at) + reservation.bytes
    ensures out != Complete ==> budget.used == others(at)
  {
    sizes, at, asked, body, reservation := [], 0, declared, [], null;
    if declared > limits.maxBody { return TooLarge, body, reservation, sizes, at, asked; }
    reservation := Admit(budget, declared, copies, limits);
    if reservation == null { return NoCapacity, body, reservation, sizes, at, asked; }
    var emptyReads, taken := 0, 0;
    out := Reading;
    while out == Reading
      invariant reservation != null && fresh(reservation)
      invariant reservation.budget == budget && reservation.limit == limits.maxInflight && !reservation.released
      invariant budget.used == others(at) + reservation.bytes && Covers(reservation.bytes, |body|, declared, copies)
      invariant Explained(out, reader, sizes, body, emptyReads, declared, copies, limits, others(at), asked) &&
        (out == Reading ==> |sizes| == taken)
      decreases out == Reading, if limits.maxBody > |body| then limits.maxBody - |body| else 0, if emptyReads < 100
        then 100 - emptyReads else 0
    {
      at := taken + 1;
      budget.Meanwhile(others(taken + 1), reservation.bytes);
      var size := ReadSize(|body|, limits);
      if size == 0 {
        out, emptyReads := AtLimit(reader, body, sizes, taken, emptyReads, limits);
        sizes, taken := sizes + [1], taken + 1;
      } else {
        asked := |body| + size;
        out, body, emptyReads, sizes :=
          ReadInto(reservation, reader, body, sizes, taken, emptyReads, declared, copies, limits, others(taken + 1));
        taken := taken + 1;
      }
    }
    Conclude(reservation, out == Complete, |body|, declared, copies, others(at));
  }

  /** A whole body keeps its own cost; anything else is given back. */
  method Conclude(reservation: BodyReservation, whole: bool, length: nat, ghost declared: int, copies: int,
                  ghost others: int)
    requires !reservation.released && reservation.budget.used == others + reservation.bytes && others >= 0
    requires Covers(reservation.bytes, length, declared, copies)
    modifies reservation, reservation.budget
    ensures whole ==>
      !reservation.released && reservation.bytes == length * copies &&
        reservation.budget.used == others + reservation.bytes
    ensures !whole ==> reservation.budget.used == others
  {
    if whole {
      var observed := RequestBodyCost(length, copies);
      reservation.Resize(if observed.Some? then observed.value else 0);
    } else {
      reservation.Release();
    }
  }

  // ---- Compaction transcripts -------------------------------------------------------------------------------

  const COMPACT_COPIES := 8

  /** reserveCompactionTranscript: the size to shrink back to, if there was room to grow. */
  method ReserveTranscript(reservation: BodyReservation, bodyBytes: int) returns (previous: Option<int>)
    requires !reservation.released && 0 <= reservation.bytes
    modifies reservation`bytes, reservation.budget
    ensures var cost := RequestBodyCost(bodyBytes, COMPACT_COPIES);
            && (previous.Some? ==> (previous.value == old(reservation.bytes) && cost.Some? &&
                                    reservation.bytes == if cost.value > previous.value then cost.value
                                      else previous.value))
            && (previous.None? ==> reservation.bytes == old(reservation.bytes))
            && (previous.Some? <==>
                  cost.Some? && (cost.value <= old(reservation.bytes) ||
                                 (cost.value - old(reservation.bytes) <= reservation.limit &&
                                  cost.value <= reservation.limit - old(reservation.budget.used - reservation.bytes))))
    ensures reservation.budget.used - reservation.bytes == old(reservation.budget.used - reservation.bytes)
  {
    var cost := RequestBodyCost(bodyBytes, COMPACT_COPIES);
    var before := reservation.bytes;
    if cost.None? { return Option.None; }
    var ok := reservation.Grow(cost.value);
    previous := if ok then Some(before) else Option.None;
  }

  /**
   Grown for a transcript and shrunk after it, whatever the others do between, the reservation
   is as before; released then, it holds nothing.
   */
  method TranscriptThenRelease(reservation: BodyReservation, bodyBytes: int, others: nat, later: nat)
      returns (reserved: bool)
    requires !reservation.released && 0 <= reservation.bytes && reservation.budget.used == later + reservation.bytes
    modifies reservation, reservation.budget
    ensures reservation.bytes == old(reservation.bytes) && reservation.released
    ensures reservation.budget.used == if reserved then others else later
  {
    var previous := ReserveTranscript(reservation, bodyBytes);
    reserved := previous.Some?;
    if reserved {
      reservation.budget.Meanwhile(others, reservation.bytes);
      reservation.Resize(previous.value);
    }
    reservation.Release();
  }
}
