/**
 * The per-thread buffers of a receive channel endpoint: one allocation holding a status
 * message (SM) frame followed by a NAK frame, each exposed as a slice of the allocation.
 */
module ThreadLocals {
  import opened Numbers

  /** Length of a CPU cache line, to which the allocation is padded. */
  const CACHE_LINE_LENGTH: int := 64

  /** Alignment of the NAK frame inside the allocation. */
  const NAK_FRAME_ALIGNMENT: int := 32

  /** Fixed header lengths of the two frames; their values belong to the protocol codecs. */
  const SM_HEADER_LENGTH: PosInt
  const NAK_HEADER_LENGTH: PosInt

  /** Header field values shared with every other frame of the protocol. */
  const CURRENT_VERSION: bv8
  const HDR_TYPE_SM: bv16
  const HDR_TYPE_NAK: bv16

  predicate IsPowerOfTwo(n: int)
    decreases if n > 0 then n else 0
  {
    n == 1 || (n > 1 && n % 2 == 0 && IsPowerOfTwo(n / 2))
  }

  /**
   * Round value up to the next multiple of alignment, which must be a power of two. The
   * source computes this with a mask; here it is the arithmetic rounding it stands for.
   */
  function Align(value: int, alignment: int): (r: int)
    requires IsPowerOfTwo(alignment)
    ensures r % alignment == 0
    ensures value <= r < value + alignment
  {
    var q := (value + alignment - 1) / alignment;
    MultipleOf(q, alignment);
    q * alignment
  }

  lemma MulAtLeast(k: int, a: int)
    requires k >= 1 && a > 0
    ensures k * a >= a
  {
    assert (k - 1) * a >= 0;
  }

  lemma MulAtMost(k: int, a: int)
    requires k <= -1 && a > 0
    ensures k * a <= -a
  {
    MulAtLeast(-k, a);
    assert k * a == -((-k) * a);
  }

  /** Euclidean division has one quotient and one remainder. */
  lemma DivModUnique(x: int, a: int, d: int, r: int)
    requires a > 0 && x == d * a + r && 0 <= r < a
    ensures x / a == d && x % a == r
  {
    var d', r' := x / a, x % a;
    assert x == d' * a + r';
    assert (d - d') * a == r' - r;
    if d - d' >= 1 {
      MulAtLeast(d - d', a);
    } else if d - d' <= -1 {
      MulAtMost(d - d', a);
    }
  }

  lemma MultipleOf(q: int, a: int)
    requires a > 0
    ensures (q * a) % a == 0 && (q * a) / a == q
  {
    DivModUnique(q * a, a, q, 0);
  }

  /** Align yields the least multiple of the alignment at or above the value. */
  lemma AlignIsLeast(value: int, alignment: int, m: int)
    requires IsPowerOfTwo(alignment)
    requires m % alignment == 0 && value <= m
    ensures Align(value, alignment) <= m
  {
    var a := alignment;
    var q := (value + a - 1) / a;
    var k := m / a;
    assert m == k * a;
    if k < q {
      MulAtLeast(q - k, a);
      assert q * a - k * a == (q - k) * a;
    }
  }

  /** A multiple of a multiple of fine is a multiple of fine. */
  lemma MultipleOfMultiple(c: int, coarse: int, fine: int)
    requires coarse > 0 && fine > 0
    requires c % coarse == 0 && coarse % fine == 0
    ensures c % fine == 0
  {
    var k, l := c / coarse, coarse / fine;
    assert c == k * coarse;
    assert coarse == l * fine;
    MulAssociates(k, l, fine);
    MultipleOf(k * l, fine);
  }

  lemma MulAssociates(k: int, l: int, f: int)
    ensures k * (l * f) == (k * l) * f
  {
  }

  /** Aligning to a coarser alignment never lands below aligning to a finer one. */
  lemma AlignCoarserIsLarger(value: int, fine: int, coarse: int)
    requires IsPowerOfTwo(fine) && IsPowerOfTwo(coarse)
    requires coarse % fine == 0
    ensures Align(value, fine) <= Align(value, coarse)
  {
    var c := Align(value, coarse);
    MultipleOfMultiple(c, coarse, fine);
    AlignIsLeast(value, fine, c);
  }

  /** Bytes of the SM frame: its header followed by the application specific feedback. */
  function SmLength(feedbackLength: nat): (r: int)
    ensures feedbackLength < r
  {
    SM_HEADER_LENGTH + feedbackLength
  }

  /** Bytes allocated: each frame rounded up to whole cache lines. */
  function BufferLength(feedbackLength: nat): (r: int)
    ensures r % CACHE_LINE_LENGTH == 0
    ensures SmLength(feedbackLength) + NAK_HEADER_LENGTH <= r
  {
    assert IsPowerOfTwo(CACHE_LINE_LENGTH);
    Align(SmLength(feedbackLength), CACHE_LINE_LENGTH) + Align(NAK_HEADER_LENGTH, CACHE_LINE_LENGTH)
  }

  /** Where the NAK frame starts: the end of the SM frame rounded up to 32 bytes. */
  function NakMessageOffset(feedbackLength: nat): (r: int)
    ensures r % NAK_FRAME_ALIGNMENT == 0
    ensures SmLength(feedbackLength) <= r < SmLength(feedbackLength) + NAK_FRAME_ALIGNMENT
  {
    assert IsPowerOfTwo(NAK_FRAME_ALIGNMENT);
    Align(SmLength(feedbackLength), NAK_FRAME_ALIGNMENT)
  }

  /**
   * The layout is sound for every feedback length: the SM frame [0, smLength) and the NAK
   * frame [nakOffset, nakOffset + NAK_HEADER_LENGTH) are disjoint, the NAK frame is 32-byte
   * aligned and no further than 31 bytes past the SM frame, both fit in the allocation, and
   * the allocation is a whole number of cache lines.
   */
  lemma {:induction false} LayoutIsSound(feedbackLength: nat)
    ensures 0 < SmLength(feedbackLength) <= NakMessageOffset(feedbackLength)
    ensures NakMessageOffset(feedbackLength) % NAK_FRAME_ALIGNMENT == 0
    ensures NakMessageOffset(feedbackLength) < SmLength(feedbackLength) + NAK_FRAME_ALIGNMENT
    ensures NakMessageOffset(feedbackLength) + NAK_HEADER_LENGTH <= BufferLength(feedbackLength)
    ensures BufferLength(feedbackLength) % CACHE_LINE_LENGTH == 0
  {
    var sm := SmLength(feedbackLength);
    assert IsPowerOfTwo(NAK_FRAME_ALIGNMENT) && IsPowerOfTwo(CACHE_LINE_LENGTH);
    AlignCoarserIsLarger(sm, NAK_FRAME_ALIGNMENT, CACHE_LINE_LENGTH);
    var x, y := Align(sm, CACHE_LINE_LENGTH), Align(NAK_HEADER_LENGTH, CACHE_LINE_LENGTH);
    var i, j := x / CACHE_LINE_LENGTH, y / CACHE_LINE_LENGTH;
    assert x == i * CACHE_LINE_LENGTH && y == j * CACHE_LINE_LENGTH;
    assert x + y == (i + j) * CACHE_LINE_LENGTH;
    MultipleOf(i + j, CACHE_LINE_LENGTH);
  }

  /**
   * The receiver id: the exclusive or of the two 64-bit halves of a random UUID. Either half
   * is recovered from the id and the other half.
   */
  function ReceiverId(mostSignificantBits: bv64, leastSignificantBits: bv64): (r: bv64)
    ensures r ^ leastSignificantBits == mostSignificantBits
    ensures r ^ mostSignificantBits == leastSignificantBits
  {
    mostSignificantBits ^ leastSignificantBits
  }

  /** A slice of the allocation: its start and its length in bytes. */
  datatype Region = Region(offset: int, length: int)
  {
    predicate Within(capacity: int)
    {
      0 <= offset && 0 <= length && offset + length <= capacity
    }
  }

  predicate Disjoint(r: Region, s: Region)
  {
    r.offset + r.length <= s.offset || s.offset + s.length <= r.offset
  }

  /** The header fields written through the status message flyweight. */
  datatype StatusMessageHeader = StatusMessageHeader(
    frameLength: int, version: bv8, headerType: bv16, receiverId: bv64, feedback: seq<bv8>)

  /** The header fields written through the NAK flyweight. */
  datatype NakHeader = NakHeader(frameLength: int, version: bv8, headerType: bv16)

  /** A fresh buffer's fields are zero. */
  const BLANK_SM := StatusMessageHeader(0, 0, 0, 0, [])
  const BLANK_NAK := NakHeader(0, 0, 0)

  /**
   * The position and limit of a java.nio buffer over a fixed capacity; the bytes are not
   * modelled. Offsets are relative to the allocation, whose own position starts at zero.
   */
  class ByteBuffer {
    const capacity: nat
    var position: nat
    var limit: nat

    ghost predicate Valid()
      reads this
    {
      position <= limit <= capacity
    }

    constructor (capacity: nat)
      ensures Valid()
      ensures this.capacity == capacity && position == 0 && limit == capacity
    {
      this.capacity := capacity;
      position := 0;
      limit := capacity;
    }

    /** limit(newLimit): a limit beyond the capacity is refused; the position is pulled back to it. */
    method SetLimit(newLimit: nat)
      requires Valid()
      requires newLimit <= capacity
      modifies this
      ensures Valid()
      ensures limit == newLimit
      ensures position == if old(position) > newLimit then newLimit else old(position)
    {
      limit := newLimit;
      if position > newLimit {
        position := newLimit;
      }
    }

    /** position(newPosition): a position beyond the limit is refused. */
    method SetPosition(newPosition: nat)
      requires Valid()
      requires newPosition <= limit
      modifies this
      ensures Valid()
      ensures position == newPosition && limit == old(limit)
    {
      position := newPosition;
    }

    /** slice(): a view of the bytes between the position and the limit. */
    method Slice() returns (r: Region)
      requires Valid()
      ensures r.Within(capacity)
      ensures r.offset == position && r.offset + r.length == limit
    {
      r := Region(position, limit - position);
    }
  }

  class ReceiveChannelEndpointThreadLocals {
    const capacity: int
    const smBuffer: Region
    const nakBuffer: Region
    const statusMessage: StatusMessageHeader
    const nak: NakHeader

    /**
     * feedback is the configured application specific feedback; the two halves stand for
     * the random UUID the receiver id is drawn from.
     */
    constructor (feedback: seq<bv8>, mostSignificantBits: bv64, leastSignificantBits: bv64)
      ensures capacity == BufferLength(|feedback|) && capacity % CACHE_LINE_LENGTH == 0
      ensures smBuffer == Region(0, SmLength(|feedback|))
      ensures nakBuffer == Region(NakMessageOffset(|feedback|), NAK_HEADER_LENGTH)
      ensures nakBuffer.offset % NAK_FRAME_ALIGNMENT == 0
      ensures smBuffer.Within(capacity) && nakBuffer.Within(capacity) && Disjoint(smBuffer, nakBuffer)
      ensures statusMessage.frameLength == smBuffer.length == SM_HEADER_LENGTH + |feedback|
      ensures statusMessage.version == CURRENT_VERSION && statusMessage.headerType == HDR_TYPE_SM
      ensures statusMessage.receiverId == ReceiverId(mostSignificantBits, leastSignificantBits)
      ensures statusMessage.feedback == feedback
      ensures nak == NakHeader(NAK_HEADER_LENGTH, CURRENT_VERSION, HDR_TYPE_NAK)
      ensures nak.frameLength == nakBuffer.length
    {
      var smLength := SmLength(|feedback|);
      var bufferLength := BufferLength(|feedback|);
      LayoutIsSound(|feedback|);
      var receiverId := ReceiverId(mostSignificantBits, leastSignificantBits);

      var byteBuffer := new ByteBuffer(bufferLength);
      byteBuffer.SetLimit(smLength);
      var sm := byteBuffer.Slice();

      var nakMessageOffset := NakMessageOffset(|feedback|);
      byteBuffer.SetLimit(nakMessageOffset + NAK_HEADER_LENGTH);
      byteBuffer.SetPosition(nakMessageOffset);
      var nakRegion := byteBuffer.Slice();

      var smHeader := BLANK_SM;
      smHeader := smHeader.(feedback := feedback);
      smHeader := smHeader.(receiverId := receiverId);
      smHeader := smHeader.(version := CURRENT_VERSION);
      smHeader := smHeader.(headerType := HDR_TYPE_SM);
      smHeader := smHeader.(frameLength := SM_HEADER_LENGTH + |feedback|);

      var nakHeader := BLANK_NAK;
      nakHeader := nakHeader.(version := CURRENT_VERSION);
      nakHeader := nakHeader.(headerType := HDR_TYPE_NAK);
      nakHeader := nakHeader.(frameLength := NAK_HEADER_LENGTH);

      capacity := bufferLength;
      smBuffer := sm;
      nakBuffer := nakRegion;
      statusMessage := smHeader;
      nak := nakHeader;
    }
  }
}
