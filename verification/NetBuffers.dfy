/** The growable connection buffer: a vector with a reserved front, a read index and a write
    index. The class refines a plain byte sequence, `Contents()`. */
module NetBuffers {
  import opened Wire

  const PREPEND: nat := 8
  const INIT_SIZE: nat := 1024
  const EXTRA: nat := 65536

  function Max(a: int, b: int): int {
    if a < b then b else a
  }

  /** What readv reports: an errno, or the bytes it scattered. */
  datatype ReadResult = Failed(errno: int) | Received(bytes: seq<byte>)

  class Buffer {
    var buffer: array<byte>
    var reader: nat
    var writer: nat
    ghost var baseline: nat  // the size asked for at construction
    ghost var peak: nat      // the most readable bytes ever held

    predicate Indexed()
      reads this
    {
      PREPEND <= buffer.Length && reader <= writer <= buffer.Length
    }

    /** The storage never outgrows twice the peak demand. */
    ghost predicate Valid()
      reads this
    {
      && Indexed()
      && writer - reader <= peak
      && buffer.Length <= Max(PREPEND + baseline, 2 * peak + 7)
    }

    ghost function Contents(): seq<byte>
      requires Indexed()
      reads this, buffer
    {
      buffer[reader..writer]
    }

    constructor (initialSize: nat := INIT_SIZE)
      ensures Valid() && fresh(buffer) && Contents() == []
      ensures baseline == initialSize && peak == 0 && buffer.Length == PREPEND + initialSize
      ensures PrependableBytes() == PREPEND
    {
      buffer := new byte[PREPEND + initialSize];
      reader, writer := PREPEND, PREPEND;
      baseline, peak := initialSize, 0;
    }

    method Swap(rhs: Buffer)
      requires Valid() && rhs.Valid()
      modifies this, rhs
      ensures Valid() && rhs.Valid()
      ensures Contents() == old(rhs.Contents()) && rhs.Contents() == old(Contents())
      ensures buffer == old(rhs.buffer) && rhs.buffer == old(buffer)
    {
      buffer, rhs.buffer := rhs.buffer, buffer;
      reader, rhs.reader := rhs.reader, reader;
      writer, rhs.writer := rhs.writer, writer;
      ghost var b, p := baseline, peak;
      baseline, peak := rhs.baseline, rhs.peak;
      rhs.baseline, rhs.peak := b, p;
    }

    function ReadableBytes(): int
      reads this
    {
      writer - reader
    }

    function WriteableBytes(): int
      reads this
    {
      buffer.Length - writer
    }

    function PrependableBytes(): int
      reads this
    {
      reader
    }

    method Retrieve(len: nat)
      requires Valid() && len <= ReadableBytes()
      modifies this
      ensures Valid() && buffer == old(buffer) && baseline == old(baseline) && peak == old(peak)
      ensures Contents() == old(Contents())[len..]
      ensures reader == if len < old(ReadableBytes()) then old(reader) + len else PREPEND
    {
      if len < ReadableBytes() {
        reader := reader + len;
      } else {
        RetrieveAll();
      }
    }

    method RetrieveAll()
      requires Indexed()
      modifies this
      ensures old(Valid()) ==> Valid()
      ensures Indexed() && buffer == old(buffer) && baseline == old(baseline) && peak == old(peak)
      ensures Contents() == [] && PrependableBytes() == PREPEND
    {
      reader := PREPEND;
      writer := PREPEND;
    }

    method RetrieveAsString(len: nat) returns (result: seq<byte>)
      requires Valid() && len <= ReadableBytes()
      modifies this
      ensures Valid() && buffer == old(buffer) && baseline == old(baseline) && peak == old(peak)
      ensures result == old(Contents())[..len] && Contents() == old(Contents())[len..]
    {
      result := buffer[reader..reader + len];
      Retrieve(len);
    }

    method Append(data: seq<byte>)
      requires Valid()
      modifies this, buffer
      ensures Valid() && (buffer == old(buffer) || fresh(buffer)) && baseline == old(baseline)
      ensures Contents() == old(Contents()) + data
      ensures peak == Max(old(peak), |Contents()|)
      ensures reader == (if old(Compacts(|data|)) then PREPEND else old(reader))
      ensures old(WriteableBytes()) >= |data| ==> buffer == old(buffer)
    {
      EnsureWritableBytes(|data|);
      Place(data);
      HasWritten(|data|);
    }

    /** Bytes stored after the write index, by std::copy or by the kernel. */
    method Place(data: seq<byte>)
      requires Indexed() && |data| <= WriteableBytes()
      modifies buffer
      ensures Contents() == old(Contents())
      ensures buffer[writer..writer + |data|] == data
    {
      forall k | 0 <= k < |data| {
        buffer[writer + k] := data[k];
      }
    }

    /** Claims bytes already placed after the write index. */
    method HasWritten(len: nat)
      requires Indexed() && len <= WriteableBytes()
      requires buffer.Length <= Max(PREPEND + baseline, 2 * Max(peak, ReadableBytes() + len) + 7)
      requires ReadableBytes() <= peak
      modifies this
      ensures Valid() && buffer == old(buffer) && baseline == old(baseline)
      ensures reader == old(reader) && writer == old(writer) + len
      ensures peak == Max(old(peak), ReadableBytes())
      ensures Contents() == old(Contents()) + old(buffer[writer..writer + len])
    {
      assert buffer[reader..writer + len] == buffer[reader..writer] + buffer[writer..writer + len];
      writer := writer + len;
      peak := Max(peak, writer - reader);
    }

    /** Between this call and the matching write the size is already bounded by the demand the
        write is about to create. */
    method EnsureWritableBytes(len: nat)
      requires Valid()
      modifies this, buffer
      ensures Indexed() && WriteableBytes() >= len && (buffer == old(buffer) || fresh(buffer))
      ensures Contents() == old(Contents())
      ensures baseline == old(baseline) && peak == old(peak)
      ensures buffer.Length <= Max(PREPEND + baseline, 2 * Max(peak, ReadableBytes() + len) + 7)
      ensures reader == if old(Compacts(len)) then PREPEND else old(reader)
      ensures old(WriteableBytes()) >= len ==> buffer == old(buffer)
    {
      if WriteableBytes() < len {
        MakeSpace(len);
      }
    }

    /** Whether room for `len` more bytes is found by moving the readable bytes to the front. */
    predicate Compacts(len: nat)
      reads this
    {
      WriteableBytes() < len && WriteableBytes() + PrependableBytes() >= len + PREPEND
    }

    method MakeSpace(len: nat)
      requires Valid() && WriteableBytes() < len
      modifies this, buffer
      ensures Indexed() && WriteableBytes() >= len && (buffer == old(buffer) || fresh(buffer))
      ensures Contents() == old(Contents())
      ensures baseline == old(baseline) && peak == old(peak)
      ensures buffer.Length <= Max(PREPEND + baseline, 2 * Max(peak, ReadableBytes() + len) + 7)
      ensures reader == if old(Compacts(len)) then PREPEND else old(reader)
    {
      if WriteableBytes() + PrependableBytes() < len + PREPEND {
        Resize(writer + len);
      } else {
        assert PREPEND < reader;
        var readable := ReadableBytes();
        CopyDown(reader, writer, PREPEND);
        reader := PREPEND;
        writer := reader + readable;
        assert readable == ReadableBytes();
      }
    }

    /** std::copy to an overlapping, lower destination: front to back, so each byte is read
        before it is overwritten. */
    method CopyDown(first: nat, last: nat, dest: nat)
      requires dest <= first <= last <= buffer.Length
      modifies buffer
      ensures buffer[dest..dest + (last - first)] == old(buffer[first..last])
    {
      var i := 0;
      while i < last - first
        invariant 0 <= i <= last - first
        invariant buffer[dest..dest + i] == old(buffer[first..first + i])
        invariant forall k :: dest + i <= k < buffer.Length ==> buffer[k] == old(buffer[k])
      {
        buffer[dest + i] := buffer[first + i];
        i := i + 1;
      }
    }

    /** vector::resize: a fresh block, the common prefix copied, the rest zero. */
    method Resize(size: nat)
      modifies this
      ensures fresh(buffer) && buffer.Length == size
      ensures reader == old(reader) && writer == old(writer) && baseline == old(baseline) && peak == old(peak)
      ensures forall k :: 0 <= k < size ==> buffer[k] == if k < old(buffer.Length) then old(buffer[k]) else 0
    {
      var block := new byte[size] (k requires 0 <= k < size reads this, buffer =>
        if k < buffer.Length then buffer[k] else 0);
      buffer := block;
    }

    method Prepend(data: seq<byte>)
      requires Valid() && |data| <= PrependableBytes()
      modifies this, buffer
      ensures Valid() && buffer == old(buffer) && baseline == old(baseline)
      ensures Contents() == data + old(Contents())
      ensures PrependableBytes() == old(PrependableBytes()) - |data|
      ensures peak == Max(old(peak), |Contents()|)
    {
      reader := reader - |data|;
      forall k | 0 <= k < |data| {
        buffer[reader + k] := data[k];
      }
      peak := Max(peak, writer - reader);
    }

    /** Two-segment scatter read: the free tail first, a stack block for the overflow. */
    method ReadFd(result: ReadResult) returns (n: int, savedErrno: int)
      requires Valid()
      requires result.Received? ==>
                 |result.bytes| <= WriteableBytes() + if WriteableBytes() < EXTRA then EXTRA else 0
      modifies this, buffer
      ensures Valid() && (buffer == old(buffer) || fresh(buffer)) && baseline == old(baseline)
      ensures result.Received? ==> n == |result.bytes| && Contents() == old(Contents()) + result.bytes
      ensures result.Failed? ==> n == -1 && savedErrno == result.errno && Contents() == old(Contents())
      ensures peak == Max(old(peak), |Contents()|)
    {
      savedErrno := 0;
      var writable := WriteableBytes();
      match result {
        case Failed(e) =>
          n := -1;
          savedErrno := e;
        case Received(bytes) =>
          n := |bytes|;
          if n <= writable {
            Place(bytes);
            HasWritten(n);
          } else {
            Overflow(bytes, writable);
          }
      }
    }

    /** More than the free tail arrived: the tail is full and the rest sits in the stack block. */
    method Overflow(bytes: seq<byte>, writable: nat)
      requires Valid() && writable == WriteableBytes() < |bytes|
      modifies this, buffer
      ensures Valid() && (buffer == old(buffer) || fresh(buffer)) && baseline == old(baseline)
      ensures Contents() == old(Contents()) + bytes
      ensures peak == Max(old(peak), |Contents()|)
    {
      var extrabuf := bytes[writable..];
      Place(bytes[..writable]);
      HasWritten(writable);
      assert Contents() == old(Contents()) + bytes[..writable];
      Append(extrabuf);
      assert bytes == bytes[..writable] + extrabuf;
    }

    // ---- Integers in network order ----

    method AppendInt(x: int, w: nat)
      requires Valid() && IsWidth(w) && Fits(x, w)
      modifies this, buffer
      ensures Valid() && (buffer == old(buffer) || fresh(buffer)) && baseline == old(baseline)
      ensures Contents() == old(Contents()) + Encode(x, w)
      ensures NetworkOrder(Contents()[|old(Contents())|..], x)
      ensures peak == Max(old(peak), |Contents()|)
    {
      hide Encode, NetworkOrder;
      ByteOrder(x, w);
      Append(Encode(x, w));
      assert Contents()[|old(Contents())|..] == Encode(x, w);
    }

    method PrependInt(x: int, w: nat)
      requires Valid() && IsWidth(w) && Fits(x, w) && w <= PrependableBytes()
      modifies this, buffer
      ensures Valid() && buffer == old(buffer) && baseline == old(baseline)
      ensures Contents() == Encode(x, w) + old(Contents())
      ensures w <= |Contents()| && NetworkOrder(Contents()[..w], x)
      ensures peak == Max(old(peak), |Contents()|)
    {
      hide Encode, NetworkOrder;
      ByteOrder(x, w);
      Prepend(Encode(x, w));
      assert Contents()[..w] == Encode(x, w);
    }

    /** Reading undoes any earlier append or prepend of the same width, for every value. */
    method ReadInt(w: nat) returns (x: int)
      requires Valid() && IsWidth(w) && w <= ReadableBytes()
      modifies this
      ensures Valid() && buffer == old(buffer) && baseline == old(baseline) && peak == old(peak)
      ensures Fits(x, w) && old(Contents()) == Encode(x, w) + Contents()
      ensures w <= |old(Contents())| && NetworkOrder(old(Contents())[..w], x)
    {
      hide Encode, Decode, NetworkOrder;
      x := Decode(buffer[reader..reader + w]);
      EncodeDecode(buffer[reader..reader + w]);
      assert Contents()[w..] == buffer[reader + w..writer];
      assert Contents() == buffer[reader..reader + w] + buffer[reader + w..writer];
      ByteOrder(x, w);
      assert Contents()[..w] == Encode(x, w);
      Retrieve(w);
    }

    // ---- Operations whose own asserts do not protect the indices ----

    /** Reserves, then cuts the storage. Sound exactly when the cut falls beyond the write index. */
    method Shrink(reserve: nat)
      requires Valid()
      modifies this, buffer
      ensures Valid() <==> old(ShrinkSafe(reserve))
      ensures old(ShrinkSafe(reserve)) ==> Contents() == old(Contents())
      ensures buffer.Length == old(ReadableBytes()) + reserve + INIT_SIZE
    {
      var readable := ReadableBytes();
      EnsureWritableBytes(readable + reserve);
      ghost var was := Contents();
      Resize(readable + reserve + INIT_SIZE);
      baseline := buffer.Length - PREPEND;
      if writer <= buffer.Length {
        assert Contents() == was;
      }
    }

    predicate ShrinkSafe(reserve: nat)
      requires Indexed()
      reads this
    {
      Compacts(ReadableBytes() + reserve) || PrependableBytes() <= reserve + INIT_SIZE
    }

    /** Takes back written bytes. The source bounds `len` by the free space after the write index;
        the operation is sound exactly when `len` is within the readable bytes. The index is an
        unsigned machine word. */
    method Unwrite(len: nat)
      requires Valid() && len <= WriteableBytes()
      requires buffer.Length < 0x8000_0000_0000_0000
      modifies this
      ensures Valid() <==> len <= old(ReadableBytes())
      ensures len <= old(ReadableBytes()) ==> Contents() == old(Contents())[..old(ReadableBytes()) - len]
    {
      var was := writer;
      writer := (was - len) % 0x1_0000_0000_0000_0000;
      if len <= was {
        assert writer == was - len;
      } else {
        assert writer == was - len + 0x1_0000_0000_0000_0000;
      }
    }

    /** Cut off: 1000 bytes wait behind 2000 that were read, and the new end falls before them. */
    static method ShrinkBreaks() returns (b: Buffer)
      ensures fresh(b) && !b.Valid()
    {
      b := new Buffer(4096);
      b.Append(seq(3000, _ => 0));
      b.Retrieve(2000);
      b.Shrink(0);
    }

    /** Ten bytes were written and eleven are taken back, which the source's assert lets through. */
    static method UnwriteBreaks() returns (b: Buffer)
      ensures fresh(b) && !b.Valid()
    {
      b := new Buffer();
      b.Append(seq(10, _ => 0));
      b.Unwrite(11);
    }
  }
}
