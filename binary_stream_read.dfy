/** Reading one tagged block of an OSKAR binary file
    (oskar_binary_stream_read): the checks on the arguments, the tag-index
    lookup, the buffer-size check, then a seek to the block and a read of
    the block into the caller's buffer. The file is its sequence of bytes
    and the stream a position in it. */
module BinaryStreamRead {
  import opened Common

  newtype byte = x: int | 0 <= x < 256

  /** The platform sizes of the two typed reads. */
  const SizeOfDouble: nat := 8
  const SizeOfInt: nat := 4

  /** A tag names a block: its group id, two user ids and its data type. */
  datatype Tag = Tag(id: byte, idUser1: byte, idUser2: byte, dataType: Precision)

  /** Where a block's payload lies in the file. */
  datatype Block = Block(size: nat, offset: int)

  /** The tag index of a file, a partial map from tags to blocks; a tag
      that is not in the map is not found. */
  type TagIndex = map<Tag, Block>

  /** The bytes a read of count bytes from position gets: the file's
      bytes from position on, at most count of them. */
  function Available(contents: seq<byte>, position: int, count: nat): (r: seq<byte>)
    requires position >= 0
    ensures |r| <= count
    ensures position + |r| <= |contents| || |r| == 0
    ensures |r| == count <==> position + count <= |contents| || count == 0
    ensures forall i :: 0 <= i < |r| ==> r[i] == contents[position + i]
  {
    if position >= |contents| then [] else contents[position..Min(position + count, |contents|)]
  }

  /** An open file stream: the file's bytes and the current position. */
  class Stream {
    const contents: seq<byte>
    var position: int

    constructor (contents: seq<byte>)
      ensures this.contents == contents && position == 0
    {
      this.contents := contents;
      position := 0;
    }

    /** fseek(stream, offset, SEEK_SET): a negative position is refused;
        any other position, also past the end, is taken. */
    method Seek(offset: int) returns (ok: bool)
      modifies this
      ensures ok <==> offset >= 0
      ensures ok ==> position == offset
      ensures !ok ==> unchanged(this)
    {
      if offset < 0 {
        return false;
      }
      position := offset;
      return true;
    }

    /** fread(data, 1, count, stream): copies the available bytes into
        data[0 ..], leaves the rest of data alone, moves the position past
        them and returns how many there were. */
    method Read(data: array<byte>, count: nat) returns (n: nat)
      requires position >= 0 && count <= data.Length
      modifies this, data
      ensures n == |Available(contents, old(position), count)|
      ensures data[..n] == Available(contents, old(position), count)
      ensures data[n..] == old(data[n..])
      ensures position == old(position) + n
    {
      ghost var got := Available(contents, position, count);
      n := 0;
      while n < count && position + n < |contents|
        invariant 0 <= n <= |got|
        invariant position == old(position)
        invariant data[..n] == got[..n]
        invariant data[n..] == old(data[n..])
      {
        data[n] := contents[position + n];
        n := n + 1;
      }
      position := position + n;
    }
  }

  /** oskar_binary_stream_read: a missing stream, index or buffer is an
      invalid argument; a tag the index does not hold is not found; a
      buffer smaller than the block is refused before anything is read; a
      failed seek or a short read is a file error. On success the first
      block-size bytes of the buffer are the block's bytes. */
  method ReadBlock(stream: Stream?, index: Option<TagIndex>, tag: Tag, dataSize: nat, data: array?<byte>)
    returns (err: Status)
    requires data != null ==> dataSize <= data.Length
    requires stream != null ==> stream.position >= 0
    modifies stream, data
    ensures stream == null || index.None? || data == null ==>
      err == InvalidArgument && (stream != null ==> unchanged(stream)) && (data != null ==> unchanged(data))
    ensures stream != null && index.Some? && data != null && tag !in index.value ==>
      err == BinaryTagNotFound && unchanged(stream) && unchanged(data)
    ensures stream != null && index.Some? && data != null && tag in index.value ==>
      var b := index.value[tag];
      && (dataSize < b.size ==> err == MemoryNotAllocated && unchanged(stream) && unchanged(data))
      && (b.size <= dataSize && b.offset < 0 ==> err == FileIO && unchanged(stream) && unchanged(data))
      && (b.size <= dataSize && b.offset >= 0 ==>
            var got := Available(stream.contents, b.offset, b.size);
            && data[..|got|] == got
            && data[|got|..] == old(data[|got|..])
            && stream.position == b.offset + |got|
            && (err == Success <==> |got| == b.size)
            && (err != Success ==> err == FileIO))
  {
    if stream == null || index.None? || data == null {
      return InvalidArgument;
    }
    if tag !in index.value {
      return BinaryTagNotFound;
    }
    var b := index.value[tag];
    if dataSize < b.size {
      return MemoryNotAllocated;
    }
    var ok := stream.Seek(b.offset);
    if !ok {
      return FileIO;
    }
    var n := stream.Read(data, b.size);
    if n != b.size {
      return FileIO;
    }
    return Success;
  }

  /** A successful read puts exactly the file's bytes of the block, which
      lies wholly inside the file, at the start of the buffer. */
  lemma SuccessfulReadIsBlock(contents: seq<byte>, b: Block, got: seq<byte>, buffer: seq<byte>)
    requires b.offset >= 0 && got == Available(contents, b.offset, b.size) && |got| == b.size
    requires |got| <= |buffer| && buffer[..|got|] == got && b.size > 0
    ensures b.offset + b.size <= |contents|
    ensures buffer[..b.size] == contents[b.offset..b.offset + b.size]
  {
  }

  /** The buffer holds block b, which fits in limit bytes and lies inside
      the file. */
  predicate HoldsBlock(contents: seq<byte>, b: Block, limit: nat, buffer: seq<byte>)
  {
    && b.offset >= 0 && b.size <= limit && b.size <= |buffer|
    && (b.size > 0 ==> b.offset + b.size <= |contents| && buffer[..b.size] == contents[b.offset..b.offset + b.size])
  }

  /** oskar_binary_stream_read_double: the block of the tag with the double
      data type, read into a buffer of the size of a double. */
  method ReadDouble(stream: Stream?, index: Option<TagIndex>, id: byte, idUser1: byte, idUser2: byte, value: array?<byte>)
    returns (err: Status)
    requires value != null ==> value.Length == SizeOfDouble
    requires stream != null ==> stream.position >= 0
    modifies stream, value
    ensures stream != null && index.Some? && value != null && err == Success ==>
      Tag(id, idUser1, idUser2, Double) in index.value &&
      HoldsBlock(stream.contents, index.value[Tag(id, idUser1, idUser2, Double)], SizeOfDouble, value[..])
    ensures stream != null && index.Some? && value != null ==>
      (Tag(id, idUser1, idUser2, Double) in index.value && index.value[Tag(id, idUser1, idUser2, Double)].size > SizeOfDouble
       ==> err == MemoryNotAllocated && unchanged(value))
  {
    err := ReadBlock(stream, index, Tag(id, idUser1, idUser2, Double), SizeOfDouble, value);
    var tag := Tag(id, idUser1, idUser2, Double);
    if stream != null && index.Some? && value != null && err == Success && index.value[tag].size > 0 {
      var b := index.value[tag];
      SuccessfulReadIsBlock(stream.contents, b, Available(stream.contents, b.offset, b.size), value[..]);
    }
  }

  /** oskar_binary_stream_read_int: the same for the int data type and the
      size of an int. */
  method ReadInt(stream: Stream?, index: Option<TagIndex>, id: byte, idUser1: byte, idUser2: byte, value: array?<byte>)
    returns (err: Status)
    requires value != null ==> value.Length == SizeOfInt
    requires stream != null ==> stream.position >= 0
    modifies stream, value
    ensures stream != null && index.Some? && value != null && err == Success ==>
      Tag(id, idUser1, idUser2, Int) in index.value &&
      HoldsBlock(stream.contents, index.value[Tag(id, idUser1, idUser2, Int)], SizeOfInt, value[..])
    ensures stream != null && index.Some? && value != null ==>
      (Tag(id, idUser1, idUser2, Int) in index.value && index.value[Tag(id, idUser1, idUser2, Int)].size > SizeOfInt
       ==> err == MemoryNotAllocated && unchanged(value))
  {
    err := ReadBlock(stream, index, Tag(id, idUser1, idUser2, Int), SizeOfInt, value);
    var tag := Tag(id, idUser1, idUser2, Int);
    if stream != null && index.Some? && value != null && err == Success && index.value[tag].size > 0 {
      var b := index.value[tag];
      SuccessfulReadIsBlock(stream.contents, b, Available(stream.contents, b.offset, b.size), value[..]);
    }
  }
}
