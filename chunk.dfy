/**
 * A PNG chunk, laid out as in section 5.3 "Chunk layout" of the PNG
 * Recommendation:
 *
 *   length (u32, big-endian) | type (4 bytes) | data (length bytes) | crc (u32, big-endian)
 *
 * The crc is the CRC-32 of section 5.5 over the type bytes followed by the
 * data. This model does not define CRC-32: the codec takes it as a parameter.
 */
module Chunks {
  import opened Wrappers
  import opened ByteOrder
  import opened Text
  import opened ChunkTypes

  /** A payload small enough for its size to fit the u32 length field. */
  type Payload = s: seq<u8> | |s| < 0x1_0000_0000

  /** The checksum function: CRC-32 over the bytes it is given. */
  type Crc32 = seq<u8> -> u32

  /** The length field is not stored: it is the size of `data`. */
  datatype Chunk = Chunk(chunkType: ChunkType, data: Payload, crc: u32)

  datatype ChunkError =
    | BufferTooShort(actual: nat)
    | LengthMismatch(declared: u32, actual: nat)
    | ChecksumMismatch(declared: u32, computed: u32)
    | EncodingError

  /** Length field, type and crc field: the bytes of a chunk besides its data. */
  const FramingSize := 12

  /** The crc field holds the CRC-32 of the type bytes followed by the data. */
  predicate Valid(c: Chunk, crc32: Crc32) {
    c.crc == crc32(Bytes(c.chunkType) + c.data)
  }

  /** The wire image: big-endian length, type bytes, data, big-endian crc. */
  function AsBytes(c: Chunk): (r: seq<u8>)
    ensures |r| == FramingSize + |c.data|
  {
    ToBeBytes(|c.data|) + Bytes(c.chunkType) + c.data + ToBeBytes(c.crc)
  }

  /** The number of data bytes, which the wire image carries in its first four bytes. */
  function Length(c: Chunk): (r: u32)
    ensures r == |c.data|
    ensures r == FromBeBytes(AsBytes(c)[..4])
  {
    assert AsBytes(c)[..4] == ToBeBytes(|c.data|);
    |c.data|
  }

  /** `chunk_type()`: the tag, which the wire image carries in bytes 4 to 8. */
  function ChunkTypeOf(c: Chunk): (r: ChunkType)
    ensures Bytes(r) == AsBytes(c)[4..8]
  {
    assert AsBytes(c)[4..8] == Bytes(c.chunkType);
    c.chunkType
  }

  /** `data()`: the payload, which the wire image carries between the type and the crc. */
  function Data(c: Chunk): (r: seq<u8>)
    ensures r == AsBytes(c)[8..|AsBytes(c)| - 4]
  {
    assert AsBytes(c)[8..|AsBytes(c)| - 4] == c.data;
    c.data
  }

  /** `crc()`: the checksum, which the wire image carries in its last four bytes. */
  function Crc(c: Chunk): (r: u32)
    ensures r == FromBeBytes(AsBytes(c)[|AsBytes(c)| - 4..])
  {
    assert AsBytes(c)[|AsBytes(c)| - 4..] == ToBeBytes(c.crc);
    c.crc
  }

  /** `data_as_string()`: the payload as text, an encoding error if it is not. */
  function DataAsString(c: Chunk): (r: Result<string, ChunkError>)
    ensures r.Ok? <==> forall i | 0 <= i < |c.data| :: IsAsciiByte(c.data[i])
    ensures r.Ok? ==> forall i | 0 <= i < |r.value| :: IsAsciiChar(r.value[i])
    ensures r.Ok? ==> AsciiBytes(r.value) == c.data
    ensures r.Err? ==> r.error == EncodingError
  {
    match AsciiText(c.data)
    case Some(s) => Ok(s)
    case None => Err(EncodingError)
  }

  /**
   * `Display`: "(" + the tag's text + ", " + the data length in decimal + ")";
   * a formatting error when the tag is not text.
   */
  function Display(c: Chunk): (r: Option<string>)
    ensures r.Some? <==> ChunkTypes.Display(c.chunkType).Some?
    ensures r.Some? ==> |r.value| >= 9 && r.value[..1] == "(" && r.value[5..7] == ", "
    ensures r.Some? ==> r.value[1..5] == ChunkTypes.Display(c.chunkType).value && r.value[|r.value| - 1] == ')'
    ensures r.Some? ==>
      var n := r.value[7..|r.value| - 1];
      && (forall i | 0 <= i < |n| :: IsDigit(n[i]))
      && (|n| == 1 || n[0] != '0')
      && DecimalValue(n) == |c.data|
  {
    DecimalRoundTrip(|c.data|);
    match ChunkTypes.Display(c.chunkType)
    case None => None
    case Some(tag) =>
      var s := "(" + tag + ", " + Decimal(|c.data|) + ")";
      assert s[7..|s| - 1] == Decimal(|c.data|);
      Some(s)
  }

  /**
   * `TryFrom<&[u8]>`: parse one chunk from a buffer that holds exactly one.
   * The tag is taken as it is (its validity is only advisory); the buffer is
   * refused when it cannot hold the framing, when its size disagrees with
   * the length field, or when the crc field is not the checksum of the type
   * and data.
   */
  function Decode(buf: seq<u8>, crc32: Crc32): (r: Result<Chunk, ChunkError>)
    ensures r.Ok? <==>
      && |buf| >= FramingSize
      && FromBeBytes(buf[..4]) == |buf| - FramingSize
      && FromBeBytes(buf[|buf| - 4..]) == crc32(buf[4..|buf| - 4])
    ensures r.Ok? ==> Valid(r.value, crc32) && AsBytes(r.value) == buf
    ensures |buf| < FramingSize ==> r == Err(BufferTooShort(|buf|))
  {
    if |buf| < FramingSize then Err(BufferTooShort(|buf|))
    else
      var declared := FromBeBytes(buf[..4]);
      var tag: Tag := buf[4..8];
      if |buf| - FramingSize != declared then Err(LengthMismatch(declared, |buf| - FramingSize))
      else
        var data: Payload := buf[8..|buf| - 4];
        var declaredCrc := FromBeBytes(buf[|buf| - 4..]);
        var computed := crc32(tag + data);
        assert tag + data == buf[4..|buf| - 4];
        if declaredCrc != computed then Err(ChecksumMismatch(declaredCrc, computed))
        else
          var c := Chunk(TryFrom(tag).value, data, declaredCrc);
          FromBeBytesInverse(buf[..4]);
          FromBeBytesInverse(buf[|buf| - 4..]);
          assert AsBytes(c) == buf[..4] + tag + data + buf[|buf| - 4..];
          Ok(c)
  }

  /** Encoding a chunk whose crc is right and decoding the bytes gives the chunk back. */
  lemma EncodeThenDecode(c: Chunk, crc32: Crc32)
    requires Valid(c, crc32)
    ensures Decode(AsBytes(c), crc32) == Ok(c)
  {
    var buf := AsBytes(c);
    assert buf[..4] == ToBeBytes(|c.data|);
    assert buf[4..8] == Bytes(c.chunkType);
    assert buf[8..|buf| - 4] == c.data;
    assert buf[|buf| - 4..] == ToBeBytes(c.crc);
  }

  /** A decoded chunk encodes to the same bytes, which decode to the same chunk again. */
  lemma DecodeIsIdempotent(buf: seq<u8>, crc32: Crc32)
    requires Decode(buf, crc32).Ok?
    ensures Decode(AsBytes(Decode(buf, crc32).value), crc32) == Decode(buf, crc32)
  {
  }

  /** The crc of a decoded chunk is the checksum of its type bytes followed by its data. */
  lemma DecodedCrcIsChecksum(buf: seq<u8>, crc32: Crc32)
    requires Decode(buf, crc32).Ok?
    ensures Crc(Decode(buf, crc32).value) == crc32(Bytes(ChunkTypeOf(Decode(buf, crc32).value)) + Data(Decode(buf, crc32).value))
    ensures Length(Decode(buf, crc32).value) == FromBeBytes(buf[..4])
  {
  }

  /** Replacing the crc field of a good chunk by any other value makes decoding fail on the checksum. */
  lemma ChecksumSensitivity(c: Chunk, crc32: Crc32, wrong: u32)
    requires Valid(c, crc32) && wrong != c.crc
    ensures Decode(AsBytes(c)[..|AsBytes(c)| - 4] + ToBeBytes(wrong), crc32) == Err(ChecksumMismatch(wrong, c.crc))
  {
    var buf := AsBytes(c)[..|AsBytes(c)| - 4] + ToBeBytes(wrong);
    assert buf[..4] == ToBeBytes(|c.data|);
    assert buf[4..8] == Bytes(c.chunkType);
    assert buf[8..|buf| - 4] == c.data;
    assert buf[|buf| - 4..] == ToBeBytes(wrong);
  }

  /** A data region longer or shorter than the length field says makes decoding fail on the length. */
  lemma LengthSensitivity(c: Chunk, data: seq<u8>)
    requires |data| != |c.data|
    ensures forall crc32: Crc32 ::
      Decode(ToBeBytes(Length(c)) + Bytes(c.chunkType) + data + ToBeBytes(c.crc), crc32)
        == Err(LengthMismatch(Length(c), |data|))
  {
    var buf := ToBeBytes(Length(c)) + Bytes(c.chunkType) + data + ToBeBytes(c.crc);
    assert buf[..4] == ToBeBytes(Length(c));
  }

  /** The payload of the chunk that pngme's tests build. */
  const Message := "This is where your secret message will be!"

  /** The buffer that pngme's tests build: length 42, "RuSt", the message, then `crc`. */
  function TestBuffer(crc: u32): seq<u8> {
    ToBeBytes(42) + AsciiBytes("RuSt") + AsciiBytes(Message) + ToBeBytes(crc)
  }

  /** The chunk that buffer holds when its crc field is right. */
  function TestChunk(): (c: Chunk)
    ensures |c.data| == 42 && c.crc == 2882656334
  {
    Chunk(ChunkType(AsciiBytes("RuSt")), AsciiBytes(Message), 2882656334)
  }

  /**
   * test_valid_chunk_from_bytes, and the accessors the other chunk tests
   * check, for a checksum function that gives the crc the test states.
   */
  lemma ValidChunkFromBytes(crc32: Crc32)
    requires Valid(TestChunk(), crc32)
    ensures Decode(TestBuffer(2882656334), crc32).Ok?
    ensures var c := Decode(TestBuffer(2882656334), crc32).value;
      && Length(c) == 42
      && ChunkTypes.Display(ChunkTypeOf(c)) == Some("RuSt")
      && DataAsString(c) == Ok(Message)
      && Crc(c) == 2882656334
      && Display(c) == Some("(RuSt, 42)")
  {
    var c := TestChunk();
    assert AsBytes(c) == TestBuffer(2882656334);
    EncodeThenDecode(c, crc32);
    TestTagText();
    TestDataText();
    TestDisplay(c);
  }

  /** test_chunk_type: the test chunk's tag renders as "RuSt". */
  lemma TestTagText()
    ensures ChunkTypes.Display(TestChunk().chunkType) == Some("RuSt")
  {
    AsciiTextOfBytes("RuSt");
  }

  /** test_chunk_string: the test chunk's payload renders as the message. */
  lemma TestDataText()
    ensures DataAsString(TestChunk()) == Ok(Message)
  {
    AsciiTextOfBytes(Message);
  }

  /** test_chunk_trait_impls: a chunk tagged "RuSt" with 42 data bytes renders as "(RuSt, 42)". */
  lemma TestDisplay(c: Chunk)
    requires ChunkTypes.Display(c.chunkType) == Some("RuSt") && |c.data| == 42
    ensures Display(c) == Some("(RuSt, 42)")
  {
    assert Decimal(42) == "42";
    assert "(" + "RuSt" + ", " + "42" + ")" == "(RuSt, 42)";
  }

  /** test_invalid_chunk_from_bytes: the same buffer with crc field 2882656333 is refused. */
  lemma InvalidChunkFromBytes(crc32: Crc32)
    requires Valid(TestChunk(), crc32)
    ensures Decode(TestBuffer(2882656333), crc32) == Err(ChecksumMismatch(2882656333, 2882656334))
  {
    var c := TestChunk();
    assert AsBytes(c)[..|AsBytes(c)| - 4] + ToBeBytes(2882656333) == TestBuffer(2882656333);
    ChecksumSensitivity(c, crc32, 2882656333);
  }
}
