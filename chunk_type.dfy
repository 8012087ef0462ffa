/**
 * The 4-byte chunk type tag of the PNG format and its property bits, as laid
 * down in section 5.4 "Chunk naming conventions" of the PNG Recommendation:
 * bit 5 (value 0x20) of each byte is a flag, which for an ASCII letter is
 * the difference between upper case (bit clear) and lower case (bit set).
 */
module ChunkTypes {
  import opened Wrappers
  import opened ByteOrder
  import opened Text

  /** Rust's `[u8; 4]`. */
  type Tag = s: seq<u8> | |s| == 4 witness [0, 0, 0, 0]

  /** A chunk type; two are equal exactly when their four bytes are. */
  datatype ChunkType = ChunkType(bytes: Tag)

  datatype ChunkTypeError = ByteLengthError(actual: nat) | InvalidCharacter

  predicate IsUpperLetter(b: u8) {
    'A' as int <= b <= 'Z' as int
  }

  predicate IsLowerLetter(b: u8) {
    'a' as int <= b <= 'z' as int
  }

  /** The character class pngme accepts in a tag: `a`..`z` or `A`..`Z`. */
  predicate IsAsciiLetter(b: u8) {
    IsLowerLetter(b) || IsUpperLetter(b)
  }

  predicate AllLetters(s: seq<u8>) {
    forall i | 0 <= i < |s| :: IsAsciiLetter(s[i])
  }

  /** `b & 0x20 == 0x20`: the property bit of a tag byte is set. */
  predicate Bit5Set(b: u8) {
    (b as bv8) & 0x20 == 0x20
  }

  /** For a letter, the property bit is exactly the lower-case bit. */
  lemma LetterCaseBit(b: u8)
    requires IsAsciiLetter(b)
    ensures Bit5Set(b) <==> IsLowerLetter(b)
  {
  }

  /** The raw bytes of the tag. */
  function Bytes(t: ChunkType): (r: seq<u8>)
    ensures |r| == 4
    ensures ChunkType(r) == t
  {
    t.bytes
  }

  /** Critical (a reader must understand it) when bit 5 of byte 0 is clear. */
  function IsCritical(t: ChunkType): (r: bool)
    ensures IsAsciiLetter(t.bytes[0]) ==> (r <==> IsUpperLetter(t.bytes[0]))
  {
    !Bit5Set(t.bytes[0])
  }

  /** Public (registered) when bit 5 of byte 1 is clear. */
  function IsPublic(t: ChunkType): (r: bool)
    ensures IsAsciiLetter(t.bytes[1]) ==> (r <==> IsUpperLetter(t.bytes[1]))
  {
    !Bit5Set(t.bytes[1])
  }

  /** The reserved bit, bit 5 of byte 2, must be clear. */
  function IsReservedBitValid(t: ChunkType): (r: bool)
    ensures IsAsciiLetter(t.bytes[2]) ==> (r <==> IsUpperLetter(t.bytes[2]))
  {
    !Bit5Set(t.bytes[2])
  }

  /** Safe to copy when bit 5 of byte 3 is set. */
  function IsSafeToCopy(t: ChunkType): (r: bool)
    ensures IsAsciiLetter(t.bytes[3]) ==> (r <==> IsLowerLetter(t.bytes[3]))
  {
    Bit5Set(t.bytes[3])
  }

  /** Valid: four ASCII letters, the third one upper case. */
  function IsValid(t: ChunkType): (r: bool)
    ensures r <==> AllLetters(t.bytes) && IsUpperLetter(t.bytes[2])
  {
    AllLetters(t.bytes) && IsReservedBitValid(t)
  }

  /** `TryFrom<[u8; 4]>`: the permissive constructor, which checks nothing. */
  function TryFrom(value: Tag): (r: Result<ChunkType, ChunkTypeError>)
    ensures r.Ok? && Bytes(r.value) == value
  {
    Ok(ChunkType(value))
  }

  /**
   * `FromStr` on the bytes of the text: the strict constructor. The length is
   * checked before the characters.
   */
  function FromStr(s: seq<u8>): (r: Result<ChunkType, ChunkTypeError>)
    ensures |s| != 4 ==> r == Err(ByteLengthError(|s|))
    ensures |s| == 4 ==> (r.Err? <==> exists i | 0 <= i < 4 :: !IsAsciiLetter(s[i]))
    ensures |s| == 4 && r.Err? ==> r.error == InvalidCharacter
    ensures r.Ok? ==> r == TryFrom(s) && AllLetters(Bytes(r.value))
  {
    if |s| != 4 then Err(ByteLengthError(|s|))
    else if !AllLetters(s) then Err(InvalidCharacter)
    else
      var sized: Tag := [s[0], s[1], s[2], s[3]];
      assert sized == s;
      TryFrom(sized)
  }

  /** `Display`: the bytes as text; bytes that are not text are a formatting error. */
  function Display(t: ChunkType): (r: Option<string>)
    ensures AllLetters(t.bytes) ==> r.Some?
    ensures r.Some? ==> |r.value| == 4 && forall i | 0 <= i < 4 :: IsAsciiChar(r.value[i])
    ensures r.Some? ==> AsciiBytes(r.value) == Bytes(t)
  {
    AsciiText(t.bytes)
  }

  /** The four property flags, in byte order. */
  function Properties(t: ChunkType): seq<bool> {
    [IsCritical(t), IsPublic(t), IsReservedBitValid(t), IsSafeToCopy(t)]
  }

  /** `b ^ 0x20`: for a letter, the same letter in the other case. */
  function FlipBit5OfByte(b: u8): (r: u8)
    ensures Bit5Set(r) != Bit5Set(b)
  {
    ((b as bv8) ^ 0x20) as int
  }

  /** `t` with bit 5 of byte `k` flipped. */
  function FlipBit5(t: ChunkType, k: nat): (r: ChunkType)
    requires k < 4
  {
    ChunkType(t.bytes[k := FlipBit5OfByte(t.bytes[k])])
  }

  /** Each property is one bit of one byte: flipping it changes that property and no other. */
  lemma EachPropertyIsOneBit(t: ChunkType, k: nat)
    requires k < 4
    ensures forall j | 0 <= j < 4 :: Properties(FlipBit5(t, k))[j] == (Properties(t)[j] != (j == k))
  {
  }

  /** Parsing text and displaying the tag gives back the text. */
  lemma FromStrThenDisplay(s: string)
    requires forall i | 0 <= i < |s| :: IsAsciiChar(s[i])
    requires FromStr(AsciiBytes(s)).Ok?
    ensures Display(FromStr(AsciiBytes(s)).value) == Some(s)
  {
    AsciiTextOfBytes(s);
  }

  /** A tag of letters displays as text that parses back to the tag. */
  lemma DisplayThenFromStr(t: ChunkType)
    requires AllLetters(t.bytes)
    ensures Display(t).Some? && FromStr(AsciiBytes(Display(t).value)) == Ok(t)
  {
  }

  /** test_chunk_type_from_bytes and test_chunk_type_from_str. */
  lemma ConstructorTests()
    ensures TryFrom([82, 117, 83, 116]).value.bytes == [82, 117, 83, 116]
    ensures FromStr(AsciiBytes("RuSt")) == TryFrom([82, 117, 83, 116])
  {
  }

  /** The property tests, each on the tag its test parses. */
  lemma PropertyTests()
    ensures IsCritical(FromStr(AsciiBytes("RuSt")).value)
    ensures !IsCritical(FromStr(AsciiBytes("ruSt")).value)
    ensures IsPublic(FromStr(AsciiBytes("RUSt")).value)
    ensures !IsPublic(FromStr(AsciiBytes("RuSt")).value)
    ensures IsReservedBitValid(FromStr(AsciiBytes("RuSt")).value)
    ensures !IsReservedBitValid(FromStr(AsciiBytes("Rust")).value)
    ensures IsSafeToCopy(FromStr(AsciiBytes("RuSt")).value)
    ensures !IsSafeToCopy(FromStr(AsciiBytes("RuST")).value)
  {
  }

  /** test_valid_chunk_is_valid, test_invalid_chunk_is_valid and test_chunk_type_string. */
  lemma ValidityAndTextTests()
    ensures IsValid(FromStr(AsciiBytes("RuSt")).value)
    ensures FromStr(AsciiBytes("Rust")).Ok? && !IsValid(FromStr(AsciiBytes("Rust")).value)
    ensures FromStr(AsciiBytes("Ru1t")) == Err(InvalidCharacter)
    ensures FromStr(AsciiBytes("Rus")) == Err(ByteLengthError(3))
    ensures Display(FromStr(AsciiBytes("RuSt")).value) == Some("RuSt")
  {
    FromStrThenDisplay("RuSt");
  }
}
