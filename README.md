# PNG chunk codec

This is a model of the chunk layer of `pngme`, a Rust program that hides messages in PNG files. It covers two pieces:

- **`ChunkType`** (`src/chunk_type.rs`) is the 4-byte tag of a chunk. Bit 5 (value 0x20) of each tag byte is a property flag, as section 5.4 "Chunk naming conventions" of the PNG Recommendation (ISO/IEC 15948) describes:
  - byte 0 clear means critical;
  - byte 1 clear means public;
  - byte 2 clear means the reserved bit is valid;
  - byte 3 set means safe to copy.

  A tag is *valid* when all four bytes are ASCII letters and the reserved bit is valid. There are two constructors. The one from a 4-byte array checks nothing and never fails. The one from text first rejects a length other than 4 (`ByteLengthError(n)`) and then rejects any byte that is not a letter (`InvalidCharacter`).
- **`Chunk`** (`src/chunk.rs`) is the record of section 5.3 "Chunk layout":

  `length: u32 (big-endian) | type: 4 bytes | data: length bytes | crc: u32 (big-endian)`

  The crc is the CRC-32 of section 5.5, computed over the type bytes followed by the data.

  The model has these operations:
  - the accessors;
  - `Display`, which renders `"(" + tag + ", " + data length + ")"`;
  - `data_as_string`;
  - the encoder (`as_bytes`);
  - the decoder (`TryFrom<&[u8]>`).

  The decoder accepts a buffer only when:
  - the buffer holds at least the 12 framing bytes;
  - its size matches the length field;
  - its crc field equals the CRC-32 of the type bytes and data.

In pngme's Rust code, `length`, `crc`, `data_as_string` and `as_bytes` are placeholders (they return `0`, `0`, `"data"` and an empty vector), and the decoder is missing. This model follows the layout given by the field comment at `src/chunk.rs:7-13` and by the file's tests, not those placeholder bodies. The tests pin down the behaviour: a 42-byte message is framed with crc 2882656334 and decodes; the same buffer with crc 2882656333 is refused.

Modules, one per file:

- `Wrappers` (`wrappers.dfy`): `Option` and `Result`.
- `ByteOrder` (`bytes.dfy`): `u8` and `u32`, plus big-endian conversion (`to_be_bytes` and `from_be_bytes`) with its round-trip lemmas.
- `Text` (`text.dfy`): the ASCII part of `as_bytes` and `from_utf8`, plus decimal rendering of a length.
- `ChunkTypes` (`chunk_type.dfy`): the tag.
- `Chunks` (`chunk.dfy`): the record and its codec.

CRC-32 is a parameter `crc32: seq<u8> -> u32` of the chunk codec. The model does not define it. The tests' constant 2882656334 appears as a hypothesis of the two scenario lemmas, namely that `crc32` maps `"RuSt"` followed by the message to that value.

## Model

| member | source | states |
|---|---|---|
| `ByteOrder.ToBeBytes` | src/chunk.rs:67-74 | `to_be_bytes` gives exactly four bytes, and reading them back big-endian gives the number |
| `ByteOrder.FromBeBytesInverse` | src/chunk.rs:7-13 | every 4-byte field is the big-endian encoding of the `u32` it reads as, so the length and crc fields decode and re-encode unchanged |
| `ByteOrder.ToBeBytesInjective` | src/chunk.rs:7-13 | two `u32` fields have the same bytes exactly when the numbers are equal |
| `Text.AsciiBytes` | src/chunk_type.rs:76 | `as_bytes` of ASCII text has one byte per character, holding its code |
| `Text.AsciiText` | src/chunk_type.rs:96 | `from_utf8` succeeds exactly when every byte is ASCII, and the text's bytes are the input |
| `Text.AsciiTextOfBytes` | src/chunk_type.rs:96 | decoding the bytes of an ASCII string gives the string back |
| `Text.Decimal` | src/chunk.rs:50 | `{}` of a length is a non-empty string of decimal digits with no leading zero |
| `Text.DecimalRoundTrip` | src/chunk.rs:50 | the digits `{}` prints for a length denote that length |
| `ChunkTypes.LetterCaseBit` | src/chunk_type.rs:43-61 | for an ASCII letter, bit 0x20 is set exactly when the letter is lower case |
| `ChunkTypes.Bytes` | src/chunk_type.rs:29-31 | `bytes()` returns the four tag bytes, and they determine the tag (tags are equal when their bytes are) |
| `ChunkTypes.IsCritical` | src/chunk_type.rs:43-46 | `!(byte0 & 0x20 == 0x20)`; for a letter this means the first letter is upper case |
| `ChunkTypes.IsPublic` | src/chunk_type.rs:48-51 | `!(byte1 & 0x20 == 0x20)`; for a letter this means the second letter is upper case |
| `ChunkTypes.IsReservedBitValid` | src/chunk_type.rs:53-56 | `!(byte2 & 0x20 == 0x20)`; for a letter this means the third letter is upper case |
| `ChunkTypes.IsSafeToCopy` | src/chunk_type.rs:58-61 | `byte3 & 0x20 == 0x20`; for a letter this means the fourth letter is lower case |
| `ChunkTypes.IsValid` | src/chunk_type.rs:33-41 | holds exactly when all four bytes are in `a`..`z` or `A`..`Z` and the third is upper case |
| `ChunkTypes.EachPropertyIsOneBit` | src/chunk_type.rs:43-61 | flipping bit 0x20 of byte k changes the k-th property and leaves the other three unchanged |
| `ChunkTypes.TryFrom` | src/chunk_type.rs:64-70 | building a tag from a 4-byte array never fails and keeps the bytes unchanged |
| `ChunkTypes.FromStr` | src/chunk_type.rs:72-92 | a length n other than 4 gives `ByteLengthError(n)`, whatever the characters are; a 4-byte input gives `InvalidCharacter` exactly when some byte is not a letter; success equals `TryFrom` of the same bytes, and every byte is a letter |
| `ChunkTypes.Display` | src/chunk_type.rs:94-99 | a tag of letters always renders; the rendered text is 4 characters whose bytes are the tag |
| `ChunkTypes.FromStrThenDisplay` | src/chunk_type.rs:202-206 | a tag parsed from text renders as that same text |
| `ChunkTypes.DisplayThenFromStr` | src/chunk_type.rs:72-99 | a tag of letters renders to text that parses back to the same tag |
| `ChunkTypes.ConstructorTests` | src/chunk_type.rs:120-133 | `try_from([82, 117, 83, 116])` keeps its bytes, and `from_str("RuSt")` equals it |
| `ChunkTypes.PropertyTests` | src/chunk_type.rs:135-185 | "RuSt" is critical, not public, reserved-bit-valid and safe to copy; "ruSt" is not critical; "RUSt" is public; "Rust" is not reserved-bit-valid; "RuST" is not safe to copy |
| `ChunkTypes.ValidityAndTextTests` | src/chunk_type.rs:187-206 | "RuSt" is valid; "Rust" parses but is not valid; "Ru1t" gives `InvalidCharacter`; "Rus" gives `ByteLengthError(3)`; "RuSt" renders as "RuSt" |
| `Chunks.AsBytes` | src/chunk.rs:7-13 | the encoding is 12 bytes longer than the data: the length field, the tag, the data and the crc field |
| `Chunks.Length` | src/chunk.rs:22-24 | `length()` is the data size, which is also what the encoding's first four bytes read as |
| `Chunks.ChunkTypeOf` | src/chunk.rs:25-27 | `chunk_type()` is the tag that bytes 4 to 8 of the encoding hold |
| `Chunks.Data` | src/chunk.rs:29-31 | `data()` is the payload that the encoding holds between the tag and the crc field |
| `Chunks.Crc` | src/chunk.rs:33-36 | `crc()` is what the encoding's last four bytes read as |
| `Chunks.DataAsString` | src/chunk.rs:38-40 | the payload as text succeeds exactly when every byte is ASCII, and the text's bytes are the payload; otherwise it gives `EncodingError` |
| `Chunks.Display` | src/chunk.rs:48-52 | renders exactly when the tag renders; the text is "(", then the tag's text, then ", ", then the data length in decimal digits without leading zeros, then ")" |
| `Chunks.Decode` | src/chunk.rs:61-77 | decoding succeeds exactly when the buffer has at least 12 bytes, its length field equals the size minus 12, and its crc field equals CRC-32 of the bytes between; a decoded chunk's crc is right and it encodes back to the same buffer; a buffer under 12 bytes gives `BufferTooShort` |
| `Chunks.EncodeThenDecode` | src/chunk.rs:7-13 | encoding a chunk with the right crc and decoding it gives the same chunk |
| `Chunks.DecodeIsIdempotent` | src/chunk.rs:61-77 | decoding, encoding and decoding again gives the same chunk |
| `Chunks.DecodedCrcIsChecksum` | src/chunk.rs:33-36 | a decoded chunk's `crc()` is the CRC-32 of `chunk_type().bytes()` followed by `data()`, and its `length()` is the buffer's length field |
| `Chunks.ChecksumSensitivity` | src/chunk.rs:132-151 | replacing the crc field of a good encoding with any other value makes decoding fail with `ChecksumMismatch` |
| `Chunks.LengthSensitivity` | src/chunk.rs:7-13 | a data region longer or shorter than the length field says makes decoding fail with `LengthMismatch`, whatever the checksum |
| `Chunks.TestChunk` | src/chunk.rs:61-77 | the chunk the tests build has 42 data bytes and crc 2882656334 |
| `Chunks.ValidChunkFromBytes` | src/chunk.rs:105-130 | 42 (big-endian) ++ "RuSt" ++ the message ++ 2882656334 (big-endian) decodes; the result has length 42, its tag renders as "RuSt", its payload text is the message, its crc is 2882656334, and it renders as "(RuSt, 42)" |
| `Chunks.TestTagText` | src/chunk.rs:85-89 | the test chunk's tag renders as "RuSt" |
| `Chunks.TestDataText` | src/chunk.rs:91-97 | the test chunk's payload renders as the message |
| `Chunks.TestDisplay` | src/chunk.rs:153-172 | a chunk with tag "RuSt" and 42 data bytes renders as "(RuSt, 42)" |
| `Chunks.InvalidChunkFromBytes` | src/chunk.rs:132-151 | the same buffer with crc field 2882656333 is refused with `ChecksumMismatch(2882656333, 2882656334)` |

## Left out

- The CRC-32 algorithm of section 5.5 of the PNG Recommendation is not defined: the repository has no implementation of it. The codec takes it as a parameter. The tests' value 2882656334 for "RuSt" followed by the message is a hypothesis of `Chunks.ValidChunkFromBytes` and `Chunks.InvalidChunkFromBytes`, not a proved fact.
- The placeholder bodies of `length`, `crc`, `data_as_string` and `as_bytes` (`src/chunk.rs:22-44`) are not modelled. They return `0`, `0`, `"data"` and an empty vector, which the file's own tests contradict. The model follows the field comment and the tests instead.
- The decoder `TryFrom<&[u8]> for Chunk` is missing from the Rust code (`src/chunk.rs:47`). `Chunks.Decode` follows the tests' buffers. Its three errors (`BufferTooShort`, `LengthMismatch`, `ChecksumMismatch`) are this model's own choice of how to tell the failures apart. pngme's tests only check that decoding fails.
- Text.AsciiText: handles only the ASCII case of `std::str::from_utf8`. The model refuses any byte of 0x80 or above, while Rust accepts well-formed multi-byte UTF-8.
- ChunkTypes.Display: renders only tags made of ASCII bytes. A tag built through `try_from` from well-formed multi-byte UTF-8 renders in Rust but is a formatting error in the model.
- Chunks.DataAsString: decodes only ASCII payloads. A payload of well-formed multi-byte UTF-8 is `Ok` in Rust but an `EncodingError` in the model.
- ChunkTypes.FromStr: takes the byte string `s.as_bytes()` rather than a Rust `&str`. The UTF-8 encoding of non-ASCII text is not modelled, and the tests use ASCII only.
- Error boxing (`Box<dyn Error>`) and the `Display` messages of `ChunkTypeError` (`src/chunk_type.rs:101-112`) are presentation only. The errors are a plain datatype. `TryFrom` for `ChunkType` has this model's `ChunkTypeError` as its error type, and it never produces one.
- The `fn main()` wrapper around the chunk tests and the tests' `println!` calls are scaffolding, not behaviour.
- The Rust `Chunk` stores its data as an unsized `[u8]` and has no length or crc field. The model stores the crc and derives the length from the data. It bounds the data below 2^32 bytes, so the size fits the `u32` length field.
