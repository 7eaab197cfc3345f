# EBML reader of libwebm-rs, modelled in Dafny

This project models the WebM reader in `src/ebml.rs` and the identifier registry in `src/consts.rs`.
The reader reads EBML (RFC 8794), the binary element format that WebM and Matroska files use.
A file is a sequence of elements. Each element is:

- an ID (section 5 of RFC 8794);
- a size written as a variable-length integer, or "vint" (sections 4 and 6 of RFC 8794);
- a payload.

A Master element's payload is a run of child elements.

The model takes the input file as an immutable byte sequence (`seq<Byte>`) with an explicit cursor.
Each operation is a pure function. Every `unwrap()` or `panic!` of the reader becomes a `Failure` of the `Errors.Error` datatype.

| file | module | what it holds |
|---|---|---|
| `wrappers.dfy` | `Wrappers` | `Option` and `Result`, with `:-` propagation |
| `arith.dfy` | `Arith` | powers of two and of 256; Euclidean division facts; the widths `U64`, `U32` |
| `errors.dfy` | `Errors` | the failure cases: `Truncated`, `VintOverflow`, `BadMagic`, `InvalidUtf8`, `EmptyInteger`, `MissingField` |
| `codec.dfy` | `Codec` | `count_leading_zeros`, `bytes_to_uint`, `bytes_to_int`, the flag conversion, the width choice of `bytes_to_float`; big-endian reference values |
| `vint.dfy` | `Vint` | `read_bytes`, `read_vint`, the ID read of `parse_element`, and the writer side of both (`EncodeVint`, `EncodeId`) |
| `registry.dfy` | `Registry` | `MAGIC_NUMBER`, the `ID_*` constants, `NODE_INFOS`, `get_node_info` |
| `schema.dfy` | `Schema` | the element kinds and the reader's ID-to-kind `match` (`KindOf`) |
| `tree.dfy` | `Tree` | `Element`, `Node`, element header parsing, `parse_element`, `build_node_tree` |
| `utf8.dfy` | `Utf8` | a strict UTF-8 decoder (what `String::from_utf8` accepts) and its encoder |
| `access.dfy` | `Access` | the `find_node` / `filter_nodes` / `find_node_data_*` macros; the `Into` conversions of payloads |
| `views.dfy` | `Views` | the typed views (`EBMLHeaderNode`, `SegmentNode`, …) and their getters |
| `reader.dfy` | `Reader` | `check_magic_number` and `parse` |
| `encoder.dfy` | `Encoder` | a reference writer; its round trips through the reader |

## How the pieces fit

`Tree.ParseElement` reads one element header:

- The ID is the unmasked big-endian value of its `count_leading_zeros + 1` bytes.
- The size is a vint with its length marker masked off.
- The kind comes from `Schema.KindOf`, the reader's `match` table. Any ID not in the table is `Unknown`.
- A Master gets empty data, and the cursor stays at the start of its payload.
- Every other kind, `Unknown` included, gets exactly `size` bytes.

`Tree.BuildTree` and `Tree.BuildChildren` build the tree as mutually recursive functions.
Each element consumes at least two bytes, so the remaining input length decreases and the recursion terminates.

`Reader.Parse` first checks the four-byte signature. It then builds two trees back to back from offset 0: the header and the root.

The tree functions take the ID classification as a parameter (`Schema.Classifier`). The reader passes `KindOf`.
The accessors never look below the direct children of a node:

- A single getter is the first child with the ID.
- A repeated getter is every such child, in document order.
- A mandatory getter fails when the child is absent. An optional getter yields `None`.

The reader has no writer, so `Encoder` provides one as a reference definition. It writes:

- IDs at their own width;
- sizes in the eight-byte vint form;
- Master payloads as the concatenation of their children.

`Encoder.ParseRoundTrip` proves that the reader returns any such header and root unchanged.

Four points of the code's behaviour are easy to misread. The model follows the code on each:

- **Span check.** The child loop continues while the cursor is below `start + size` (`src/ebml.rs:378`). A last child that runs past its parent's declared span is accepted, and the loop simply stops. There is no span-mismatch error. `Tree.OverrunExample` shows one such input.
- **First byte 0x00 in an ID.** `count_leading_zeros(0)` is 8, so the ID read takes 9 bytes and keeps their low 64 bits (`src/ebml.rs:392-398`). This is not a failure. For a size vint, the same byte makes `8 - count` underflow (`src/ebml.rs:1092`), which the model treats as `VintOverflow`, as an overflow-checked build does (see `Vint.ReadVint` under "Left out").
- **Kinds.** Kinds come from the `match` in `parse_element`, not from the registry. The two tables disagree:
  - Chapters, Tags, ContentEncodings and other containers are registered but are not in the Master list. They read as `Unknown`, so their views see no children.
  - ID `0xe8` is in the Master list but not in the registry.
- **Mandatory getters.** They take the first matching child. They do not require exactly one.

## Model

| member | source | states |
|---|---|---|
| Codec.LeadingZerosBounds | src/ebml.rs:1137-1148 | the count is at most 8; it is 8 exactly for 0x00; otherwise the byte lies in [2^(7-n), 2^(8-n)), so n is the number of zero bits above the highest set bit |
| Codec.LeadingZerosOfRange | src/ebml.rs:1137-1148 | a byte whose highest set bit is bit k has exactly 7 - k leading zeros |
| Codec.AccumulateValue | src/ebml.rs:1104-1110 | the shift-and-or loop, started from any 64-bit accumulator, ends at (start * 256^n + big-endian value of the bytes) modulo 2^64 |
| Codec.BytesToUint | src/ebml.rs:1104-1110 | the shift-and-or loop over a u64 yields the big-endian value of the bytes modulo 2^64, for any number of bytes |
| Codec.BytesToUintValue | src/ebml.rs:1104-1110 | `bytes_to_uint` is the big-endian value of the bytes modulo 2^64, so it is exact for up to 8 bytes and 0 for no bytes |
| Codec.BytesToInt | src/ebml.rs:1112-1122 | the empty payload fails; 1 to 8 bytes give their two's-complement value at their own width, with the sign from the first byte's top bit; 8 or more give the low 64 bits read as an i64 |
| Codec.SignExtension | src/ebml.rs:1112-1122 | seeding the accumulator with 0x7FFF_FFFF_FFFF_FFFF when the top bit is set makes the shifted-in ones sign-extend to the two's-complement value |
| Codec.WideSignedIsLowBytes | src/ebml.rs:1112-1122 | with 8 or more bytes the seed is shifted out completely, leaving the low 64 bits of the bytes |
| Codec.BytesToBool | src/ebml.rs:1073-1076 | a flag is true exactly when the payload is non-empty and its 64-bit value is 1; an empty payload fails |
| Codec.TrueOnlyForOne | src/ebml.rs:1073-1076 | for 1 to 8 bytes, the signed value is 1 exactly when the unsigned value is 1 |
| Codec.BytesToFloatBits | src/ebml.rs:1124-1131 | more than four bytes select binary64 over the 64-bit value; otherwise binary32 over a value below 2^32 |
| Codec.CodecExamples | src/ebml.rs:1155-1172 | the unit tests: leading zeros 0x81→0, 0x0e→4, 0x01→7, 0x00→8; `[0xFF]`→255; `[0x7F]`→127, `[0xFE]`→-2, `[0x00,0x05]`→5 |
| Vint.ReadBytes | src/ebml.rs:1098-1101 | succeeds exactly when `n` bytes remain, returning `n` bytes and the cursor after them; a short read fails with `Truncated` at the start offset |
| Vint.ReadBytesRoundTrip | src/ebml.rs:1098-1101 | reading bytes laid down at the cursor returns them unchanged |
| Vint.PrefixLength | src/ebml.rs:1082-1083 | the byte count a first byte announces is 1 to 9, and 9 exactly for 0x00 |
| Vint.ReadVint | src/ebml.rs:1079-1096 | succeeds exactly when the first byte is nonzero and all the bytes it announces are present, consuming exactly that many; a 0x00 first byte followed by eight more bytes fails with `VintOverflow` |
| Vint.ReadVintValue | src/ebml.rs:1079-1096 | an n-byte vint is at most 8 bytes long, and its value is the bytes' big-endian value with the top n bits cleared, so it is below 2^(7n) |
| Vint.ClearMarkerLow | src/ebml.rs:1092-1093 | the bitmask `2^(8-len) - 1` keeps the low `8 - len` bits of the first byte, and the rest of that byte sits above them |
| Vint.ReadVintRoundTrip | src/ebml.rs:1079-1096 | a value below 2^(7n) written with an n-byte marker reads back as itself and consumes exactly n bytes |
| Vint.AllOnesIsOrdinary | src/ebml.rs:1079-1096 | the all-ones "unknown size" patterns 0xFF and 0x7F 0xFF read as the ordinary sizes 127 and 16383 |
| Vint.ReadId | src/ebml.rs:390-398 | the ID read succeeds exactly when all `count_leading_zeros + 1` bytes are present, consuming exactly that many; otherwise `Truncated` |
| Vint.ReadIdValue | src/ebml.rs:390-398 | the ID is the unmasked big-endian value of its bytes, modulo 2^64 (which matters only for the 9-byte read after 0x00); an ID read from a nonzero first byte has that byte's announced width |
| Vint.ReadIdRoundTrip | src/ebml.rs:390-398 | an ID written at its own width reads back as itself and consumes exactly that width |
| Registry.FindIndex | src/consts.rs:266 | the scan finds nothing exactly when no entry has the ID; otherwise it returns the first position with the ID |
| Registry.GetNodeInfo | src/consts.rs:265-267 | a returned entry has the queried ID; `None` exactly when no entry has it; with duplicates, the first entry in table order wins |
| Registry.RegistryShape | src/consts.rs:135-137 | the table has 122 entries; the first is the EBML header and the second is the Segment |
| Registry.MagicSpellsHeaderId | src/consts.rs:5-12 | the four `MAGIC_NUMBER` bytes read big-endian are `ID_EBMLHEADERNODE`, 0x1a45dfa3 |
| Schema.ListedTopLevel | src/ebml.rs:437-444 | the EBML header, Segment, SeekHead and Info classify as Master |
| Schema.ListedClusterAndCues | src/ebml.rs:437-444 | Cluster, BlockGroup, Slices, Cues, CuePoint and CueTrackPositions classify as Master |
| Schema.ListedTracks | src/ebml.rs:437-444 | Seek, Tracks, TrackEntry, Video and Audio classify as Master |
| Schema.UnlistedEncodings | src/ebml.rs:402-448 | the registered ContentEncodings, ContentEncoding, ContentEncryption and ContentEncAESSettings containers fall to `Unknown` |
| Schema.UnlistedChapters | src/ebml.rs:402-448 | the registered Chapters, EditionEntry, ChapterAtom and ChapterDisplay containers fall to `Unknown` |
| Schema.UnlistedTags | src/ebml.rs:402-448 | the registered Tags, Tag, Targets and SimpleTag containers fall to `Unknown` |
| Tree.ReadHeader | src/ebml.rs:390-399 | a header that reads takes at least two bytes and ends inside the input |
| Tree.ParseElement | src/ebml.rs:390-465 | a parsed element takes at least two bytes and its cursor stays inside the input |
| Tree.ParseElementCases | src/ebml.rs:390-465 | parsing fails exactly when the header fails or a non-Master payload is short (`Truncated` at the payload start); a Master carries no data and leaves the cursor at its payload; any other kind, `Unknown` included, carries exactly `size` bytes; the kind is the classifier's |
| Tree.BuildTree | src/ebml.rs:368-388 | a built tree takes at least two bytes and ends inside the input |
| Tree.BuildChildren | src/ebml.rs:376-380 | the child loop never moves the cursor backwards and ends inside the input; when and where it stops is stated by `Tree.BuildChildrenShape` |
| Tree.BuildTreeShape | src/ebml.rs:368-388 | a built node is its parsed element; a non-Master has no children and ends after its payload; a Master ends at or past the end of its declared span; every node has children only if it is a Master |
| Tree.BuildChildrenShape | src/ebml.rs:376-380 | the child loop stops at or past the limit; it yields no children exactly when it starts at or past the limit |
| Tree.EmptyMaster | src/ebml.rs:376-380 | a Master of declared size 0 has no children, and the cursor stays at its payload start |
| Tree.OverrunExample | src/ebml.rs:376-380 | a BlockGroup declaring one payload byte accepts a two-byte child that runs past its span; the cursor ends after the child |
| Utf8.Decode | src/ebml.rs:1133-1135 | the decoded text, when there is one, has at most as many characters as there are bytes; ill-formed input gives `None` |
| Utf8.DecodeEncode | src/ebml.rs:1133-1135 | any string's UTF-8 encoding decodes back to the string |
| Utf8.EncodeDecode | src/ebml.rs:1133-1135 | whatever decodes encodes back to the same bytes, so the decoder accepts exactly the encodings of strings |
| Utf8.DecodeAsciiExample | src/ebml.rs:1176 | the bytes `41 42 43` decode to "ABC" |
| Utf8.DecodeThreeByteExample | src/ebml.rs:1177 | the bytes `e4 bd 95` decode to the single character U+4F55 |
| Utf8.MisreadExpectationDiffers | src/ebml.rs:1177 | the three-character text the test expects is not that decoding: it is itself the UTF-8 of seven bytes |
| Access.FindFirst | src/ebml.rs:47-59 | `None` exactly when no node has the ID; otherwise the node at the first position with the ID |
| Access.FilterAll | src/ebml.rs:26-44 | the result holds exactly the nodes with the ID, and no more of them than the input |
| Access.FilterAppend | src/ebml.rs:26-44 | filtering keeps document order: filtering a concatenation concatenates the filters |
| Access.FindFirstIsFirstOfFilter | src/ebml.rs:26-59 | the single lookup is the head of the repeated lookup, and `None` when that is empty |
| Access.NoMatchesFilterEmpty | src/ebml.rs:26-44 | with no node carrying the ID, the repeated lookup is empty |
| Access.MandatoryNode | src/ebml.rs:82-86 | fails with `MissingField(id)` exactly when no node has the ID; otherwise the first such node |
| Access.MandatoryData | src/ebml.rs:82-86 | an absent child is `MissingField(id)`; otherwise the first matching child's payload, converted |
| Access.OptionalData | src/ebml.rs:72-79 | `Success(None)` exactly when no node has the ID; otherwise the first match's converted payload, failing only when the conversion fails |
| Access.DecodeEach | src/ebml.rs:623-627 | converts every payload in order, and succeeds exactly when every conversion does |
| Access.RepeatedData | src/ebml.rs:623-627 | no match gives the empty sequence; the read succeeds exactly when every matching child converts, and then yields one value per matching child, each that child's converted payload, in document order |
| Access.UintOf | src/ebml.rs:1049-1053 | any payload converts, to its big-endian value modulo 2^64; up to eight bytes give the big-endian value itself |
| Access.IntOf | src/ebml.rs:1055-1059 | a signed conversion fails exactly on the empty payload; one to eight bytes give their two's-complement value, and eight or more give the low 64 bits read as an i64 |
| Access.BoolOf | src/ebml.rs:1073-1076 | a flag is true exactly when its signed value is 1; an empty payload fails |
| Access.FloatOf | src/ebml.rs:1061-1065 | every payload converts; it selects binary64 exactly when it is longer than four bytes, with the big-endian value modulo 2^64 as bits, and otherwise binary32 with the big-endian value (below 2^32) as bits |
| Access.TextOf | src/ebml.rs:1043-1047 | text conversion fails with `InvalidUtf8` exactly when the payload is not well-formed UTF-8; text read back encodes to the payload |
| Access.BytesOf | src/ebml.rs:1067-1071 | a binary payload converts to a copy of itself and never fails |
| Views.HeaderView | src/ebml.rs:490-518 | an EBML header without a DocType child reports it missing; DocType and EBMLVersion are the first such child's payload as text and as an unsigned value |
| Views.SegmentClustersInOrder | src/ebml.rs:529-531 | a Segment lists its Clusters in document order, and each is a direct Cluster child |
| Views.InfoView | src/ebml.rs:566-592 | Duration is `None` when absent; the creation date fails exactly when its payload is empty, and otherwise is its signed value |
| Views.TrackEntryView | src/ebml.rs:647-737 | FlagEnabled is true exactly when the first such child's signed value is 1, and reported missing when absent; Name is `None` when absent; Video settings exist exactly when a Video child does |
| Views.VideoView | src/ebml.rs:739-791 | PixelWidth is mandatory and is the first such child's unsigned value; StereoMode is `None` when absent |
| Views.UnlistedEncodingViews | src/ebml.rs:833-837 | in a tree the reader builds, a ContentEncodings node lists no encodings |
| Views.UnlistedChapterViews | src/ebml.rs:907-935 | in a tree the reader builds, Chapters, EditionEntry and ChapterAtom nodes list no children |
| Views.UnlistedTagViews | src/ebml.rs:949-959 | in a tree the reader builds, Tags lists no tags, and a Tag's mandatory Targets is always missing |
| Reader.Parse | src/ebml.rs:344-366 | a bad or short signature fails with `BadMagic` before any tree is built; otherwise the file parses exactly when two trees build back to back from offset 0; they are the header, whose ID is the EBML header's, and the root, whose ID is not checked |
| Reader.MagicIsHeaderId | src/ebml.rs:467-481 | input that passes the signature check starts with the 4-byte EBML header ID |
| Encoder.ReadHeaderRoundTrip | src/ebml.rs:390-399 | a written ID and size read back as themselves, and the payload starts right after them |
| Encoder.ParseElementRoundTrip | src/ebml.rs:390-465 | a written element parses back as itself; the cursor is at its payload for a Master and after its payload otherwise |
| Encoder.ParseFromHeader | src/ebml.rs:450-465 | once the header reads back, a Master takes no payload bytes and any other kind takes exactly its payload |
| Encoder.BuildTreeRoundTrip | src/ebml.rs:368-388 | the encoding of a canonical tree reads back as that tree and stops exactly at its end |
| Encoder.BuildLeafRoundTrip | src/ebml.rs:368-388 | a written non-Master element reads back as a leaf ending after its payload |
| Encoder.BuildMasterRoundTrip | src/ebml.rs:368-388 | a written Master reads back with all its children, and the cursor lands exactly on the end of its span |
| Encoder.BuildChildrenRoundTrip | src/ebml.rs:376-380 | a written run of canonical siblings reads back completely and stops exactly at its end |
| Encoder.MagicIsEncodedHeaderId | src/consts.rs:5-12 | the signature is the EBML header's ID as written at its own width |
| Encoder.ParseRoundTrip | src/ebml.rs:344-366 | a written EBML header followed by any canonical element, plus any trailing bytes, parses back as exactly that header and root |

## Findings

| source | as written | input that shows it | evidently intended | confidence | as-written member | corrected member |
|---|---|---|---|---|---|---|
| src/ebml.rs:1177 | the unit test expects `bytes_to_string(&[0xe4, 0xbd, 0x95])` to equal a literal made of the three characters U+00E4 U+00BD U+2022 ("ä½•"), which are the same three bytes read as Windows-1252 | `[0xe4, 0xbd, 0x95]`, whose strict UTF-8 decoding is the single character U+4F55 | the expected text is U+4F55 | high, by proof; not executed | Utf8.MisreadExpectationDiffers | Utf8.DecodeThreeByteExample |

## Left out

- Float interpretation: `bytes_to_float` (`src/ebml.rs:1124-1131`) and the float getters are modelled only up to the width choice and the raw bits. IEEE 754 numerics, and so the test values 12.5 and 89361.0, are outside the model.
- `Debug` formatting of `Node` and `Element` (`src/ebml.rs:280-297`, `999-1019`): diagnostic text only.
- File and stream plumbing (`WebmFile::open`, `Read`, `Seek` and the rewind to offset 0): the input is an immutable byte sequence and the cursor is an explicit offset.
- `check_magic_number`'s single `read` call is taken to return `min(4, available)` bytes. A short read from a stream that has more bytes is not modelled.
- An I/O error from the stream: there is no stream, so `Err(e)` of the signature check cannot occur.
- A size too large to allocate fails the same way as a short read (`Truncated`). The model does not separate an allocation abort from a `read_exact` error.
- `src/lib.rs`: it declares the module and has tests that open a local file through an API not present in the code; there is no logic to model.
- The second copy of `NODE_INFOS` and `get_node_info` in `src/ebml.rs:128-260`: it matches the table in `src/consts.rs` entry for entry and is modelled once, as `Registry.NodeInfos`.
- Registry and kind table: the model does not prove that the two tables agree, nor that `0xe8` is absent from the registry. That is stated above only.
- Typed getters: every getter of every view is modelled (`Views`). Each is one application of an `Access` combinator at the listed ID. Contracts are proved for the representative views only (EBML header, Segment, Info, TrackEntry, Video, and the containers the kind table leaves out).
- The unknown-size marker of section 6.2 of RFC 8794 is read as an ordinary size, as the code does (`Vint.AllOnesIsOrdinary`). Streaming or unknown-size elements are not supported.
- Encoder.BuildTreeRoundTrip: the writer uses only the eight-byte size form, so the round trips cover that form. Other widths are covered for a single vint by `Vint.ReadVintRoundTrip`.
- Utf8.Decode: this is a strict decoder of the well-formed sequences of the Unicode Standard, standing for the standard library's `String::from_utf8`. The model does not include the library's own implementation.
- Vint.ReadVint: a size whose first byte is 0x00 fails with `VintOverflow`, as the overflow-checked build panics at `8 - count` (`src/ebml.rs:1092`). The model follows that build. In a build without overflow checks the subtraction wraps, the mask becomes 0xFF, and the read returns the low 64 bits of the nine bytes; that behaviour is not modelled.
