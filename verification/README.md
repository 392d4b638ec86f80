# MD5 streaming engine and `human_size`, modelled in Dafny

This project models the `md5_hash` class of md5.h and the `human_size`
function of main.cpp from md5scantest, and proves properties of both.

`md5_hash` is a streaming implementation of the MD5 message digest of
RFC 1321. Its state is a 4-word chaining state, a 2-word bit count, a
64-byte buffer of pending input, a 16-byte digest and a `_finalized` flag.

- `start` loads the initial buffer of RFC 1321 section 3.3.
- `update` appends bytes. Every completed 64-byte block goes through
  `transform`, the 64-step compression function of section 3.4.
- `finish` pads the message to 56 bytes modulo 64 (section 3.1). It then
  appends the bit length, low word first (section 3.2), and stores the state
  little-endian in the digest (section 3.5).
- `hash` writes the digest as hexadecimal text.

`human_size` writes a byte count with the smallest of the units B to PB at
which the number is at most 1000 (PB when there is none), dividing by 1024
per unit and truncating.

The modules are:

- `ByteOrder` (byte_order.dfy): bytes, words, the little-endian codecs
  `DecodeWords` and `EncodeWords`, and their round trips.
- `Md5Rounds` (md5_rounds.dfy): F, G, H, I, `rotate_left`, the four step
  operations, and a table-driven reference definition of the 64 steps and
  of the compression `Compress`.
- `Md5RoundSteps` (md5_round_steps.dfy): the 64 steps of `transform`
  written out as in md5.h, four rounds of sixteen. Each group of four is
  proved equal to the reference.
- `Md5Message` (md5_message.dfy): the message-level definition. It covers
  `Blocks` (the compression folded over the complete 64-byte blocks of a
  message), the padding, the appended length and `Digest`. It also has the
  two-word bit counter, both as md5.h writes it and corrected.
- `HexText` (hex_text.dfy): the text `hash` produces. A byte below 0x10
  prints as one digit, because `std::hex` adds no leading zero.
- `Md5` (md5_hash.dfy): the class `Md5Hash`. Its fields are arrays, and its
  methods update them in place as md5.h does. `Valid()` ties them to two
  ghost fields:
  - `Base` is the chaining state the input started from;
  - `Input` is every byte given to `update` since then.

  The invariant states four things: `state` is `Blocks(Base, complete
  blocks of Input)`; `count` is the bit length of `Input` modulo 2^64; the
  buffer starts with the bytes of `Input` after its last complete block;
  and `digest` is `EncodeWords(Base)` once `finalize` has run, and all zero
  before.
- `Md5Client` (md5_client.dfy): what a caller observes. This covers the
  digest of a whole message and of a message fed in pieces. It also shows
  that the way input is split over `update` calls changes nothing.
- `Md5KnownVector` (md5_known_vector.dfy): the digest of the empty
  message from appendix A.5 of RFC 1321, followed step by step through
  the 64 register values, and the text `hash` makes of it.
- `HumanSize` (human_size.dfy): the loop of `human_size` and its bounds.

Lemmas that only unfold one step of a definition for other proofs
(`StepsFromAdvance`, `BlocksAdvance`, `CompressFromSteps`, the single steps
`EmptyStep0` to `EmptyStep63` and their groups) are proof helpers and have no
row below.

## Model

| member | source | states |
|---|---|---|
| ByteOrder.Zeros | md5.h:89-93 | n bytes, all zero: the tail of the `padding` table |
| ByteOrder.DecodeWords | md5.h:177-181 | decoding 4k bytes gives k words |
| ByteOrder.EncodeWords | md5.h:183-190 | encoding k words gives 4k bytes |
| ByteOrder.DecodeWordsAt | md5.h:178-180 | word i is bytes 4i to 4i + 3 with byte 4i least significant |
| ByteOrder.EncodeWordsAt | md5.h:184-189 | byte j of the encoding is byte j mod 4 (0 = lowest) of word j / 4 |
| ByteOrder.DecodeWordsAppend | md5.h:177-181 | decoding a concatenation of whole groups concatenates the decodings |
| ByteOrder.EncodeWordsAppend | md5.h:183-190 | encoding a concatenation concatenates the encodings |
| ByteOrder.WordRoundTrip | md5.h:179-188 | a word split into its four bytes and reassembled is the same word |
| ByteOrder.BytesRoundTrip | md5.h:179-188 | four bytes assembled into a word and split again are the same bytes |
| ByteOrder.DecodeEncode | md5.h:177-190 | decode(encode(w)) == w for every word sequence |
| ByteOrder.EncodeDecode | md5.h:177-190 | encode(decode(b)) == b for every byte sequence of length a multiple of 4 |
| Md5Rounds.FChooses | md5.h:140-142 | F takes y's bit where x has a 1 and z's bit elsewhere |
| Md5Rounds.GChooses | md5.h:144-146 | G takes x's bit where z has a 1 and y's bit elsewhere |
| Md5Rounds.HParity | md5.h:148-150 | H is parity: the result and any two inputs give back the third |
| Md5Rounds.IFlips | md5.h:152-154 | I flips y exactly at the bits where x is 1 or z is 0 |
| Md5Rounds.RotateLeftInverse | md5.h:157-159 | rotating left by n and then by 32 - n gives the word back |
| Md5Rounds.MessageIndexCovers | md5.h:216-290 | each round reads every one of the sixteen message words, at an explicitly found step |
| Md5RoundSteps.Steps1To4 | md5.h:216-219 | steps 1-4 as written (FF, words 0-3, S11-S14, their constants) equal reference steps 0-3 |
| Md5RoundSteps.Steps5To8 | md5.h:220-223 | steps 5-8 as written equal reference steps 4-7 |
| Md5RoundSteps.Steps9To12 | md5.h:224-227 | steps 9-12 as written equal reference steps 8-11 |
| Md5RoundSteps.Steps13To16 | md5.h:228-231 | steps 13-16 as written equal reference steps 12-15 |
| Md5RoundSteps.Steps17To20 | md5.h:235-238 | steps 17-20 (GG) as written equal reference steps 16-19 |
| Md5RoundSteps.Steps21To24 | md5.h:239-242 | steps 21-24 as written equal reference steps 20-23 |
| Md5RoundSteps.Steps25To28 | md5.h:243-246 | steps 25-28 as written equal reference steps 24-27 |
| Md5RoundSteps.Steps29To32 | md5.h:247-250 | steps 29-32 as written equal reference steps 28-31 |
| Md5RoundSteps.Steps33To36 | md5.h:255-258 | steps 33-36 (HH) as written equal reference steps 32-35 |
| Md5RoundSteps.Steps37To40 | md5.h:259-262 | steps 37-40 as written equal reference steps 36-39 |
| Md5RoundSteps.Steps41To44 | md5.h:263-266 | steps 41-44 as written equal reference steps 40-43 |
| Md5RoundSteps.Steps45To48 | md5.h:267-270 | steps 45-48 as written equal reference steps 44-47 |
| Md5RoundSteps.Steps49To52 | md5.h:275-278 | steps 49-52 (II) as written equal reference steps 48-51 |
| Md5RoundSteps.Steps53To56 | md5.h:279-282 | steps 53-56 as written equal reference steps 52-55 |
| Md5RoundSteps.Steps57To60 | md5.h:283-286 | steps 57-60 as written equal reference steps 56-59 |
| Md5RoundSteps.Steps61To64 | md5.h:287-290 | steps 61-64 as written equal reference steps 60-63 |
| Md5RoundSteps.Round1 | md5.h:214-232 | round 1 takes the registers from reference step 0 to reference step 16 |
| Md5RoundSteps.Round2 | md5.h:233-251 | round 2 takes the registers from reference step 16 to step 32 |
| Md5RoundSteps.Round3 | md5.h:253-271 | round 3 takes the registers from reference step 32 to step 48 |
| Md5RoundSteps.Round4 | md5.h:273-291 | round 4 takes the registers from reference step 48 to step 64 |
| Md5RoundSteps.Rounds | md5.h:213-291 | the four rounds end with exactly the registers of the 64 reference steps |
| Md5Message.FullBlocks | md5.h:50-51 | the complete-block prefix is a multiple of 64 with fewer than 64 bytes after it |
| Md5Message.BlocksAppend | md5.h:65-74 | compressing whole blocks and then more bytes is compressing both in turn |
| Md5Message.BlocksOne | md5.h:192-300 | the blocks of a single 64-byte block is one compression |
| Md5Message.BlocksIgnoresTail | md5.h:79-80 | a trailing partial block is not compressed |
| Md5Message.PadLengthSpec | md5.h:99-101 | padLen is in 1..64, and the input plus padLen is 56 mod 64 |
| Md5Message.PaddedSpec | md5.h:99-105 | the padded message is a whole number of blocks, at most 72 bytes longer, starting with the message, then 0x80 and zeros |
| Md5Message.CountFor | md5.h:53-58 | the counter after n bytes stands for 8n modulo 2^64 |
| Md5Message.CountForZero | md5.h:33-34 | the counter of the empty input is two zero words |
| Md5Message.AddBitsCarry | md5.h:54-55 | with the comparison made on 32-bit values, the carry is taken exactly when the low word wraps |
| Md5Message.ShiftSplit | md5.h:54-58 | 8n is n >> 29 times 2^32 plus the low 32 bits of n << 3 |
| Md5Message.AddBitsLow | md5.h:54 | the new low word plus the carry times 2^32 is the old low word plus the low 32 bits of 8n |
| Md5Message.AddBitsHigh | md5.h:55-58 | the new high word is old high + carry + n >> 29, mod 2^32 |
| Md5Message.CombineWords | md5.h:19 | a high word mod 2^32 above a low word is the 64-bit total mod 2^64 |
| Md5Message.AddBitsTotal | md5.h:53-58 | the corrected counter adds 8n bits, modulo 2^64 |
| Md5Message.AddBitsCountFor | md5.h:53-58 | counting chunk after chunk keeps the counter equal to the bit length of all input |
| Md5Message.AddBitsAsWrittenAgrees | md5.h:53-58 | as written, the counter is right for every chunk below 2^29 bytes |
| Md5Message.AddBitsAsWrittenOvercounts | md5.h:54-58 | as written, a 2^29-byte chunk counts 2^33 bits where 2^32 are meant |
| Md5Message.AddBitsAsWrittenSplitDiffers | md5.h:54-58 | as written, two chunks of 2^28 bytes count 2^32 bits and one chunk of 2^29 bytes counts 2^33: the count depends on how input is split |
| HexText.HexDigit | md5.h:126-129 | the digit is lower-case hex, and decimal exactly for values below 10 |
| HexText.DigitRoundTrip | md5.h:126-129 | each hex digit gives back its value |
| HexText.Hex2RoundTrip | md5.h:126-129 | the two-digit form of a byte determines the byte |
| HexText.HexByteDropsLeadingZero | md5.h:128-130 | a byte prints as its two digits with a leading '0' dropped, one digit exactly below 0x10 |
| HexText.HexStringAppend | md5.h:128-130 | the text of a concatenation is the concatenation of the texts |
| HexText.HexStringLength | md5.h:125-132 | the text has 2 characters per byte minus one per byte below 0x10 |
| HexText.HexStringPadded | md5.h:125-132 | the text equals the zero-padded form exactly when no byte is below 0x10 |
| HexText.HexStringAmbiguous | md5.h:128-130 | two different digests can print the same text |
| Md5KnownVector.PaddedEmpty | md5.h:89-105 | the empty message pads to one block: 0x80, 55 zero bytes and a zero 8-byte length |
| Md5KnownVector.EmptySteps | md5.h:192-291 | the 64 steps on the padded empty message take the initial registers to 7246fad3, 14e45506, ff4ea3eb, 6e10a476 |
| Md5KnownVector.Md5Empty | md5.h:24-117 | the digest of the empty message is d41d8cd98f00b204e9800998ecf8427e, as RFC 1321 appendix A.5 lists it |
| Md5KnownVector.HashTextEmpty | md5.h:119-133 | the text `hash` returns for the empty message is "d41d8cd98f0b24e980998ecf8427e", 29 characters, the bytes 00, 04 and 09 printing as one digit each |
| Md5.PaddingPrefix | md5.h:89-102 | the first padLen bytes of the static `padding` table are the padding of the message |
| Md5.Md5Hash.constructor | md5.h:22 | a new hasher is valid on the empty input from the initial buffer |
| Md5.Md5Hash.Start | md5.h:24-35 | state is 0x67452301, 0xefcdab89, 0x98badcfe, 0x10325476; both count words are zero; the digest is zero; not finalized |
| Md5.Md5Hash.UpdateFromStream | md5.h:37-46 | a chunk of at most 64 bytes read from a stream is appended to the input |
| Md5.Md5Hash.Update | md5.h:48-81 | the input grows by data, and the invariant is kept (state, count and pending buffer bytes), also after `finish` |
| Md5.Md5Hash.TransformBlocks | md5.h:61-76 | topping up the buffer and transforming each further whole block compresses every complete block of input + data |
| Md5.Md5Hash.TransformDirect | md5.h:72-74 | the loop transforms every whole block of data from `from` on, in order, and stops with fewer than 64 bytes left |
| Md5.Md5Hash.AddToCount | md5.h:53-58 | with the corrected carry, the count goes from the bit length of the old input to that of the old input plus n bytes; for n below 2^29 this is the count md5.h computes |
| Md5.Md5Hash.CopyToBuffer | md5.h:79-80 | the bytes are copied into the buffer at the offset, and the rest of the buffer is unchanged |
| Md5.Md5Hash.Finish | md5.h:83-117 | a second call returns "" and changes nothing; the first sets the digest to the MD5 digest of the input, returns its text, zeroes count and buffer and sets finalized |
| Md5.Md5Hash.Wipe | md5.h:110-112 | both count words and every buffer byte are zero |
| Md5.Md5Hash.PadAndAppendLength | md5.h:95-105 | the input becomes the padded message: padding to 56 mod 64, then the 8 length bytes of the count from before the padding |
| Md5.Md5Hash.StoreDigest | md5.h:107-108 | the digest is the state encoded little-endian |
| Md5.Md5Hash.SaveBitCount | md5.h:95-97 | the saved bits are the low count word, then the high, each little-endian |
| Md5.Md5Hash.Hash | md5.h:119-133 | "" before `finish`; afterwards each digest byte in hex without leading zero, in order |
| Md5.Md5Hash.Transform | md5.h:192-300 | the state becomes the compression of the block from the old state |
| Md5.Md5Hash.AddBack | md5.h:293-296 | each state word gets the matching register added, modulo 2^32 |
| Md5.Md5Hash.Decode | md5.h:177-181 | the first len / 4 output words are the little-endian decoding of len input bytes, and nothing else changes |
| Md5.Md5Hash.Encode | md5.h:183-190 | the first len output bytes are the little-endian encoding of len / 4 words, and nothing else changes |
| Md5.TopUp | md5.h:66-69 | the pending bytes and the first 64 - index bytes of data make the next block of input + data |
| Md5.Pending | md5.h:76-80 | after the last `memcpy`, the buffer starts with the input after its last complete block |
| Md5.IndexFromCount | md5.h:51 | count[0] / 8 % 64 is the input length modulo 64 |
| Md5Client.SameInputSameState | md5.h:48-81 | two hashers with the same start and the same input hold the same state, count and pending bytes |
| Md5Client.UpdateSplit | md5.h:48-81 | with the corrected carry, update(a) then update(b) leaves the same state, count and pending bytes as update(a + b), for any a and b, empty ones included |
| Md5Client.HashOf | md5.h:48-117 | with the corrected carry, a fresh hasher given m and finished returns the text of MD5(m) |
| Md5Client.HashPieces | md5.h:37-117 | a fresh hasher fed pieces of at most 64 bytes returns the text of the MD5 of their concatenation |
| HumanSize.ScaledClosedForm | main.cpp:14-17 | the number at unit k is size / 1024^(k - 1), truncated |
| HumanSize.UnitFrom | main.cpp:14-17 | the loop stops at the first unit whose number is at most 1000, or at PB |
| HumanSize.UnitIndex | main.cpp:13-19 | the unit index is in 1..6, so pf[index - 1] is always an element |
| HumanSize.DecimalString | main.cpp:19 | the size is written as decimal digits |
| HumanSize.DecimalRoundTrip | main.cpp:19 | the digits read back as the number, with no leading zero |
| HumanSize.HumanSize | main.cpp:10-21 | the loop's result is the number at the chosen unit, a space and the unit name |
| HumanSize.SmallSizeInBytes | main.cpp:14-19 | a size of at most 1000 is returned unchanged with unit B |
| HumanSize.DisplayBound | main.cpp:14 | the number written is at most 1000 unless the unit is PB |
| HumanSize.DisplayLeastUnit | main.cpp:14-17 | at every smaller unit the number would exceed 1000 |

## Left out

- Streams: `update(stream_type&)` (md5.h:37-46) is modelled as appending the bytes the read returned, at most 64. The read itself is I/O.
- `hash()` builds its text with a `std::stringstream` (md5.h:125-132). It is modelled as per-byte hexadecimal text without leading zeros, not as stream formatting.
- The `memset` of the local `x` in `transform` (md5.h:299) clears scratch memory that is never read again. It is not modelled. The clearing of `buffer` and `count` in `finish` is modelled.
- `FF` to `II` update `a` by reference in md5.h. Here they are functions that return the new value, and the caller assigns it.
- The contract of `Transform` says `Blocks(old state, block)`, and BlocksOne shows that this is one compression. The unrolled steps are proved equal to the table-driven reference, not to RFC 1321's own text; the reference is checked against the empty-message vector of RFC 1321 appendix A.5 only.
- Md5.Md5Hash.Update: the model adds to the count with the corrected carry test (see Findings). So for a single chunk of 2^29 bytes or more, its count differs from md5.h's.
- Md5.Md5Hash.AddToCount: states the corrected count; it equals the count md5.h computes only for chunks below 2^29 bytes (AddBitsAsWrittenAgrees).
- Md5Client.UpdateSplit: holds for the corrected count. For md5.h itself it holds only while a, b and a + b are each below 2^29 bytes; AddBitsAsWrittenSplitDiffers shows a split that changes md5.h's count.
- Md5Client.HashOf: holds for the corrected count. For md5.h it holds while m is below 2^29 bytes, since a single `update` of m then counts exactly as corrected.
- The bodies of `update` and `finish` are split into helper methods (TransformBlocks, TransformDirect, AddToCount, CopyToBuffer, PadAndAppendLength, SaveBitCount, StoreDigest, Wipe). Each helper is one part of the source body.
- `size_t` sizes are unbounded naturals required to be below 2^64. `human_size` writes a `size_t`, which is below 2^64 too.
- `update` after `finish` is not refused, as in md5.h. The digest of a finalized hasher stays the one `finish` stored, and a second `finish` returns "".
- `scan_dir`, `process_file`, `get_csv_name` and `main` (main.cpp:23-97) are filesystem traversal, file reads, clock reads and output formatting. They are not part of this model.

## Findings

| source | as written | input that shows it | evidently intended | confidence | as-written member | corrected member |
|---|---|---|---|---|---|---|
| md5.h:54-55 | the carry test compares the new 32-bit low count word with the 64-bit `data_size << 3`, so every chunk of 2^29 bytes or more takes a carry | a fresh hasher and one `update` of 2^29 bytes: the count becomes 2^33 bits instead of 2^32, while two `update`s of 2^28 bytes count 2^32 (AddBitsAsWrittenSplitDiffers) | the carry is taken exactly when the low word wraps around, as in RFC 1321's `MD5Update`, so the count is the bit length modulo 2^64 | not executed | Md5Message.AddBitsAsWrittenOvercounts | Md5Message.AddBitsTotal |
