# intel8086 decoder — a Dafny model

This project models the instruction decoder of the `intel8086` program.
The decoder takes a byte buffer in 8086 machine code and produces an
assembly listing. The buffer is read as consecutive 2-byte units. The first
byte holds the opcode and the `d` and `w` flags. The second byte holds the
`mod`, `reg` and `r/m` fields. Each unit becomes one line, `<mnemonic> <r/m
register>, <reg register>`. The mnemonic is `mov` for the register/memory
MOV form `100010dw` and `UNKNOWN` for everything else. The listing starts
with the directive `bits 16`. The program rejects an empty or odd-length
buffer. It also stops if a register selector is missing from its tables;
that failure can never happen.

Modules:

- `Registers` holds the byte-register (`w = 0`) and word-register (`w = 1`)
  name tables and their lookup.
- `Listing` describes the expected output independently of the decoder.
  It uses unsigned arithmetic on byte values (ranges, division, remainder)
  instead of shifts and masks.
- `Decoder` holds the decoder's operations. They use the same bit
  operations as the intel8086 program. The mnemonic, width-flag, selector,
  register and unit contracts name the matching `Listing` definition, and
  `DecodeBufferIsListing` ties a successful `DecodeBuffer` to
  `Listing.ListingOf`. The `d` flag and the mode field have no `Listing`
  counterpart, since the output does not use them. Their contracts give
  their values in unsigned arithmetic. `DecodeBuffer` is the functional
  form of the decoder. `DecodeBufferLoop` is the program's own loop, and it
  is proved equal to `DecodeBuffer`.
- `DecoderProperties` holds lemmas that relate several calls:
  - units decode independently and in stream order;
  - the `d` flag and the `mod` field never change the output;
  - the lookup failure is unreachable;
  - the program's unit test holds.
- `SeqFacts` holds a few generic facts about sequence concatenation.

The program stops (panics) in three cases. The model returns each one as a
`Failure` value instead:

- `EmptyBuffer`: the buffer is empty.
- `OddLength`: the buffer has an odd number of bytes.
- `UndefinedRegister(selector)`: a register lookup fails. This case is
  distinct from the tolerated unknown opcode.

## Model

| member | source | states |
|---|---|---|
| Registers.Lookup | src/main.rs:77-88 | a lookup succeeds exactly for selectors 0..7 at either width; every name found is two characters long with no line break |
| Registers.TablesTotal | src/constants.rs:5-34 | both tables are defined for exactly the selectors 0..7 and for no other key |
| Registers.TablesInjective | src/constants.rs:5-34 | within one width, two different selectors never name the same register |
| Registers.NamesAreTwoCharacters | src/constants.rs:5-34 | every register name in either table is exactly two characters and a single line |
| Registers.ByteRegistersAreHalves | src/constants.rs:5-34 | byte selector s names the low half (s < 4) or the high half (s >= 4) of the word register at selector s mod 4, one of ax, cx, dx, bx |
| Registers.TableContents | src/constants.rs:5-34 | the exact name for each of the 16 combinations of width and selector: al cl dl bl ah ch dh bh, and ax cx dx bx sp bp si di |
| Listing.UnitLineIsSingleLine | src/main.rs:43 | the line of any unit, known opcode or not, contains no line break |
| Listing.JoinLinesNewlines | src/main.rs:43 | appending single-line units, each after a line break, adds exactly one line break per unit |
| Listing.UnitLinesHaveNoNewlines | src/main.rs:36-44 | none of the lines a buffer's units render contains a line break |
| Listing.ListingNewlines | src/main.rs:35-44 | the listing holds one line break after the header plus one per 2-byte unit |
| Decoder.DecodeInstruction | src/main.rs:49-54 | the mnemonic is the reference mnemonic: `mov` exactly when the first byte is in 0x88..0x8B (top six bits 100010), and `UNKNOWN` for any other byte |
| Decoder.GetDValue | src/main.rs:56-58 | the d flag is set exactly when the byte value divided by 2 is odd, i.e. bit 1 is set |
| Decoder.GetWValue | src/main.rs:60-62 | the w flag is the reference width flag: set exactly when the byte value is odd |
| Decoder.GetMod | src/main.rs:64-66 | the mode field is below 4 and is the byte value divided by 64 |
| Decoder.FirstSelector | src/main.rs:69 | the first-operand selector is below 8, equals the byte value modulo 8, and is the reference r/m field |
| Decoder.SecondSelector | src/main.rs:73-74 | the second-operand selector is below 8, equals the byte value divided by 8 modulo 8, and is the reference reg field |
| Decoder.ByteToRegister | src/main.rs:77-88 | the lookup succeeds exactly for selectors below 8 and gives the table's name at the requested width; any other selector fails as UndefinedRegister of that selector |
| Decoder.DecodeFirstRegister | src/main.rs:68-70 | the first operand is the register named by the r/m field at width w |
| Decoder.DecodeSecondRegister | src/main.rs:72-75 | the second operand is the register named by the reg field at width w |
| Decoder.DecodeUnit | src/main.rs:37-43 | a unit's line is its mnemonic, then the r/m register, then the reg register, all at the width the w flag selects |
| Decoder.Chunks | src/main.rs:36 | a buffer of 2n bytes splits into n units, and unit i is made of bytes 2i and 2i+1 |
| Decoder.DecodeUnitsJoinsLines | src/main.rs:36-44 | decoding a unit sequence gives each unit's line after a line break, concatenated in order |
| Decoder.DecodeBuffer | src/main.rs:31-33 | an empty buffer fails as EmptyBuffer and only an empty one does; a non-empty odd-length buffer fails as OddLength and only such a one does; every other buffer decodes successfully |
| Decoder.DecodeBufferIsListing | src/main.rs:31-47 | a successful decoding is exactly the header `bits 16` followed by one line per unit, in stream order |
| Decoder.ChunksHaveUnitLines | src/main.rs:36 | the lines of a buffer's units are the lines of its byte pairs (2i, 2i+1), in order |
| Decoder.DecodeBufferLineCount | src/main.rs:35-46 | a successful decoding contains exactly 1 + n line breaks for a buffer of n units |
| Decoder.DecodeBufferLoop | src/main.rs:31-47 | the loop that appends one line per unit to the header computes the same result as the functional decoder, errors included |
| Decoder.DecodeUnitsStep | src/main.rs:43 | appending unit i's line to the text decoded so far moves that unit from the undecoded rest into the result |
| DecoderProperties.SelectorsNeverUndefined | src/main.rs:81-85 | the masked selectors of any byte are always found in both tables, so the UndefinedRegister failure never happens |
| DecoderProperties.ChunksAppend | src/main.rs:36 | splitting two even-length buffers into units and concatenating the results is the same as splitting their concatenation |
| DecoderProperties.DecodeUnitsAppend | src/main.rs:36-44 | decoding a concatenation of unit sequences concatenates their decodings, so no unit influences another |
| DecoderProperties.DecodeUnitsAround | src/main.rs:43 | a unit contributes exactly its own line at its own position, whatever units come before and after it |
| DecoderProperties.ChunksAround | src/main.rs:36 | a byte pair at an even offset of an even-length buffer becomes one unit, between the units of the bytes before and after it |
| DecoderProperties.UnitIsolation | src/main.rs:35-44 | in a whole buffer, the unit (b0, b1) contributes its own line after the lines of the preceding bytes and before those of the following bytes |
| DecoderProperties.UnknownOpcodeTolerated | src/main.rs:49-54 | a unit with an opcode other than MOV renders as UNKNOWN with its two operands, and decoding continues with the next unit |
| DecoderProperties.UnitIgnoresDirectionAndMode | src/main.rs:39-40 | two units that differ only in the d flag and the mode field render the same line |
| DecoderProperties.DirectionFlagInert | src/main.rs:39 | flipping the d flag changes the extracted d value but not the rendered line: operands always come r/m first, reg second |
| DecoderProperties.ModeFieldInert | src/main.rs:40 | any other mode value is extracted as such, but the rendered line stays the same: both fields are always read as registers |
| DecoderProperties.UnitsIgnoreDirectionAndMode | src/main.rs:36-44 | unit sequences that differ only in d flags and mode fields decode to the same text |
| DecoderProperties.BufferIgnoresDirectionAndMode | src/main.rs:31-47 | two buffers of equal length that differ only in d flags and mode fields give the same result, error or listing |
| DecoderProperties.DecodeMovVector | src/main.rs:90-93 | the bytes 0x89 0xd9 decode to `bits 16`, an empty line and `mov cx, bx` |
| DecoderProperties.MovVectorUnit | src/main.rs:92 | the unit 0x89 0xd9 renders as `mov cx, bx` |
| DecoderProperties.MovVectorUnits | src/main.rs:36-43 | the two-byte test buffer is a single unit, and it decodes to one line break followed by `mov cx, bx` |

## Left out

- `main` (src/main.rs:9-29) is left out: the command-line parsing, opening and reading the input file, and printing. The model takes the bytes as a parameter and returns the text.
- The lazy, process-wide construction of the tables (src/constants.rs:1-4, 16-21, 35-40) is left out. The tables are immutable map literals.
- The tables are keyed by the numeric value of the selector byte instead of by `u8`. The lookup converts the selector first, so it accepts and rejects the same keys.
- The text of the panic messages is left out. The model keeps only which failure occurred and, for the lookup failure, the selector.
- The direction flag and the mode field are computed but not used, as in the intel8086 program. Output operands are always r/m first, reg second, and memory addressing modes are printed as register operands. The model keeps this behaviour and does not follow the full 8086 encoding.
- Repeated calls give the same result because every operation is a pure function, so no separate idempotence lemma is stated.
