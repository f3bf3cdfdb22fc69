/**
  A reference description of the text the decoder must produce, written
  with unsigned arithmetic on byte values (ranges, division, remainder)
  rather than with the shifts and masks the decoder uses. The decoder's contracts are stated against
  these definitions.

  For the register/memory MOV form `100010dw` of the 8086:
    - the first byte is 0x88..0x8B exactly when its top six bits are 100010;
    - w is bit 0 of the first byte;
    - the R/M field is bits 0..2 and the REG field bits 3..5 of the second byte.
 */
module Listing {
  import Registers

  /** One encoded 2-byte unit of the input stream: the opcode byte
      (opcode, d, w) and the operand byte (mod, reg, r/m). */
  datatype Unit = Unit(first: bv8, second: bv8)

  /** The directive that opens every listing. */
  const Header: string := "bits 16\n"

  /** True iff the top six bits of `b0` are the MOV opcode 100010. */
  predicate IsMovOpcode(b0: bv8)
  {
    0x88 <= b0 <= 0x8B
  }

  /** The mnemonic printed for a unit whose first byte is `b0`. */
  function MnemonicOf(b0: bv8): string
  {
    if IsMovOpcode(b0) then "mov" else "UNKNOWN"
  }

  /** True iff the w bit of `b0` selects word registers. */
  predicate IsWord(b0: bv8)
  {
    b0 % 2 == 1
  }

  /** The R/M field (bits 0..2) of the second byte. */
  function RmField(b1: bv8): int
  {
    (b1 % 8) as int
  }

  /** The REG field (bits 3..5) of the second byte. */
  function RegField(b1: bv8): int
  {
    (b1 / 8 % 8) as int
  }

  /** The name of register `selector` at width `word`. */
  function Name(selector: int, word: bool): string
    requires 0 <= selector < 8
  {
    Registers.Table(word)[selector]
  }

  /** The line printed for the unit `(b0, b1)`: mnemonic, R/M operand, REG operand. */
  function UnitLine(b0: bv8, b1: bv8): string
  {
    MnemonicOf(b0) + " " + Name(RmField(b1), IsWord(b0)) + ", " + Name(RegField(b1), IsWord(b0))
  }

  /** The lines of an even-length buffer: line i comes from bytes 2i and 2i+1. */
  function UnitLines(buffer: seq<bv8>): (lines: seq<string>)
    requires |buffer| % 2 == 0
  {
    seq(|buffer| / 2, i requires 0 <= i < |buffer| / 2 => UnitLine(buffer[2 * i], buffer[2 * i + 1]))
  }

  /** The lines of a sequence of units, in order. */
  function LinesOf(units: seq<Unit>): (lines: seq<string>)
  {
    seq(|units|, i requires 0 <= i < |units| => UnitLine(units[i].first, units[i].second))
  }

  /** Each line preceded by a line break, concatenated in order. */
  function JoinLines(lines: seq<string>): string
  {
    if |lines| == 0 then "" else "\n" + lines[0] + JoinLines(lines[1..])
  }

  /** The complete listing of a non-empty, even-length buffer. */
  function ListingOf(buffer: seq<bv8>): string
    requires |buffer| % 2 == 0
  {
    Header + JoinLines(UnitLines(buffer))
  }

  /** The number of line breaks in `s`. */
  function CountNewlines(s: string): nat
  {
    if |s| == 0 then 0 else (if s[0] == '\n' then 1 else 0) + CountNewlines(s[1..])
  }

  /** Line breaks are counted additively over concatenation. */
  lemma {:induction false} CountNewlinesAppend(a: string, b: string)
    ensures CountNewlines(a + b) == CountNewlines(a) + CountNewlines(b)
  {
    if |a| == 0 {
      assert a + b == b;
    } else {
      assert (a + b)[1..] == a[1..] + b;
      CountNewlinesAppend(a[1..], b);
    }
  }

  /** A string without line breaks contains none to count. */
  lemma {:induction false} SingleLineHasNoNewlines(s: string)
    requires Registers.SingleLine(s)
    ensures CountNewlines(s) == 0
  {
    if |s| > 0 {
      SingleLineHasNoNewlines(s[1..]);
    }
  }

  /** Every unit line is a single line of text. */
  lemma UnitLineIsSingleLine(b0: bv8, b1: bv8)
    ensures Registers.SingleLine(UnitLine(b0, b1))
    ensures CountNewlines(UnitLine(b0, b1)) == 0
  {
    Registers.NamesAreTwoCharacters(IsWord(b0));
    Registers.TablesTotal();
    SingleLineHasNoNewlines(UnitLine(b0, b1));
  }

  /** Joining single-line units yields exactly one line break per unit. */
  lemma {:induction false} JoinLinesNewlines(lines: seq<string>)
    requires forall i :: 0 <= i < |lines| ==> CountNewlines(lines[i]) == 0
    ensures CountNewlines(JoinLines(lines)) == |lines|
  {
    if |lines| > 0 {
      JoinLinesNewlines(lines[1..]);
      CountNewlinesAppend("\n" + lines[0], JoinLines(lines[1..]));
      CountNewlinesAppend("\n", lines[0]);
    }
  }

  /** A listing has one line break after the header and one per unit. */
  lemma ListingNewlines(buffer: seq<bv8>)
    requires |buffer| % 2 == 0
    ensures CountNewlines(ListingOf(buffer)) == 1 + |buffer| / 2
  {
    var lines := UnitLines(buffer);
    UnitLinesHaveNoNewlines(buffer);
    JoinLinesNewlines(lines);
    CountNewlinesAppend(Header, JoinLines(lines));
  }

  /** No reference line of a buffer contains a line break. */
  lemma UnitLinesHaveNoNewlines(buffer: seq<bv8>)
    requires |buffer| % 2 == 0
    ensures forall i :: 0 <= i < |UnitLines(buffer)| ==> CountNewlines(UnitLines(buffer)[i]) == 0
  {
    var lines := UnitLines(buffer);
    forall i | 0 <= i < |lines|
      ensures CountNewlines(lines[i]) == 0
    {
      assert i < |buffer| / 2;
      UnitLineIsSingleLine(buffer[2 * i], buffer[2 * i + 1]);
    }
  }
}
