/**
  The instruction decoder: splits a byte buffer into 2-byte units and
  renders each as `<mnemonic> <r/m register>, <reg register>`, after a
  `bits 16` header. Field extraction uses the same bit operations on bytes
  as the intel8086 program; the contracts relate each step to the reference
  text described in module Listing.
 */
module Decoder {
  import Registers
  import Listing
  import SeqFacts

  /** The fatal conditions of the decoder. The first two reject the input
      buffer; the third is the internal-consistency failure of a register
      lookup, which the contracts below show cannot happen. */
  datatype DecodeError =
    | EmptyBuffer
    | OddLength
    | UndefinedRegister(selector: bv8)

  datatype Result<+T> = Success(value: T) | Failure(error: DecodeError)

  /** The mnemonic of the unit whose first byte is `instruction`. */
  function DecodeInstruction(instruction: bv8): (r: string)
    ensures r == Listing.MnemonicOf(instruction)
    ensures r == "mov" <==> Listing.IsMovOpcode(instruction)
    ensures r != "mov" ==> r == "UNKNOWN"
  {
    if instruction >> 2 == 0x22 /* 0b100010 */ then "mov" else "UNKNOWN"
  }

  /** The direction flag d, bit 1 of the first byte. */
  function GetDValue(data: bv8): (d: bool)
    ensures d <==> data / 2 % 2 == 1
  {
    (data & 0x02) >> 1 > 0
  }

  /** The width flag w, bit 0 of the first byte: true selects word registers. */
  function GetWValue(data: bv8): (w: bool)
    ensures w <==> Listing.IsWord(data)
  {
    data & 0x01 > 0
  }

  /** The addressing-mode field, the top two bits of the second byte. */
  function GetMod(data: bv8): (m: bv8)
    ensures m < 4
    ensures m == data / 64
  {
    data >> 6
  }

  /** The selector of the first operand: the R/M field, bits 0..2. */
  function FirstSelector(data: bv8): (s: bv8)
    ensures s < 8
    ensures s == data % 8
    ensures s as int == Listing.RmField(data)
  {
    data & 0x07
  }

  /** The selector of the second operand: the REG field, bits 3..5. */
  function SecondSelector(data: bv8): (s: bv8)
    ensures s < 8
    ensures s == data / 8 % 8
    ensures s as int == Listing.RegField(data)
  {
    var removeMod := data & 0x3F;
    removeMod >> 3
  }

  /** Looks a selector up in the table for width `w`. A selector outside
      the table is the internal-consistency failure. */
  function ByteToRegister(byte: bv8, w: bool): (r: Result<string>)
    ensures r.Success? <==> byte < 8
    ensures r.Failure? ==> r.error == UndefinedRegister(byte)
    ensures r.Success? ==> r.value == Listing.Name(byte as int, w)
  {
    match Registers.Lookup(w, byte)
    case Some(register) => Success(register)
    case None => Failure(UndefinedRegister(byte))
  }

  /** The register named by the R/M field of `data`. The lookup always
      succeeds, because the selector is masked to three bits. */
  function DecodeFirstRegister(data: bv8, w: bool): (r: string)
    ensures r == Listing.Name(Listing.RmField(data), w)
  {
    ByteToRegister(FirstSelector(data), w).value
  }

  /** The register named by the REG field of `data`. The lookup always
      succeeds, because the selector is masked to three bits. */
  function DecodeSecondRegister(data: bv8, w: bool): (r: string)
    ensures r == Listing.Name(Listing.RegField(data), w)
  {
    ByteToRegister(SecondSelector(data), w).value
  }

  /** The line of one 2-byte unit. The direction flag and the addressing
      mode are extracted but play no part in the result. */
  function DecodeUnit(b0: bv8, b1: bv8): (line: string)
    ensures line == Listing.UnitLine(b0, b1)
  {
    var instruction := DecodeInstruction(b0);
    var w := GetWValue(b0);
    var _ := GetDValue(b0);
    var _ := GetMod(b1);
    var firstRegister := DecodeFirstRegister(b1, w);
    var secondRegister := DecodeSecondRegister(b1, w);
    instruction + " " + firstRegister + ", " + secondRegister
  }

  /** Splits an even-length buffer into consecutive 2-byte units, in
      stream order: unit i is made of bytes 2i and 2i+1. */
  function Chunks(buffer: seq<bv8>): (units: seq<Listing.Unit>)
    requires |buffer| % 2 == 0
    ensures |units| == |buffer| / 2
    ensures forall i :: 0 <= i < |units| ==> units[i] == Listing.Unit(buffer[2 * i], buffer[2 * i + 1])
    decreases |buffer|
  {
    if |buffer| == 0 then
      []
    else
      [Listing.Unit(buffer[0], buffer[1])] + Chunks(buffer[2..])
  }

  /** The lines of a sequence of units, each preceded by a line break, in
      stream order. */
  function DecodeUnits(units: seq<Listing.Unit>): (text: string)
  {
    if |units| == 0 then
      ""
    else
      "\n" + DecodeUnit(units[0].first, units[0].second) + DecodeUnits(units[1..])
  }

  /** The decoded units are the reference lines, joined in stream order. */
  lemma {:induction false} DecodeUnitsJoinsLines(units: seq<Listing.Unit>)
    ensures DecodeUnits(units) == Listing.JoinLines(Listing.LinesOf(units))
  {
    if |units| > 0 {
      DecodeUnitsJoinsLines(units[1..]);
      assert Listing.LinesOf(units)[1..] == Listing.LinesOf(units[1..]);
    }
  }

  /** Decodes a whole buffer. An empty or odd-length buffer is rejected
      before any output is produced; otherwise the result is the header
      followed by one line per unit. */
  function DecodeBuffer(buffer: seq<bv8>): (r: Result<string>)
    ensures r == Failure(EmptyBuffer) <==> |buffer| == 0
    ensures r == Failure(OddLength) <==> |buffer| > 0 && |buffer| % 2 == 1
    ensures r.Success? <==> |buffer| > 0 && |buffer| % 2 == 0
  {
    if |buffer| == 0 then
      Failure(EmptyBuffer)
    else if |buffer| % 2 != 0 then
      Failure(OddLength)
    else
      Success(Listing.Header + DecodeUnits(Chunks(buffer)))
  }

  /** A successful decoding is exactly the reference listing: the header,
      then one line per unit in stream order. */
  lemma DecodeBufferIsListing(buffer: seq<bv8>)
    requires |buffer| > 0 && |buffer| % 2 == 0
    ensures DecodeBuffer(buffer) == Success(Listing.ListingOf(buffer))
  {
    DecodeUnitsJoinsLines(Chunks(buffer));
    ChunksHaveUnitLines(buffer);
  }

  /** The lines of the units of a buffer are its reference lines. */
  lemma ChunksHaveUnitLines(buffer: seq<bv8>)
    requires |buffer| % 2 == 0
    ensures Listing.LinesOf(Chunks(buffer)) == Listing.UnitLines(buffer)
  {
    var units := Chunks(buffer);
    var lines, expected := Listing.LinesOf(units), Listing.UnitLines(buffer);
    forall i | 0 <= i < |lines|
      ensures lines[i] == expected[i]
    {
      var b0, b1 := buffer[2 * i], buffer[2 * i + 1];
      assert units[i].first == b0 && units[i].second == b1;
      assert lines[i] == Listing.UnitLine(b0, b1);
      assert 0 <= i < |buffer| / 2 == |expected|;
      assert expected[i] == Listing.UnitLine(b0, b1);
    }
    assert lines == expected;
  }

  /** A successful decoding holds one line break for the header and one
      per 2-byte unit. */
  lemma DecodeBufferLineCount(buffer: seq<bv8>)
    requires |buffer| > 0 && |buffer| % 2 == 0
    ensures DecodeBuffer(buffer).Success?
    ensures Listing.CountNewlines(DecodeBuffer(buffer).value) == 1 + |buffer| / 2
  {
    DecodeBufferIsListing(buffer);
    Listing.ListingNewlines(buffer);
  }

  /** The decoder in the intel8086 program's iterative form: walk the units
      of the buffer in order, appending each unit's line to the result. */
  method DecodeBufferLoop(buffer: seq<bv8>) returns (r: Result<string>)
    ensures r == DecodeBuffer(buffer)
  {
    if |buffer| == 0 {
      return Failure(EmptyBuffer);
    }
    if |buffer| % 2 != 0 {
      return Failure(OddLength);
    }
    var units := Chunks(buffer);
    var result := Listing.Header;
    var i := 0;
    while i < |units|
      invariant 0 <= i <= |units|
      invariant result + DecodeUnits(units[i..]) == Listing.Header + DecodeUnits(units)
    {
      var line := DecodeUnit(units[i].first, units[i].second);
      DecodeUnitsStep(units, i, result);
      result := result + "\n" + line;
      i := i + 1;
    }
    assert DecodeUnits(units[i..]) == "";
    SeqFacts.AppendEmpty(result);
    return Success(result);
  }

  /** Appending the line of unit `i` to `prefix` moves that unit from the
      still-undecoded suffix into the decoded text. */
  lemma DecodeUnitsStep(units: seq<Listing.Unit>, i: nat, prefix: string)
    requires i < |units|
    ensures prefix + DecodeUnits(units[i..])
         == (prefix + "\n" + DecodeUnit(units[i].first, units[i].second)) + DecodeUnits(units[i + 1..])
  {
    SeqFacts.DropOfDrop(units, i);
    var line := DecodeUnit(units[i].first, units[i].second);
    var rest := DecodeUnits(units[i + 1..]);
    assert DecodeUnits(units[i..]) == ("\n" + line) + rest;
    SeqFacts.Associative(prefix, "\n" + line, rest);
    SeqFacts.Associative(prefix, "\n", line);
  }
}
