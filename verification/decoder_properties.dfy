/**
  Properties of the decoder that relate several calls: units are decoded
  independently and in stream order, the direction flag and the
  addressing-mode field never influence the output, the register lookups
  never fail, and the unit test vector of the intel8086 program holds.
 */
module DecoderProperties {
  import Registers
  import Listing
  import opened Decoder
  import SeqFacts

  /** Neither operand selector can leave the register tables, at either
      width: the internal-consistency failure is unreachable. */
  lemma SelectorsNeverUndefined(data: bv8, w: bool)
    ensures ByteToRegister(FirstSelector(data), w).Success?
    ensures ByteToRegister(SecondSelector(data), w).Success?
  {
  }

  /** Splitting a buffer into units commutes with concatenation of
      even-length buffers. */
  lemma {:induction false} ChunksAppend(a: seq<bv8>, b: seq<bv8>)
    requires |a| % 2 == 0 && |b| % 2 == 0
    ensures |a + b| % 2 == 0
    ensures Chunks(a + b) == Chunks(a) + Chunks(b)
    decreases |a|
  {
    SeqFacts.EvenSum(|a|, |b|);
    if |a| == 0 {
      SeqFacts.AppendEmpty(b);
      SeqFacts.AppendEmpty(Chunks(b));
    } else {
      var ab := a + b;
      assert ab[2..] == a[2..] + b;
      SeqFacts.EvenSum(|a| - 2, 2);
      ChunksAppend(a[2..], b);
      var head := [Listing.Unit(a[0], a[1])];
      assert Chunks(ab) == head + (Chunks(a[2..]) + Chunks(b));
      SeqFacts.Associative(head, Chunks(a[2..]), Chunks(b));
    }
  }

  /** Decoding a concatenation of unit sequences concatenates their
      decodings: no unit influences another. */
  lemma {:induction false} DecodeUnitsAppend(us: seq<Listing.Unit>, vs: seq<Listing.Unit>)
    ensures DecodeUnits(us + vs) == DecodeUnits(us) + DecodeUnits(vs)
  {
    if |us| == 0 {
      SeqFacts.AppendEmpty(vs);
      SeqFacts.AppendEmpty(DecodeUnits(vs));
    } else {
      SeqFacts.DropOfAppend(us, vs);
      DecodeUnitsAppend(us[1..], vs);
      var line := DecodeUnit(us[0].first, us[0].second);
      SeqFacts.Associative("\n" + line, DecodeUnits(us[1..]), DecodeUnits(vs));
    }
  }

  /** A unit contributes exactly its own line, at its own place, whatever
      units come before or after it. */
  lemma DecodeUnitsAround(us: seq<Listing.Unit>, u: Listing.Unit, vs: seq<Listing.Unit>)
    ensures DecodeUnits(us + [u] + vs)
         == DecodeUnits(us) + ("\n" + Listing.UnitLine(u.first, u.second)) + DecodeUnits(vs)
  {
    DecodeUnitsAppend(us, [u]);
    DecodeUnitsAppend(us + [u], vs);
    SeqFacts.AppendEmpty(["\n" + Listing.UnitLine(u.first, u.second)]);
    assert [u][1..] == [];
    SeqFacts.AppendEmpty("\n" + Listing.UnitLine(u.first, u.second));
  }

  /** Splitting into units isolates the unit (b0, b1) from its neighbours. */
  lemma ChunksAround(before: seq<bv8>, b0: bv8, b1: bv8, after: seq<bv8>)
    requires |before| % 2 == 0 && |after| % 2 == 0
    ensures |before + [b0, b1] + after| % 2 == 0
    ensures Chunks(before + [b0, b1] + after) == Chunks(before) + [Listing.Unit(b0, b1)] + Chunks(after)
  {
    var unit: seq<bv8> := [b0, b1];
    SeqFacts.EvenSum(|before|, |unit|);
    ChunksAppend(before, unit);
    ChunksAppend(before + unit, after);
    assert Chunks(unit) == [Listing.Unit(b0, b1)];
  }

  /** The unit (b0, b1) contributes exactly its own line, at its own place,
      whatever comes before or after it in the buffer. */
  lemma UnitIsolation(before: seq<bv8>, b0: bv8, b1: bv8, after: seq<bv8>)
    requires |before| % 2 == 0 && |after| % 2 == 0
    ensures DecodeBuffer(before + [b0, b1] + after)
         == Success(Listing.Header + DecodeUnits(Chunks(before)) + "\n" + Listing.UnitLine(b0, b1)
                    + DecodeUnits(Chunks(after)))
  {
    var buffer := before + [b0, b1] + after;
    ChunksAround(before, b0, b1, after);
    DecodeUnitsAround(Chunks(before), Listing.Unit(b0, b1), Chunks(after));
    var header, prefix, suffix := Listing.Header, DecodeUnits(Chunks(before)), DecodeUnits(Chunks(after));
    var line := Listing.UnitLine(b0, b1);
    assert DecodeBuffer(buffer) == Success(header + ((prefix + ("\n" + line)) + suffix));
    SeqFacts.Associative(header, prefix + ("\n" + line), suffix);
    SeqFacts.Associative(header, prefix, "\n" + line);
    SeqFacts.Associative(header + prefix, "\n", line);
  }

  /** A unit with an unknown opcode is rendered as UNKNOWN with its two
      operands, and decoding carries on: the units before and after it
      decode exactly as they would on their own. */
  lemma UnknownOpcodeTolerated(before: seq<bv8>, b0: bv8, b1: bv8, after: seq<bv8>)
    requires |before| % 2 == 0 && |after| % 2 == 0
    requires !(0x88 <= b0 <= 0x8B)
    ensures DecodeUnit(b0, b1)
         == "UNKNOWN" + " " + DecodeFirstRegister(b1, GetWValue(b0)) + ", " + DecodeSecondRegister(b1, GetWValue(b0))
    ensures DecodeBuffer(before + [b0, b1] + after)
         == Success(Listing.Header + DecodeUnits(Chunks(before)) + "\n" + DecodeUnit(b0, b1) + DecodeUnits(Chunks(after)))
  {
    UnitIsolation(before, b0, b1, after);
  }

  /** Two units that differ at most in the direction flag (bit 1 of the
      first byte) and in the addressing mode (top two bits of the second
      byte) decode to the same line. */
  lemma UnitIgnoresDirectionAndMode(b0: bv8, b1: bv8, c0: bv8, c1: bv8)
    requires b0 | 0x02 == c0 | 0x02
    requires b1 & 0x3F == c1 & 0x3F
    ensures DecodeUnit(b0, b1) == DecodeUnit(c0, c1)
  {
    assert DecodeInstruction(b0) == DecodeInstruction(c0);
    assert GetWValue(b0) == GetWValue(c0);
    assert FirstSelector(b1) == FirstSelector(c1);
    assert SecondSelector(b1) == SecondSelector(c1);
  }

  /** Flipping the direction flag changes the extracted d value but not
      the rendered line: operands always appear R/M first, REG second. */
  lemma DirectionFlagInert(b0: bv8, b1: bv8)
    ensures GetDValue(b0 ^ 0x02) != GetDValue(b0)
    ensures DecodeUnit(b0 ^ 0x02, b1) == DecodeUnit(b0, b1)
  {
    UnitIgnoresDirectionAndMode(b0, b1, b0 ^ 0x02, b1);
  }

  /** Replacing the addressing mode by any other mode changes the extracted
      mode but not the rendered line: both fields are always read as
      register selectors. */
  lemma ModeFieldInert(b0: bv8, b1: bv8, mode: bv8)
    requires mode < 4
    ensures GetMod((b1 & 0x3F) | (mode << 6)) == mode
    ensures DecodeUnit(b0, (b1 & 0x3F) | (mode << 6)) == DecodeUnit(b0, b1)
  {
    UnitIgnoresDirectionAndMode(b0, b1, b0, (b1 & 0x3F) | (mode << 6));
  }

  /** True iff `a` and `b` have the same length and differ at most in the
      direction flags of first bytes and the mode fields of second bytes. */
  predicate SameUpToDirectionAndMode(a: seq<bv8>, b: seq<bv8>)
  {
    && |a| == |b|
    && (forall i :: 0 <= i < |a| && i % 2 == 0 ==> a[i] | 0x02 == b[i] | 0x02)
    && (forall i :: 0 <= i < |a| && i % 2 == 1 ==> a[i] & 0x3F == b[i] & 0x3F)
  }

  /** Unit sequences that differ only in direction flags and mode fields
      decode to the same text. */
  lemma {:induction false} UnitsIgnoreDirectionAndMode(us: seq<Listing.Unit>, vs: seq<Listing.Unit>)
    requires |us| == |vs|
    requires forall i :: 0 <= i < |us| ==> us[i].first | 0x02 == vs[i].first | 0x02
    requires forall i :: 0 <= i < |us| ==> us[i].second & 0x3F == vs[i].second & 0x3F
    ensures DecodeUnits(us) == DecodeUnits(vs)
  {
    if |us| > 0 {
      UnitIgnoresDirectionAndMode(us[0].first, us[0].second, vs[0].first, vs[0].second);
      UnitsIgnoreDirectionAndMode(us[1..], vs[1..]);
    }
  }

  /** Whole buffers that differ only in direction flags and mode fields
      decode to the same result, error or listing. */
  lemma BufferIgnoresDirectionAndMode(a: seq<bv8>, b: seq<bv8>)
    requires SameUpToDirectionAndMode(a, b)
    ensures DecodeBuffer(a) == DecodeBuffer(b)
  {
    if |a| > 0 && |a| % 2 == 0 {
      var us, vs := Chunks(a), Chunks(b);
      forall i | 0 <= i < |us|
        ensures us[i].first | 0x02 == vs[i].first | 0x02
        ensures us[i].second & 0x3F == vs[i].second & 0x3F
      {
        assert (2 * i) % 2 == 0 && (2 * i + 1) % 2 == 1;
      }
      UnitsIgnoreDirectionAndMode(us, vs);
    }
  }

  /** The unit test of the intel8086 program: 0x89 0xd9 is `mov cx, bx`. */
  lemma DecodeMovVector()
    ensures DecodeBuffer([0x89, 0xd9]) == Success("bits 16\n\nmov cx, bx")
  {
    assert Listing.Header + ("\n" + "mov cx, bx") == "bits 16\n\nmov cx, bx";
    MovVectorUnits();
  }

  /** The test vector is one unit, decoded to a single line after a line break. */
  lemma MovVectorUnits()
    ensures Chunks([0x89, 0xd9]) == [Listing.Unit(0x89, 0xd9)]
    ensures DecodeUnits(Chunks([0x89, 0xd9])) == "\n" + "mov cx, bx"
  {
    var unit := Listing.Unit(0x89, 0xd9);
    MovVectorUnit();
    assert Chunks([0x89, 0xd9]) == [unit];
    assert [unit][1..] == [];
    assert DecodeUnits([unit]) == "\n" + "mov cx, bx";
  }

  /** The line of the test vector's single unit. */
  lemma MovVectorUnit()
    ensures DecodeUnit(0x89, 0xd9) == "mov cx, bx"
  {
    assert DecodeInstruction(0x89) == "mov";
    assert GetWValue(0x89);
    assert DecodeFirstRegister(0xd9, true) == "cx";
    assert DecodeSecondRegister(0xd9, true) == "bx";
  }
}
