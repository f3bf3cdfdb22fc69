/**
  The two register-name tables of the decoder: a 3-bit REG/RM selector is
  mapped to the name of a byte register (w = 0) or of a word register
  (w = 1), following the REG field encoding of the 8086.

  The tables are immutable map literals keyed by the numeric value of the
  selector byte, standing in for the lazily built `HashMap<u8, String>`
  constants of the intel8086 program.
 */
module Registers {

  /** The result of looking a key up in a table: absent or present. */
  datatype Option<+T> = None | Some(value: T)

  /** Names of the 8-bit registers (w = 0), by selector. */
  const ByteRegisters: map<int, string> :=
    map[0 := "al", 1 := "cl", 2 := "dl", 3 := "bl",
        4 := "ah", 5 := "ch", 6 := "dh", 7 := "bh"]

  /** Names of the 16-bit registers (w = 1), by selector. */
  const WordRegisters: map<int, string> :=
    map[0 := "ax", 1 := "cx", 2 := "dx", 3 := "bx",
        4 := "sp", 5 := "bp", 6 := "si", 7 := "di"]

  /** The table used for operand width flag `w`. */
  function Table(w: bool): map<int, string>
  {
    if w then WordRegisters else ByteRegisters
  }

  /** Looks `selector` up in the table for width `w`; absent keys give None. */
  function Lookup(w: bool, selector: bv8): (r: Option<string>)
    ensures r.Some? <==> selector < 8
    ensures r.Some? ==> |r.value| == 2 && SingleLine(r.value)
  {
    TablesTotal();
    NamesAreTwoCharacters(w);
    var table := Table(w);
    if selector as int in table then Some(table[selector as int]) else None
  }

  /** A selector below 8 is one of the eight 3-bit codes. */
  lemma SelectorCases(s: int)
    requires 0 <= s < 8
    ensures s == 0 || s == 1 || s == 2 || s == 3 || s == 4 || s == 5 || s == 6 || s == 7
  {
  }

  /** True iff `s` contains no line break. */
  predicate SingleLine(s: string)
  {
    forall i :: 0 <= i < |s| ==> s[i] != '\n'
  }

  /** Both tables are defined for exactly the selectors 0..7. */
  lemma TablesTotal()
    ensures forall s: int :: s in ByteRegisters <==> 0 <= s < 8
    ensures forall s: int :: s in WordRegisters <==> 0 <= s < 8
  {
    forall s: int | 0 <= s < 8
      ensures s in ByteRegisters && s in WordRegisters
    {
      SelectorCases(s);
    }
  }

  /** Within one width, distinct selectors name distinct registers. */
  lemma TablesInjective(w: bool)
    ensures forall s, t :: s in Table(w) && t in Table(w) && s != t ==> Table(w)[s] != Table(w)[t]
  {
    TablesTotal();
    forall s, t | s in Table(w) && t in Table(w) && s != t
      ensures Table(w)[s] != Table(w)[t]
    {
      SelectorCases(s);
      SelectorCases(t);
    }
  }

  /** Every register name in either table is exactly two characters long
      and is a single line of text. */
  lemma NamesAreTwoCharacters(w: bool)
    ensures forall s :: s in Table(w) ==> |Table(w)[s]| == 2 && SingleLine(Table(w)[s])
  {
    TablesTotal();
    forall s | s in Table(w)
      ensures |Table(w)[s]| == 2 && SingleLine(Table(w)[s])
    {
      SelectorCases(s);
    }
  }

  /** The byte registers are the halves of the first four word registers:
      selector s < 4 names the low byte ("l") and s >= 4 the high byte ("h")
      of the word register with selector s mod 4 (ax, cx, dx, bx). */
  lemma ByteRegistersAreHalves()
    ensures forall s :: s in ByteRegisters ==>
      s % 4 in WordRegisters && WordRegisters[s % 4][1] == 'x'
      && ByteRegisters[s] == [WordRegisters[s % 4][0], if s < 4 then 'l' else 'h']
  {
    TablesTotal();
    forall s | s in ByteRegisters
      ensures s % 4 in WordRegisters && WordRegisters[s % 4][1] == 'x'
      ensures ByteRegisters[s] == [WordRegisters[s % 4][0], if s < 4 then 'l' else 'h']
    {
      SelectorCases(s);
    }
  }

  /** The exact contents of both tables, selector by selector. */
  lemma TableContents()
    ensures Lookup(false, 0) == Some("al") && Lookup(false, 1) == Some("cl")
    ensures Lookup(false, 2) == Some("dl") && Lookup(false, 3) == Some("bl")
    ensures Lookup(false, 4) == Some("ah") && Lookup(false, 5) == Some("ch")
    ensures Lookup(false, 6) == Some("dh") && Lookup(false, 7) == Some("bh")
    ensures Lookup(true, 0) == Some("ax") && Lookup(true, 1) == Some("cx")
    ensures Lookup(true, 2) == Some("dx") && Lookup(true, 3) == Some("bx")
    ensures Lookup(true, 4) == Some("sp") && Lookup(true, 5) == Some("bp")
    ensures Lookup(true, 6) == Some("si") && Lookup(true, 7) == Some("di")
  {
  }
}
