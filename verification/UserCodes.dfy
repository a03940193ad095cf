/** The codes an operator types: how they are drawn from random bytes, and how what was typed is
    brought back to one. */
module UserCodes {

  type Byte = b: int | 0 <= b < 256
  type ThreeBits = b: int | 0 <= b < 8

  /** Crockford's digits: no I, L, O or U. */
  const ALPHABET: string := FIGURES + LETTERS

  const FIGURES: string := "0123456789"
  const LETTERS: string := "ABCDEFGHJKMNPQRSTVWXYZ"

  // ----- drawing a code -------------------------------------------------------------------

  /** The symbol for a value of five bits. */
  function Symbol(v: int): char
    requires 0 <= v < 32
  {
    ALPHABET[v]
  }

  /** The symbol a byte is turned into: its low five bits choose it. */
  function Digit(b: Byte): char {
    Symbol(b % 32)
  }

  predicate IsSymbol(c: char) {
    c in ALPHABET
  }

  /** Where byte i's digit stands: after the fourth comes the dash. */
  function Place(i: int): int {
    if i < 4 then i else i + 1
  }

  /** The code drawn from eight bytes, said by places. */
  ghost predicate IsCodeOf(code: string, bytes: seq<Byte>)
    requires |bytes| == 8
  {
    |code| == 9 && code[4] == '-' && forall i :: 0 <= i < 8 ==> code[Place(i)] == Digit(bytes[i])
  }

  method RandomUserCode(bytes: array<Byte>) returns (code: string)
    requires bytes.Length == 8
    ensures IsCodeOf(code, bytes[..])
  {
    hide Digit;
    var out := new char[9];
    for i := 0 to 4
      invariant forall k :: 0 <= k < i ==> out[k] == Digit(bytes[k])
    {
      out[i] := Digit(bytes[i]);
    }
    out[4] := '-';
    for i := 0 to 4
      invariant forall k :: 0 <= k < 4 ==> out[k] == Digit(bytes[k])
      invariant out[4] == '-'
      invariant forall k :: 5 <= k < 5 + i ==> out[k] == Digit(bytes[k - 1])
    {
      out[5 + i] := Digit(bytes[4 + i]);
    }
    code := out[..];
  }

  // ----- the drawing loses exactly three bits a byte ------------------------------------------

  ghost predicate WellFormed(code: string) {
    |code| == 9 && code[4] == '-' && forall i :: 0 <= i < 9 && i != 4 ==> IsSymbol(code[i])
  }

  /** The bits of each byte that the code does not show. */
  function Discarded(bytes: seq<Byte>): (r: seq<ThreeBits>)
    ensures |r| == |bytes| && forall i :: 0 <= i < |r| ==> r[i] == bytes[i] / 32
  {
    seq(|bytes|, i requires 0 <= i < |bytes| => bytes[i] / 32)
  }

  /** The value of a digit. */
  ghost function ValueOf(c: char): (v: int)
    requires IsSymbol(c)
    ensures 0 <= v < 32 && Symbol(v) == c
  {
    var v :| 0 <= v < |ALPHABET| && ALPHABET[v] == c; v
  }

  /** The symbols are the figures and the capitals other than I, L, O and U. */
  lemma SymbolsAre(c: char)
    ensures IsSymbol(c) <==> '0' <= c <= '9' || ('A' <= c <= 'Z' && c !in "ILOU")
  {
    FiguresAre(c);
    LettersAre(c);
    SymbolIs(c);
    hide IsSymbol;
  }

  lemma SymbolIs(c: char)
    ensures IsSymbol(c) <==> IsFigure(c) || IsLetter(c)
  {
    var figures, letters := FIGURES, LETTERS;
    assert c in figures + letters <==> c in figures || c in letters;
  }

  predicate IsFigure(c: char) {
    c in FIGURES
  }

  predicate IsLetter(c: char) {
    c in LETTERS
  }

  lemma FiguresAre(c: char)
    ensures IsFigure(c) <==> '0' <= c <= '9'
  {
  }

  lemma LettersAre(c: char)
    ensures IsLetter(c) <==> 'A' <= c <= 'Z' && c !in "ILOU"
  {
  }

  /** Every symbol comes after the one before. */
  lemma SymbolsRise(v: int, w: int)
    requires 0 <= v < w < 32
    ensures Symbol(v) < Symbol(w)
    decreases w
  {
    NextRises(w - 1);
    if v < w - 1 {
      hide Symbol;
      SymbolsRise(v, w - 1);
    }
  }

  lemma NextRises(v: int)
    requires 0 <= v < 31
    ensures Symbol(v) < Symbol(v + 1)
  {
  }

  /** Every value has a symbol, and no other value has the same. */
  lemma SymbolsDiffer()
    ensures forall v :: 0 <= v < 32 ==> IsSymbol(Symbol(v)) && ValueOf(Symbol(v)) == v
  {
    forall v | 0 <= v < 32 ensures IsSymbol(Symbol(v)) && ValueOf(Symbol(v)) == v {
      HasValue(v);
    }
  }

  lemma SymbolOccurs(v: int)
    requires 0 <= v < 32
    ensures IsSymbol(Symbol(v))
  {
  }

  lemma HasValue(v: int)
    requires 0 <= v < 32
    ensures IsSymbol(Symbol(v)) && ValueOf(Symbol(v)) == v
  {
    SymbolOccurs(v);
    hide Symbol, IsSymbol;
    var w := ValueOf(Symbol(v));
    if w < v {
      SymbolsRise(w, v);
    } else if v < w {
      SymbolsRise(v, w);
    }
  }

  /** The bytes that give the code and lose these bits. */
  ghost function Undrawn(code: string, high: seq<ThreeBits>): (bytes: seq<Byte>)
    requires WellFormed(code) && |high| == 8
    ensures |bytes| == 8 && forall i :: 0 <= i < 8 ==> bytes[i] == 32 * high[i] + ValueOf(code[Place(i)])
  {
    seq(8, i requires 0 <= i < 8 => 32 * high[i] + ValueOf(code[Place(i)]))
  }

  lemma JoinAndSplit(high: int, low: int)
    requires 0 <= low < 32
    ensures (32 * high + low) / 32 == high && (32 * high + low) % 32 == low
  {
  }

  /** Every well-formed code and every choice of discarded bits comes from some bytes... */
  lemma UndrawnDraws(code: string, high: seq<ThreeBits>)
    requires WellFormed(code) && |high| == 8
    ensures IsCodeOf(code, Undrawn(code, high)) && Discarded(Undrawn(code, high)) == high
  {
    hide Symbol, IsSymbol;
    var bytes := Undrawn(code, high);
    forall i | 0 <= i < 8 ensures code[Place(i)] == Digit(bytes[i]) && bytes[i] / 32 == high[i] {
      JoinAndSplit(high[i], ValueOf(code[Place(i)]));
    }
  }

  /** ... and from no others; what is drawn is always well formed. */
  lemma DrawnUndraws(code: string, bytes: seq<Byte>)
    requires |bytes| == 8 && IsCodeOf(code, bytes)
    ensures WellFormed(code) && Undrawn(code, Discarded(bytes)) == bytes
  {
    hide Symbol, IsSymbol;
    SymbolsDiffer();
    forall i | 0 <= i < 9 && i != 4 ensures IsSymbol(code[i]) {
      var k := if i < 4 then i else i - 1;
      assert code[Place(k)] == Digit(bytes[k]);
    }
  }

  // ----- how many drawings give one code --------------------------------------------------

  function Power(base: nat, n: nat): nat {
    if n == 0 then 1 else base * Power(base, n - 1)
  }

  /** All choices of n times three bits. */
  ghost function Choices(n: nat): set<seq<ThreeBits>> {
    if n == 0 then {[]}
    else set first: ThreeBits, rest | rest in Choices(n - 1) && 0 <= first < 8 :: Prefixed(first, rest)
  }

  lemma {:induction false} ChoicesAreAll(n: nat, high: seq<ThreeBits>)
    ensures high in Choices(n) <==> |high| == n
  {
    if n > 0 && |high| > 0 {
      ChoicesAreAll(n - 1, high[1..]);
      assert high == Prefixed(high[0], high[1..]);
    }
    if n > 0 && high in Choices(n) {
      var first: ThreeBits, rest :| rest in Choices(n - 1) && high == Prefixed(first, rest);
      ChoicesAreAll(n - 1, rest);
    }
  }

  /** Sets in one-to-one correspondence have as many elements. */
  lemma {:induction false} SameSize<X(!new), Y(!new)>(xs: set<X>, ys: set<Y>, f: X -> Y, g: Y -> X)
    requires forall x :: x in xs ==> f(x) in ys && g(f(x)) == x
    requires forall y :: y in ys ==> g(y) in xs && f(g(y)) == y
    ensures |xs| == |ys|
    decreases xs
  {
    if xs == {} {
      assert ys == {};
    } else {
      var x :| x in xs;
      SameSize(xs - {x}, ys - {f(x)}, f, g);
    }
  }

  /** The choices that begin with one of the first k. */
  ghost function Beginning(n: nat, k: nat): set<seq<ThreeBits>>
    requires n > 0 && k <= 8
  {
    set first: ThreeBits, rest | rest in Choices(n - 1) && 0 <= first < k :: Prefixed(first, rest)
  }

  function Prefixed(first: ThreeBits, rest: seq<ThreeBits>): (r: seq<ThreeBits>)
    ensures |r| == |rest| + 1 && r[0] == first && r[1..] == rest
  {
    [first] + rest
  }

  ghost function PrefixedAll(first: ThreeBits, rests: set<seq<ThreeBits>>): set<seq<ThreeBits>> {
    set rest | rest in rests :: Prefixed(first, rest)
  }

  lemma PrefixedCount(first: ThreeBits, rests: set<seq<ThreeBits>>)
    ensures |PrefixedAll(first, rests)| == |rests|
  {
    SameSize(rests, PrefixedAll(first, rests), rest => Prefixed(first, rest),
             (high: seq<ThreeBits>) => if high == [] then [] else high[1..]);
  }

  lemma BeginningGrows(n: nat, k: nat)
    requires n > 0 && 0 < k <= 8
    ensures Beginning(n, k) == Beginning(n, k - 1) + PrefixedAll(k - 1, Choices(n - 1))
    ensures Beginning(n, k - 1) !! PrefixedAll(k - 1, Choices(n - 1))
  {
    hide Choices, Prefixed;
  }

  lemma OneTimeMore(k: int, c: int)
    ensures (k - 1) * c + c == k * c
  {
  }

  lemma {:induction false} BeginningCount(n: nat, k: nat)
    requires n > 0 && k <= 8
    ensures |Beginning(n, k)| == k * |Choices(n - 1)|
    decreases k
  {
    if k == 0 {
      assert Beginning(n, k) == {};
    } else {
      hide *;
      BeginningCount(n, k - 1);
      BeginningGrows(n, k);
      PrefixedCount(k - 1, Choices(n - 1));
      OneTimeMore(k, |Choices(n - 1)|);
    }
  }

  lemma {:induction false} ChoicesCount(n: nat)
    ensures |Choices(n)| == Power(8, n)
  {
    if n > 0 {
      ChoicesCount(n - 1);
      BeginningCount(n, 8);
      assert Choices(n) == Beginning(n, 8);
    }
  }

  /** The drawings that give the code. */
  ghost function Drawings(code: string): set<seq<Byte>>
    requires WellFormed(code)
  {
    set high | high in Choices(8) :: UndrawnOr(code, high)
  }

  ghost function UndrawnOr(code: string, high: seq<ThreeBits>): seq<Byte>
    requires WellFormed(code)
  {
    if |high| == 8 then Undrawn(code, high) else []
  }

  lemma EightPowers()
    ensures Power(8, 8) == 16_777_216
  {
  }

  lemma DrawingsAreAll(code: string, bytes: seq<Byte>)
    requires WellFormed(code)
    ensures bytes in Drawings(code) <==> |bytes| == 8 && IsCodeOf(code, bytes)
  {
    hide Choices, IsCodeOf;
    if bytes in Drawings(code) {
      var high :| high in Choices(8) && bytes == UndrawnOr(code, high);
      ChoicesAreAll(8, high);
      UndrawnDraws(code, high);
    }
    if |bytes| == 8 && IsCodeOf(code, bytes) {
      DrawnUndraws(code, bytes);
      ChoicesAreAll(8, Discarded(bytes));
      assert bytes == UndrawnOr(code, Discarded(bytes));
    }
  }

  lemma DrawingsCount(code: string)
    requires WellFormed(code)
    ensures |Drawings(code)| == |Choices(8)|
  {
    hide Choices, IsCodeOf;
    forall high | high in Choices(8)
      ensures UndrawnOr(code, high) in Drawings(code) && Discarded(UndrawnOr(code, high)) == high
    {
      ChoicesAreAll(8, high);
      UndrawnDraws(code, high);
    }
    SameSize(Choices(8), Drawings(code), high => UndrawnOr(code, high), Discarded);
  }

  /** Exactly 8 ^ 8 of the 256 ^ 8 byte strings give any one well-formed code. */
  lemma EveryCodeEquallyLikely(code: string)
    requires WellFormed(code)
    ensures forall bytes: seq<Byte> :: bytes in Drawings(code) <==> |bytes| == 8 && IsCodeOf(code, bytes)
    ensures |Drawings(code)| == Power(8, 8) == 16_777_216
  {
    hide *;
    forall bytes: seq<Byte> {
      DrawingsAreAll(code, bytes);
    }
    DrawingsCount(code);
    ChoicesCount(8);
    EightPowers();
  }
}
