/** What the operator types, and what the approval handler makes of it: white space is trimmed off
    both ends and the rest is put in upper case. */
module Typing {
  import opened UserCodes

  /** The white space of Unicode. */
  predicate IsSpace(c: char) {
    '\t' <= c <= '\r' || c in " \U{0085}\U{00A0}\U{1680}\U{2028}\U{2029}\U{202F}\U{205F}\U{3000}"
    || '\U{2000}' <= c <= '\U{200A}'
  }

  /** They are these code points. */
  lemma SpacesAre(c: char)
    ensures var n := c as int;
            IsSpace(c) <==> 9 <= n <= 13 || n == 32 || n == 133 || n == 160 || n == 5760 || 8192 <= n <= 8202
                            || n == 8232 || n == 8233 || n == 8239 || n == 8287 || n == 12288
  {
  }

  /** Unicode's upper case: `other` stands for its table outside ASCII, where white space has no case. */
  function Upper(c: char, other: char -> char): char {
    if 'a' <= c <= 'z' then (c as int - 32) as char
    else if c < '\U{0080}' || IsSpace(c) then c
    else other(c)
  }

  function TrimLeft(s: string): string {
    if s != "" && IsSpace(s[0]) then TrimLeft(s[1..]) else s
  }

  function TrimRight(s: string): string {
    if s != "" && IsSpace(s[|s| - 1]) then TrimRight(s[..|s| - 1]) else s
  }

  function Trim(s: string): string {
    TrimRight(TrimLeft(s))
  }

  function ToUpper(s: string, other: char -> char): (r: string)
    ensures |r| == |s| && forall i :: 0 <= i < |r| ==> r[i] == Upper(s[i], other)
  {
    seq(|s|, i requires 0 <= i < |s| => Upper(s[i], other))
  }

  /** What the approval handler looks up. */
  function Normalize(typed: string, other: char -> char): string {
    ToUpper(Trim(typed), other)
  }

  // ----- what trimming does ----------------------------------------------------------------

  predicate AllSpace(s: string) {
    forall i :: 0 <= i < |s| ==> IsSpace(s[i])
  }

  /** Nothing to trim at either end. */
  predicate Bare(s: string) {
    s != "" ==> !IsSpace(s[0]) && !IsSpace(s[|s| - 1])
  }

  lemma {:induction false} TrimLeftOf(before: string, rest: string)
    requires AllSpace(before) && (rest != "" ==> !IsSpace(rest[0]))
    ensures TrimLeft(before + rest) == rest
  {
    hide IsSpace;
    if before == "" {
      assert before + rest == rest;
    } else {
      TrimLeftOf(before[1..], rest);
      assert (before + rest)[1..] == before[1..] + rest;
      assert (before + rest)[0] == before[0];
    }
  }

  lemma {:induction false} TrimRightOf(rest: string, after: string)
    requires AllSpace(after) && (rest != "" ==> !IsSpace(rest[|rest| - 1]))
    ensures TrimRight(rest + after) == rest
  {
    hide IsSpace;
    if after == "" {
      assert rest + after == rest;
    } else {
      var last := |after| - 1;
      TrimRightOf(rest, after[..last]);
      assert (rest + after)[..|rest| + last] == rest + after[..last];
      assert (rest + after)[|rest| + last] == after[last];
    }
  }

  lemma {:induction false} TrimLeftSplits(s: string) returns (before: string)
    ensures AllSpace(before) && s == before + TrimLeft(s)
    ensures TrimLeft(s) != "" ==> !IsSpace(TrimLeft(s)[0])
  {
    hide IsSpace;
    if s != "" && IsSpace(s[0]) {
      before := TrimLeftSplits(s[1..]);
      before := [s[0]] + before;
    } else {
      before := "";
    }
  }

  lemma {:induction false} TrimRightSplits(s: string) returns (after: string)
    requires s != "" ==> !IsSpace(s[0])
    ensures AllSpace(after) && s == TrimRight(s) + after && Bare(TrimRight(s))
  {
    hide IsSpace;
    if s != "" && IsSpace(s[|s| - 1]) {
      after := TrimRightSplits(s[..|s| - 1]);
      after := after + [s[|s| - 1]];
    } else {
      after := "";
    }
  }

  // ----- which typings are a code -------------------------------------------------------------

  /** The typed text is the code, up to case, between white space. */
  ghost predicate Types(typed: string, code: string, other: char -> char) {
    exists before, core, after ::
      typed == before + core + after && AllSpace(before) && AllSpace(after) && Spells(core, code, other)
  }

  ghost predicate Spells(core: string, code: string, other: char -> char) {
    |core| == |code| && forall i :: 0 <= i < |core| ==> Upper(core[i], other) == code[i]
  }

  /** A code has no white space, and white space has no upper case that is in a code. */
  lemma CodesHaveNoSpace(code: string, other: char -> char, c: char, i: nat)
    requires WellFormed(code) && i < |code| && Upper(c, other) == code[i]
    ensures !IsSpace(c)
  {
    hide IsSymbol;
    SymbolsAre(code[i]);
  }

  lemma LengthOf(code: string)
    requires WellFormed(code)
    ensures |code| == 9
  {
  }

  /** The handler finds a code exactly when what was typed is that code in any case, padded with
      any white space. */
  lemma NormalizesExactly(typed: string, code: string, other: char -> char)
    requires WellFormed(code)
    ensures Normalize(typed, other) == code <==> Types(typed, code, other)
  {
    hide IsSpace, Upper, WellFormed, Bare;
    if Normalize(typed, other) == code {
      var before := TrimLeftSplits(typed);
      var after := TrimRightSplits(TrimLeft(typed));
      assert typed == before + Trim(typed) + after;
      assert Spells(Trim(typed), code, other);
    }
    if Types(typed, code, other) {
      var before, core, after :|
        typed == before + core + after && AllSpace(before) && AllSpace(after) && Spells(core, code, other);
      assert |code| == 9 by { LengthOf(code); }
      CodesHaveNoSpace(code, other, core[0], 0);
      CodesHaveNoSpace(code, other, core[8], 8);
      TrimLeftOf(before, core + after);
      TrimRightOf(core, after);
      assert typed == before + (core + after);
    }
  }

  /** In ASCII a symbol is spelt by itself and by its small letter, and by nothing else; outside
      ASCII by what has it as its upper case. */
  lemma SymbolSpellings(c: char, x: char, other: char -> char)
    requires c == '-' || IsSymbol(c)
    ensures x as int < 128 ==> (Upper(x, other) == c <==> x == c || ('A' <= c <= 'Z' && x as int == c as int + 32))
    ensures 128 <= x as int ==> (Upper(x, other) == c <==> !IsSpace(x) && other(x) == c)
  {
    hide IsSymbol, IsSpace;
    SymbolsAre(c);
  }
}
