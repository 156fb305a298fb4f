/** A reference reading of the regular expression in `validateAddress`,
    `^(0x[a-fA-F0-9]{40}|(bc1|[13])[a-zA-HJ-NP-Z0-9]{25,39}|[1-9A-HJ-NP-Za-km-z]{32,44})$`,
    written as a small regular-expression syntax tree with a matching relation.
    Anchoring (`^…$`) means the whole string must match. */
module AddressPattern {
  import opened Addresses

  /** A bracket class such as `[a-fA-F0-9]`, as its list of ranges. */
  type Ranges = seq<(char, char)>

  datatype Regex =
    | Class(ranges: Ranges)                      // one character of a class
    | Lit(text: string)                          // a literal string
    | Cat(first: Regex, second: Regex)           // concatenation
    | Alt(left: Regex, right: Regex)             // alternation `|`
    | Repeat(body: Ranges, lo: nat, hi: nat)     // a class repeated `{lo,hi}` times

  predicate InRanges(rs: Ranges, c: char) {
    exists i :: 0 <= i < |rs| && rs[i].0 <= c <= rs[i].1
  }

  /** `r` matches the whole of `s`. */
  predicate Matches(r: Regex, s: string)
    decreases r
  {
    match r
    case Class(rs) => |s| == 1 && InRanges(rs, s[0])
    case Lit(t) => s == t
    case Cat(a, b) => exists k :: 0 <= k <= |s| && Matches(a, s[..k]) && Matches(b, s[k..])
    case Alt(a, b) => Matches(a, s) || Matches(b, s)
    case Repeat(rs, lo, hi) => lo <= |s| <= hi && forall i :: 0 <= i < |s| ==> InRanges(rs, s[i])
  }

  const HexRanges: Ranges := [('a', 'f'), ('A', 'F'), ('0', '9')]
  const TailRanges: Ranges := [('a', 'z'), ('A', 'H'), ('J', 'N'), ('P', 'Z'), ('0', '9')]
  const OneOrThree: Ranges := [('1', '1'), ('3', '3')]
  const Base58Ranges: Ranges := [('1', '9'), ('A', 'H'), ('J', 'N'), ('P', 'Z'), ('a', 'k'), ('m', 'z')]

  /** The three alternatives of the address pattern. */
  const HexBranch: Regex := Cat(Lit("0x"), Repeat(HexRanges, 40, 40))
  const PrefixedBranch: Regex := Cat(Alt(Lit("bc1"), Class(OneOrThree)), Repeat(TailRanges, 25, 39))
  const Base58Branch: Regex := Repeat(Base58Ranges, 32, 44)
  const AddressRegex: Regex := Alt(HexBranch, Alt(PrefixedBranch, Base58Branch))

  lemma HexClass(c: char)
    ensures InRanges(HexRanges, c) <==> IsHexDigit(c)
  {
    if IsHexDigit(c) {
      if 'a' <= c <= 'f' { assert HexRanges[0].0 <= c <= HexRanges[0].1; }
      else if 'A' <= c <= 'F' { assert HexRanges[1].0 <= c <= HexRanges[1].1; }
      else { assert HexRanges[2].0 <= c <= HexRanges[2].1; }
    }
  }

  lemma TailClass(c: char)
    ensures InRanges(TailRanges, c) <==> IsTailChar(c)
  {
    if IsTailChar(c) {
      if 'a' <= c <= 'z' { assert TailRanges[0].0 <= c <= TailRanges[0].1; }
      else if 'A' <= c <= 'H' { assert TailRanges[1].0 <= c <= TailRanges[1].1; }
      else if 'J' <= c <= 'N' { assert TailRanges[2].0 <= c <= TailRanges[2].1; }
      else if 'P' <= c <= 'Z' { assert TailRanges[3].0 <= c <= TailRanges[3].1; }
      else { assert TailRanges[4].0 <= c <= TailRanges[4].1; }
    }
  }

  lemma Base58Class(c: char)
    ensures InRanges(Base58Ranges, c) <==> IsBase58Char(c)
  {
    if IsBase58Char(c) {
      if '1' <= c <= '9' { assert Base58Ranges[0].0 <= c <= Base58Ranges[0].1; }
      else if 'A' <= c <= 'H' { assert Base58Ranges[1].0 <= c <= Base58Ranges[1].1; }
      else if 'J' <= c <= 'N' { assert Base58Ranges[2].0 <= c <= Base58Ranges[2].1; }
      else if 'P' <= c <= 'Z' { assert Base58Ranges[3].0 <= c <= Base58Ranges[3].1; }
      else if 'a' <= c <= 'k' { assert Base58Ranges[4].0 <= c <= Base58Ranges[4].1; }
      else { assert Base58Ranges[5].0 <= c <= Base58Ranges[5].1; }
    }
  }

  lemma OneOrThreeClass(c: char)
    ensures InRanges(OneOrThree, c) <==> c == '1' || c == '3'
  {
    if c == '1' { assert OneOrThree[0].0 <= c <= OneOrThree[0].1; }
    if c == '3' { assert OneOrThree[1].0 <= c <= OneOrThree[1].1; }
  }

  /** A class repeated `{lo,hi}` times matches exactly the strings of that length
      whose every character is in the class. */
  lemma HexRun(s: string)
    ensures Matches(Repeat(HexRanges, 40, 40), s) <==> |s| == 40 && AllHex(s)
  {
    forall i | 0 <= i < |s| ensures InRanges(HexRanges, s[i]) <==> IsHexDigit(s[i]) {
      HexClass(s[i]);
    }
  }

  lemma TailRun(s: string)
    ensures Matches(Repeat(TailRanges, 25, 39), s) <==> 25 <= |s| <= 39 && AllTail(s)
  {
    forall i | 0 <= i < |s| ensures InRanges(TailRanges, s[i]) <==> IsTailChar(s[i]) {
      TailClass(s[i]);
    }
  }

  lemma HexBranchMatches(s: string)
    ensures Matches(HexBranch, s) <==> IsHexShape(s)
  {
    if |s| >= 2 { HexRun(s[2..]); }
    if Matches(HexBranch, s) {
      var k :| 0 <= k <= |s| && Matches(Lit("0x"), s[..k]) && Matches(Repeat(HexRanges, 40, 40), s[k..]);
      assert k == 2;
    }
    if IsHexShape(s) {
      assert Matches(Lit("0x"), s[..2]);
    }
  }

  lemma PrefixedBranchMatches(s: string)
    ensures Matches(PrefixedBranch, s) <==> IsPrefixedShape(s)
  {
    var head := Alt(Lit("bc1"), Class(OneOrThree));
    var tail := Repeat(TailRanges, 25, 39);
    if Matches(PrefixedBranch, s) {
      var k :| 0 <= k <= |s| && Matches(head, s[..k]) && Matches(tail, s[k..]);
      TailRun(s[k..]);
      if s[..k] == "bc1" {
        assert k == 3;
      } else {
        assert k == 1 && InRanges(OneOrThree, s[..k][0]);
        OneOrThreeClass(s[0]);
      }
    }
    if IsPrefixedShape(s) {
      if |s| >= 3 && s[..3] == "bc1" && 25 <= |s| - 3 <= 39 && AllTail(s[3..]) {
        TailRun(s[3..]);
        assert Matches(head, s[..3]) && Matches(tail, s[3..]);
      } else {
        TailRun(s[1..]);
        OneOrThreeClass(s[0]);
        assert s[..1][0] == s[0];
        assert Matches(head, s[..1]) && Matches(tail, s[1..]);
      }
    }
  }

  lemma Base58BranchMatches(s: string)
    ensures Matches(Base58Branch, s) <==> IsBase58Shape(s)
  {
    forall i | 0 <= i < |s| ensures InRanges(Base58Ranges, s[i]) <==> IsBase58Char(s[i]) {
      Base58Class(s[i]);
    }
  }

  /** The regular expression, read literally, accepts exactly the strings
      `ValidAddress` accepts. */
  lemma AddressRegexIsValidAddress(s: string)
    ensures Matches(AddressRegex, s) <==> ValidAddress(s)
  {
    HexBranchMatches(s);
    PrefixedBranchMatches(s);
    Base58BranchMatches(s);
  }
}
