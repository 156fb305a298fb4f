/** The wallet-address shapes accepted by `validateAddress`, and the fake
    addresses `generateAddress` shows in the scan feed. No checksum is involved:
    validity is a matter of characters and lengths only. */
module Addresses {
  import opened Draws

  predicate IsAsciiAlnum(c: char) {
    '0' <= c <= '9' || 'a' <= c <= 'z' || 'A' <= c <= 'Z'
  }

  /** `[a-fA-F0-9]` */
  predicate IsHexDigit(c: char) {
    'a' <= c <= 'f' || 'A' <= c <= 'F' || '0' <= c <= '9'
  }

  /** `[1-9A-HJ-NP-Za-km-z]`: the Base58 alphabet, which is the ASCII letters and
      digits without the look-alikes 0, O, I and l. */
  predicate IsBase58Char(c: char): (b: bool)
    ensures b <==> IsAsciiAlnum(c) && c != '0' && c != 'O' && c != 'I' && c != 'l'
  {
    '1' <= c <= '9' || 'A' <= c <= 'H' || 'J' <= c <= 'N' || 'P' <= c <= 'Z'
    || 'a' <= c <= 'k' || 'm' <= c <= 'z'
  }

  /** `[a-zA-HJ-NP-Z0-9]`: the characters allowed after a `bc1`, `1` or `3` prefix,
      which is the ASCII letters and digits without the capitals I and O. */
  predicate IsTailChar(c: char): (b: bool)
    ensures b <==> IsAsciiAlnum(c) && c != 'I' && c != 'O'
  {
    'a' <= c <= 'z' || 'A' <= c <= 'H' || 'J' <= c <= 'N' || 'P' <= c <= 'Z'
    || '0' <= c <= '9'
  }

  predicate AllHex(s: string) {
    forall i :: 0 <= i < |s| ==> IsHexDigit(s[i])
  }

  predicate AllBase58(s: string) {
    forall i :: 0 <= i < |s| ==> IsBase58Char(s[i])
  }

  predicate AllTail(s: string) {
    forall i :: 0 <= i < |s| ==> IsTailChar(s[i])
  }

  /** `0x[a-fA-F0-9]{40}`: an Ethereum-style hex address. */
  predicate IsHexShape(s: string) {
    |s| == 42 && s[..2] == "0x" && AllHex(s[2..])
  }

  /** `(bc1|[13])[a-zA-HJ-NP-Z0-9]{25,39}`: a Bitcoin-style address with a
      Bech32 (`bc1`) or Base58 (`1`, `3`) prefix. */
  predicate IsPrefixedShape(s: string) {
    || (|s| >= 3 && s[..3] == "bc1" && 25 <= |s| - 3 <= 39 && AllTail(s[3..]))
    || (|s| >= 1 && (s[0] == '1' || s[0] == '3') && 25 <= |s| - 1 <= 39 && AllTail(s[1..]))
  }

  /** `[1-9A-HJ-NP-Za-km-z]{32,44}`: a bare Base58 string. */
  predicate IsBase58Shape(s: string) {
    32 <= |s| <= 44 && AllBase58(s)
  }

  /** `validateAddress`: the whole string has one of the three shapes. Every
      accepted string is 26 to 44 ASCII letters and digits long. */
  predicate ValidAddress(s: string): (b: bool)
    ensures b ==> 26 <= |s| <= 44
    ensures b ==> forall i :: 0 <= i < |s| ==> IsAsciiAlnum(s[i])
  {
    IsHexShape(s) || IsPrefixedShape(s) || IsBase58Shape(s)
  }

  /** The digits `generateAddress` draws from. */
  const GeneratorChars: string := "abcdef0123456789"

  /** What `generateAddress` produces: `0x` and 38 lower-case hex digits. */
  predicate IsGenerated(a: string) {
    |a| == 40 && a[..2] == "0x" && forall i :: 2 <= i < 40 ==> a[i] in GeneratorChars
  }

  /** A generated feed address is 40 characters long and starts with `0`, so it is
      two digits short of the hex shape and can start neither a prefixed nor a
      Base58 address. */
  lemma GeneratedIsNeverValid(a: string)
    requires IsGenerated(a)
    ensures !ValidAddress(a)
  {
    assert a[0] == '0' by { assert a[..2][0] == a[0]; }
    assert !IsBase58Char(a[0]);
  }

  /** `generateAddress`: `0x` followed by 38 characters, the i-th picked from
      `GeneratorChars` by the i-th random draw. */
  method GenerateAddress(draws: seq<real>) returns (addr: string)
    requires |draws| == 38
    requires forall i :: 0 <= i < |draws| ==> 0.0 <= draws[i] < 1.0
    ensures |addr| == 40 && addr[..2] == "0x"
    ensures forall i :: 2 <= i < 40 ==> addr[i] == GeneratorChars[Pick(draws[i - 2], 16)]
    ensures IsGenerated(addr)
    ensures !ValidAddress(addr)
  {
    addr := "0x";
    for i := 0 to 38
      invariant |addr| == 2 + i && addr[..2] == "0x"
      invariant forall j :: 2 <= j < 2 + i ==> addr[j] == GeneratorChars[Pick(draws[j - 2], 16)]
    {
      addr := addr + [GeneratorChars[Pick(draws[i], |GeneratorChars|)]];
    }
    assert IsGenerated(addr);
    GeneratedIsNeverValid(addr);
  }

  /** A string such as `not-an-address` is rejected: it has none of the shapes. */
  lemma NotAnAddressIsInvalid()
    ensures !ValidAddress("not-an-address")
  {
    var s := "not-an-address";
    assert !IsBase58Char(s[3]);
  }
}
