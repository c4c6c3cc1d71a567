/**
 * The two identifier helpers of the handler, with their random and clock
 * inputs passed in: `generateProofId(type)` and `generateMockHash()`.
 */
module Identifiers {
  import opened Wrappers
  import opened Text

  /** One draw of `Math.floor(Math.random() * 16)`. */
  type Nibble = n: nat | n < 16

  /** The 64 draws one call of `generateMockHash` makes. */
  type HashDraw = s: seq<Nibble> | |s| == 64 witness seq(64, _ => 0)

  predicate IsBase36Digit(c: char) {
    '0' <= c <= '9' || 'a' <= c <= 'z'
  }

  /**
   * `Math.random().toString(36).substr(2, 9)`: the digits after "0." of a
   * base-36 fraction, at most nine of them.
   */
  type RandomSuffix = s: string | |s| <= 9 && forall i :: 0 <= i < |s| ==> IsBase36Digit(s[i])

  /** `${type}_proof_${Date.now()}_${suffix}`. */
  function ProofId(kind: string, ms: nat, suffix: RandomSuffix): string {
    kind + "_proof_" + NatText(ms) + "_" + suffix
  }

  datatype ProofIdParts = ProofIdParts(kind: string, ms: nat, suffix: string)

  /**
   * Splits an identifier at its first '_' into the type name and the rest,
   * which ParseStamp reads.
   */
  function ParseProofId(id: string): Option<ProofIdParts> {
    var i := IndexOf(id, '_');
    if i == |id| then None
    else
      match ParseStamp(id[i + 1..])
      case None => None
      case Some(stamp) => Some(ProofIdParts(id[..i], stamp.0, stamp.1))
  }

  /** Reads "proof_", then a decimal numeral ending at the next '_', then the suffix. */
  function ParseStamp(rest: string): Option<(nat, string)> {
    if !StartsWith(rest, "proof_") then None
    else
      var tail := rest[6..];
      var j := IndexOf(tail, '_');
      if j == |tail| then None
      else
        match ParseNat(tail[..j])
        case None => None
        case Some(ms) => Some((ms, tail[j + 1..]))
  }

  lemma ParseStampRoundTrip(ms: nat, suffix: string)
    ensures ParseStamp("proof_" + NatText(ms) + "_" + suffix) == Some((ms, suffix))
  {
    var digits := NatText(ms);
    var rest := "proof_" + digits + "_" + suffix;
    var tail := digits + ['_'] + suffix;
    assert rest[..6] == "proof_";
    assert rest[6..] == tail;
    assert '_' !in digits by {
      forall k | 0 <= k < |digits| ensures digits[k] != '_' {
        assert IsDigit(digits[k]);
      }
    }
    IndexOfAfter(digits, '_', suffix);
    assert tail[..|digits|] == digits;
    assert tail[|digits| + 1..] == suffix;
    NatTextRoundTrip(ms);
  }

  /** A type name without '_' and the clock and random inputs are all recovered from the identifier. */
  lemma ProofIdRoundTrip(kind: string, ms: nat, suffix: RandomSuffix)
    requires '_' !in kind
    ensures ParseProofId(ProofId(kind, ms, suffix)) == Some(ProofIdParts(kind, ms, suffix))
  {
    var rest := "proof_" + NatText(ms) + "_" + suffix;
    var id := ProofId(kind, ms, suffix);
    assert id == kind + ['_'] + rest;
    IndexOfAfter(kind, '_', rest);
    assert id[|kind| + 1..] == rest;
    assert id[..|kind|] == kind;
    ParseStampRoundTrip(ms, suffix);
  }

  /** Equal identifiers come from equal inputs: type name, clock reading and random suffix. */
  lemma ProofIdInjective(k1: string, m1: nat, s1: RandomSuffix, k2: string, m2: nat, s2: RandomSuffix)
    requires '_' !in k1 && '_' !in k2
    ensures ProofId(k1, m1, s1) == ProofId(k2, m2, s2) <==> k1 == k2 && m1 == m2 && s1 == s2
  {
    ProofIdRoundTrip(k1, m1, s1);
    ProofIdRoundTrip(k2, m2, s2);
  }

  /** The text before the first '_' of an identifier is the type name it was made for. */
  lemma ProofIdLeadsWithKind(kind: string, ms: nat, suffix: RandomSuffix)
    requires '_' !in kind
    ensures StartsWith(ProofId(kind, ms, suffix), kind + "_proof_")
    ensures ProofId(kind, ms, suffix)[..IndexOf(ProofId(kind, ms, suffix), '_')] == kind
  {
    var id := ProofId(kind, ms, suffix);
    assert id == kind + ['_'] + ("proof_" + NatText(ms) + "_" + suffix);
    IndexOfAfter(kind, '_', "proof_" + NatText(ms) + "_" + suffix);
    assert id[..|kind + "_proof_"|] == kind + "_proof_";
    assert id[..|kind|] == kind;
  }

  predicate IsLowerHex(c: char) {
    '0' <= c <= '9' || 'a' <= c <= 'f'
  }

  /** `n.toString(16)` for a single nibble: a lower-case hexadecimal digit. */
  function HexDigit(n: Nibble): (c: char)
    ensures IsLowerHex(c)
  {
    if n < 10 then ('0' as int + n) as char else ('a' as int + n - 10) as char
  }

  function HexValue(c: char): (n: Nibble)
    requires IsLowerHex(c)
    ensures HexDigit(n) == c
  {
    if c <= '9' then c as int - '0' as int else c as int - 'a' as int + 10
  }

  /** `generateMockHash()` with its 64 random draws passed in. */
  function MockHash(draw: HashDraw): (h: string)
    ensures |h| == 64
    ensures forall i :: 0 <= i < |h| ==> IsLowerHex(h[i])
  {
    seq(64, i requires 0 <= i < 64 => HexDigit(draw[i]))
  }

  /** Reads a string of lower-case hexadecimal digits back into nibbles. */
  function ParseHex(h: string): (r: Option<seq<Nibble>>)
    ensures r.Some? ==> |r.value| == |h|
  {
    if forall i :: 0 <= i < |h| ==> IsLowerHex(h[i]) then
      Some(seq(|h|, i requires 0 <= i < |h| => HexValue(h[i])))
    else
      None
  }

  /** The mock Merkle root loses nothing: its draws can be read back from it. */
  lemma MockHashRoundTrip(draw: HashDraw)
    ensures ParseHex(MockHash(draw)) == Some(draw)
  {
    var h := MockHash(draw);
    var back := seq(|h|, i requires 0 <= i < |h| => HexValue(h[i]));
    forall i | 0 <= i < 64 ensures back[i] == draw[i] {
      var d := draw[i];
      assert h[i] == HexDigit(d);
      assert back[i] == HexValue(HexDigit(d)) == d;
    }
    assert back == draw;
  }
}
