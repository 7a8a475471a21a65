/** UTF-8, and cutting text to a number of bytes without splitting a character. */
module Utf8 {
  type Byte = b: int | 0 <= b < 256

  /** A character's bytes (section 3 of RFC 3629). */
  function Encode(c: char): (bs: seq<Byte>)
    ensures 1 <= |bs| <= 4
  {
    var r := c as int;
    if r < 0x80 then [r]
    else if r < 0x800 then [0xC0 + r / 64, 0x80 + r % 64]
    else if r < 0x10000 then [0xE0 + r / 4096, 0x80 + r / 64 % 64, 0x80 + r % 64]
    else [0xF0 + r / 262144, 0x80 + r / 4096 % 64, 0x80 + r / 64 % 64, 0x80 + r % 64]
  }

  /** A byte that starts a character: any but a continuation byte. */
  predicate RuneStart(b: Byte) {
    !(0x80 <= b < 0xC0)
  }

  lemma StartAndRest(c: char)
    ensures RuneStart(Encode(c)[0]) && forall i :: 0 < i < |Encode(c)| ==> !RuneStart(Encode(c)[i])
  {}

  function EncodeAll(s: string): seq<Byte> {
    if s == "" then [] else EncodeAll(s[..|s| - 1]) + Encode(s[|s| - 1])
  }

  lemma {:induction false} EncodeConcat(a: string, b: string)
    ensures EncodeAll(a + b) == EncodeAll(a) + EncodeAll(b)
  {
    if b == "" {
      assert a + b == a;
    } else {
      assert (a + b)[..|a + b| - 1] == a + b[..|b| - 1];
      EncodeConcat(a, b[..|b| - 1]);
    }
  }

  lemma EncodePrefix(s: string, k: nat)
    requires k < |s|
    ensures EncodeAll(s[..k + 1]) == EncodeAll(s[..k]) + Encode(s[k])
    ensures |EncodeAll(s[..k])| < |EncodeAll(s[..k + 1])| <= |EncodeAll(s)|
    ensures EncodeAll(s[..k + 1]) <= EncodeAll(s)
  {
    assert s[..k + 1][..k] == s[..k];
    EncodeConcat(s[..k + 1], s[k + 1..]);
    assert s[..k + 1] + s[k + 1..] == s;
  }

  /** The most characters that fit in `max` bytes. */
  function Fitting(s: string, max: nat): (k: nat)
    ensures k <= |s| && |EncodeAll(s[..k])| <= max
  {
    if |EncodeAll(s)| <= max then
      assert s[..|s|] == s;
      |s|
    else
      var k := Fitting(s[..|s| - 1], max);
      assert s[..|s| - 1][..k] == s[..k];
      k
  }

  lemma {:induction false} FittingIsMost(s: string, max: nat)
    ensures var k := Fitting(s, max); k < |s| ==> |EncodeAll(s[..k + 1])| > max
  {
    hide Encode;
    if |EncodeAll(s)| > max {
      var init := s[..|s| - 1];
      var k := Fitting(init, max);
      FittingIsMost(init, max);
      if k < |init| {
        assert init[..k + 1] == s[..k + 1];
      } else {
        assert s[..k + 1] == s;
      }
    }
  }

  /** The bytes of the first character that does not fit: only its first one starts a character. */
  lemma FirstThatDoesNotFit(s: string, max: nat)
    requires |EncodeAll(s)| > max
    ensures var k, start := Fitting(s, max), |EncodeAll(s[..Fitting(s, max)])|;
      && k < |s| && start <= max < |EncodeAll(s)| && EncodeAll(s)[..start] == EncodeAll(s[..k]) && RuneStart(EncodeAll(s)[start])
      && forall n :: start < n <= max ==> !RuneStart(EncodeAll(s)[n])
  {
    hide Encode, EncodeAll, Fitting, RuneStart;
    FittingIsMost(s, max);
    var k := Fitting(s, max);
    assert s[..|s|] == s;
    var bytes, start := EncodeAll(s), |EncodeAll(s[..k])|;
    EncodePrefix(s, k);
    StartAndRest(s[k]);
    var some := EncodeAll(s[..k + 1]);
    assert some[..start] == EncodeAll(s[..k]) && bytes[..start] == some[..start];
    forall i | 0 <= i < |Encode(s[k])| ensures bytes[start + i] == Encode(s[k])[i] {
      assert bytes[start + i] == some[start + i];
    }
    assert bytes[start + 0] == Encode(s[k])[0];
    forall n | start < n <= max ensures !RuneStart(bytes[n]) {
      assert bytes[start + (n - start)] == Encode(s[k])[n - start];
    }
  }

  /** Cuts encoded text to at most `max` bytes: as many whole characters as fit. */
  method CutUTF8(bytes: seq<Byte>, max: nat, ghost s: string) returns (cut: seq<Byte>, wasCut: bool)
    requires bytes == EncodeAll(s)
    ensures cut == EncodeAll(s[..Fitting(s, max)]) && |cut| <= max
    ensures wasCut == (|bytes| > max) && (!wasCut <==> Fitting(s, max) == |s|)
  {
    hide Encode, EncodeAll, RuneStart;
    assert s[..|s|] == s;
    if |bytes| <= max {
      return bytes, false;
    }
    FirstThatDoesNotFit(s, max);
    ghost var start := |EncodeAll(s[..Fitting(s, max)])|;
    var n := max;
    while n > 0 && !RuneStart(bytes[n])
      invariant start <= n <= max
    {
      n := n - 1;
    }
    cut, wasCut := bytes[..n], true;
  }
}
