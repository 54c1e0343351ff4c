/** The FNV-1a 64-bit checksum of log entries. */
module Fnv {

  const FNV_OFFSET: bv64 := 0xcbf2_9ce4_8422_2325

  /** Wrapping multiplication by the FNV prime. */
  function Times(x: bv64): bv64 {
    x * 0x0000_0100_0000_01b3
  }

  function Step(hash: bv64, b: bv8): bv64 {
    Times(hash ^ (b as bv64))
  }

  function HashFrom(hash: bv64, bytes: seq<bv8>): bv64
    decreases bytes
  {
    if bytes == [] then hash else HashFrom(Step(hash, bytes[0]), bytes[1..])
  }

  function Hash(bytes: seq<bv8>): bv64 {
    HashFrom(FNV_OFFSET, bytes)
  }

  lemma {:induction false} HashFromAppend(hash: bv64, bytes: seq<bv8>, b: bv8)
    ensures HashFrom(hash, bytes + [b]) == Step(HashFrom(hash, bytes), b)
    decreases bytes
  {
    hide Step;
    if bytes == [] {
      assert HashFrom(hash, [b]) == HashFrom(Step(hash, b), []);
    } else {
      assert (bytes + [b])[1..] == bytes[1..] + [b];
      HashFromAppend(Step(hash, bytes[0]), bytes[1..], b);
    }
  }

  method Fnv1a64(bytes: seq<bv8>) returns (hash: bv64)
    ensures hash == Hash(bytes)
  {
    hide Times;
    hash := FNV_OFFSET;
    for i := 0 to |bytes|
      invariant hash == Hash(bytes[..i])
    {
      HashFromAppend(FNV_OFFSET, bytes[..i], bytes[i]);
      assert bytes[..i + 1] == bytes[..i] + [bytes[i]];
      hash := hash ^ (bytes[i] as bv64);
      hash := Times(hash);
    }
    assert bytes[..|bytes|] == bytes;
  }

  /** Published digests of the algorithm: of the empty string, of `a`, and of `foobar`. */
  lemma {:induction false} KnownDigests()
    ensures Hash([]) == 0xcbf2_9ce4_8422_2325
    ensures Hash([0x61]) == 0xaf63_dc4c_8601_ec8c
    ensures Hash([0x66, 0x6f, 0x6f, 0x62, 0x61, 0x72]) == 0x8594_4171_f739_67e8
  {
  }

  // ---- One changed byte always shows ----

  /** Multiplication by the inverse of the prime, which exists because the prime is odd. */
  function Undone(y: bv64): bv64 {
    y * 0xce96_5057_aff6_957b
  }

  lemma {:induction false} UndoneProduct(x: bv64)
    ensures Undone(x * 0x0000_0100_0000_01b3) == x
  {
  }

  lemma {:induction false} UndoneTimes(x: bv64)
    ensures Undone(Times(x)) == x
  {
    hide Undone;
    UndoneProduct(x);
  }

  lemma {:induction false} TimesInjective(x: bv64, y: bv64)
    requires Times(x) == Times(y)
    ensures x == y
  {
    hide Undone, Times;
    UndoneTimes(x);
    UndoneTimes(y);
  }

  lemma {:induction false} XorUndone(x: bv64, y: bv64)
    ensures (x ^ y) ^ y == x
  {
  }

  lemma {:induction false} WidenedOnce(b: bv8, b': bv8)
    requires b as bv64 == b' as bv64
    ensures b == b'
  {
  }

  lemma {:induction false} XorInjective(hash: bv64, hash': bv64, b: bv8, b': bv8)
    requires hash ^ (b as bv64) == hash' ^ (b' as bv64)
    ensures hash == hash' <==> b == b'
  {
    if b == b' {
      XorUndone(hash, b as bv64);
      XorUndone(hash', b' as bv64);
    }
    if hash == hash' {
      XorUndone(b as bv64, hash);
      XorUndone(b' as bv64, hash');
      XorSwapped(hash, b as bv64);
      XorSwapped(hash', b' as bv64);
      WidenedOnce(b, b');
    }
  }

  lemma {:induction false} XorSwapped(x: bv64, y: bv64)
    ensures x ^ y == y ^ x
  {
  }

  /** In either argument, with the other one fixed. */
  lemma {:induction false} StepInjective(hash: bv64, hash': bv64, b: bv8, b': bv8)
    requires Step(hash, b) == Step(hash', b')
    ensures hash == hash' <==> b == b'
  {
    hide Times;
    TimesInjective(hash ^ (b as bv64), hash' ^ (b' as bv64));
    XorInjective(hash, hash', b, b');
  }

  /** The rest of the string never merges two different states. */
  lemma {:induction false} HashFromInjective(hash: bv64, hash': bv64, bytes: seq<bv8>)
    ensures HashFrom(hash, bytes) == HashFrom(hash', bytes) <==> hash == hash'
    decreases bytes
  {
    hide Step;
    if bytes != [] {
      HashFromInjective(Step(hash, bytes[0]), Step(hash', bytes[0]), bytes[1..]);
      if Step(hash, bytes[0]) == Step(hash', bytes[0]) {
        StepInjective(hash, hash', bytes[0], bytes[0]);
      }
    }
  }

  /** Two byte strings of one length that differ in exactly one byte have different digests. */
  lemma {:induction false} OneByteShows(s: seq<bv8>, t: seq<bv8>, i: nat)
    requires |s| == |t| && i < |s| && s[i] != t[i]
    requires forall j :: 0 <= j < |s| && j != i ==> s[j] == t[j]
    ensures Hash(s) != Hash(t)
  {
    hide Hash;
    OneByteShowsFrom(FNV_OFFSET, s, t, i);
    assert Hash(s) != Hash(t) by {
      HashIs(s);
      HashIs(t);
    }
  }

  lemma {:induction false} HashIs(s: seq<bv8>)
    ensures Hash(s) == HashFrom(FNV_OFFSET, s)
  {
  }

  lemma {:induction false} OneByteShowsFrom(hash: bv64, s: seq<bv8>, t: seq<bv8>, i: nat)
    requires |s| == |t| && i < |s| && s[i] != t[i]
    requires forall j :: 0 <= j < |s| && j != i ==> s[j] == t[j]
    ensures HashFrom(hash, s) != HashFrom(hash, t)
    decreases i
  {
    hide Step;
    if i == 0 {
      assert s[1..] == t[1..];
      HashFromInjective(Step(hash, s[0]), Step(hash, t[0]), s[1..]);
      if Step(hash, s[0]) == Step(hash, t[0]) {
        StepInjective(hash, hash, s[0], t[0]);
      }
    } else {
      OneByteShowsFrom(Step(hash, s[0]), s[1..], t[1..], i - 1);
    }
  }
}
