/** The striped target lock's index (targetLock in internal/wrapper/server.go). */
module TargetLocks {

  const STRIPES: nat := 128
  const FNV_OFFSET: bv32 := 2166136261
  const FNV_PRIME: bv32 := 16777619

  /** Strings stand for Go's byte strings, one character a byte. */
  function Byte(c: char): bv32 { c as int as bv32 }

  function Mix(hash: bv32, c: char): bv32 { (hash ^ Byte(c)) * FNV_PRIME }

  function Fold<H>(mix: (H, char) -> H, hash: H, bytes: string): H
    decreases |bytes|
  {
    if bytes == "" then hash else Fold(mix, mix(hash, bytes[0]), bytes[1..])
  }

  /** The 32-bit FNV-1a hash of section 2 of draft-eastlake-fnv, with wrap-around. */
  function Fnv1a(bytes: string): bv32 { Fold(Mix, FNV_OFFSET, bytes) }

  function StripeIndex(hash: bv32): (stripe: nat)
    ensures stripe < STRIPES
  {
    RemainderIsMask(hash);
    (hash % 128) as nat
  }

  lemma RemainderIsMask(h: bv32)
    ensures h % 128 == h & 127 && (h & 127) as nat < STRIPES
  {
    assert h & 127 <= 127;
  }

  function StripeOf(podUID: string, containerName: string, targetPath: string): (stripe: nat)
    ensures stripe < STRIPES
  {
    StripeIndex(Fnv1a(podUID + containerName + targetPath))
  }

  lemma {:induction false} FoldAppend<H>(mix: (H, char) -> H, hash: H, a: string, b: string)
    ensures Fold(mix, hash, a + b) == Fold(mix, Fold(mix, hash, a), b)
    decreases |a|
  {
    if a == "" {
      assert a + b == b;
    } else {
      assert (a + b)[1..] == a[1..] + b;
      FoldAppend(mix, mix(hash, a[0]), a[1..], b);
    }
  }

  lemma Letters()
    ensures Byte('a') == 0x61 && Byte('b') == 0x62 && Byte('f') == 0x66 && Byte('o') == 0x6f && Byte('r') == 0x72
  {
  }

  lemma Mixes()
    ensures Mix(0x811c9dc5, 'a') == 0xe40c292c
    ensures Mix(0x811c9dc5, 'f') == 0xe30c2799
    ensures Mix(0xe30c2799, 'o') == 0x6222e842
    ensures Mix(0x6222e842, 'o') == 0xa9f37ed7
    ensures Mix(0xa9f37ed7, 'b') == 0x3f5076ef
    ensures Mix(0x3f5076ef, 'a') == 0x39aaa18a
    ensures Mix(0x39aaa18a, 'r') == 0xbf9cf968
  {
    Letters();
  }

  lemma Known(bytes: string, c: char, hash: bv32, next: bv32)
    requires Fnv1a(bytes) == hash && Mix(hash, c) == next
    ensures Fnv1a(bytes + [c]) == next
  {
    FoldAppend(Mix, FNV_OFFSET, bytes, [c]);
    assert [c][1..] == "";
  }

  /** The 32-bit FNV-1a test vectors that draft-eastlake-fnv gives for "", "a" and "foobar". */
  lemma KnownAnswers()
    ensures Fnv1a("") == 0x811c9dc5 && Fnv1a("a") == 0xe40c292c && Fnv1a("foobar") == 0xbf9cf968
  {
    Mixes();
    Known("", 'a', 0x811c9dc5, 0xe40c292c);
    Known("", 'f', 0x811c9dc5, 0xe30c2799);
    Known("f", 'o', 0xe30c2799, 0x6222e842);
    Known("fo", 'o', 0x6222e842, 0xa9f37ed7);
    Known("foo", 'b', 0xa9f37ed7, 0x3f5076ef);
    Known("foob", 'a', 0x3f5076ef, 0x39aaa18a);
    Known("fooba", 'r', 0x39aaa18a, 0xbf9cf968);
  }

  lemma FoldNext<H>(mix: (H, char) -> H, hash: H, bytes: string, i: nat)
    requires i < |bytes|
    ensures Fold(mix, hash, bytes[..i + 1]) == mix(Fold(mix, hash, bytes[..i]), bytes[i])
  {
    assert bytes[..i + 1] == bytes[..i] + [bytes[i]];
    FoldAppend(mix, hash, bytes[..i], [bytes[i]]);
    assert [bytes[i]][1..] == "";
  }

  method HashField(start: bv32, value: string) returns (hash: bv32)
    ensures hash == Fold(Mix, start, value)
  {
    hash := start;
    for i := 0 to |value|
      invariant hash == Fold(Mix, start, value[..i])
    {
      FoldNext(Mix, start, value, i);
      hash := Mix(hash, value[i]);
    }
    assert value[..|value|] == value;
  }

  /** The source's loops over the three key fields equal one fold over their concatenation. */
  method TargetLock(podUID: string, containerName: string, targetPath: string) returns (stripe: nat)
    ensures stripe == StripeOf(podUID, containerName, targetPath)
  {
    var fields := [podUID, containerName, targetPath];
    var hash := FNV_OFFSET;
    ghost var done := "";
    for f := 0 to |fields|
      invariant done == if f == 0 then "" else if f == 1 then podUID else if f == 2 then podUID + containerName
                        else podUID + containerName + targetPath
      invariant hash == Fold(Mix, FNV_OFFSET, done)
    {
      FoldAppend(Mix, FNV_OFFSET, done, fields[f]);
      hash := HashField(hash, fields[f]);
      done := done + fields[f];
    }
    stripe := StripeIndex(hash);
  }
}
