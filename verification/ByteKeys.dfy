/**
 The keys of the log database: indices as eight big-endian bytes, and the names
 of the metadata records. The database orders its keys byte by byte.
 */
module ByteKeys {

  newtype byte = x: int | 0 <= x < 256

  type Bytes = seq<byte>

  /** The lowest k bytes of n, the most significant first. */
  function BigEndian(n: nat, k: nat): (bytes: Bytes)
    ensures |bytes| == k
  {
    if k == 0 then [] else BigEndian(n / 256, k - 1) + [(n % 256) as byte]
  }

  /** The number that a string of bytes spells. */
  function Spelled(bytes: Bytes): nat {
    if bytes == [] then 0 else Spelled(bytes[..|bytes| - 1]) * 256 + bytes[|bytes| - 1] as nat
  }

  function Power(k: nat): (p: nat)
    ensures p > 0
  {
    if k == 0 then 1 else 256 * Power(k - 1)
  }

  /** Numbers of k bytes survive the trip through their bytes. */
  lemma {:induction false} NumberRoundTrip(n: nat, k: nat)
    requires n < Power(k)
    ensures Spelled(BigEndian(n, k)) == n
  {
    if k > 0 {
      NumberRoundTrip(n / 256, k - 1);
      assert BigEndian(n, k)[..k - 1] == BigEndian(n / 256, k - 1);
    }
  }

  /** Bytes survive the trip through the number they spell. */
  lemma {:induction false} BytesRoundTrip(bytes: Bytes)
    ensures BigEndian(Spelled(bytes), |bytes|) == bytes
    ensures Spelled(bytes) < Power(|bytes|)
  {
    if bytes != [] {
      BytesRoundTrip(bytes[..|bytes| - 1]);
    }
  }

  // ----- the order of the keys -----

  /** The first string differs first by a smaller byte, or is a proper beginning of the second. */
  predicate Before(a: Bytes, b: Bytes) {
    if a == [] || b == [] then a == [] && b != []
    else a[0] < b[0] || (a[0] == b[0] && Before(a[1..], b[1..]))
  }

  lemma {:induction false} BeforeAt(a: Bytes, b: Bytes, k: nat)
    requires k < |a| && k < |b| && a[..k] == b[..k] && a[k] < b[k]
    ensures Before(a, b)
  {
    if k > 0 {
      assert a[0] == a[..k][0] && b[0] == b[..k][0];
      assert a[1..][..k - 1] == a[..k][1..] && b[1..][..k - 1] == b[..k][1..];
      BeforeAt(a[1..], b[1..], k - 1);
    }
  }

  lemma {:induction false} BeforeIsOneWay(a: Bytes, b: Bytes)
    requires Before(a, b)
    ensures !Before(b, a) && a != b
  {
    if a != [] && a[0] == b[0] {
      BeforeIsOneWay(a[1..], b[1..]);
    }
  }

  /** A smaller number of k bytes differs from a greater one first by a smaller byte. */
  lemma {:induction false} FirstDifference(m: nat, n: nat, k: nat) returns (d: nat)
    requires m < n < Power(k)
    ensures d < k && BigEndian(m, k)[..d] == BigEndian(n, k)[..d] && BigEndian(m, k)[d] < BigEndian(n, k)[d]
  {
    if m / 256 == n / 256 {
      d := k - 1;
      assert BigEndian(m, k)[..d] == BigEndian(m / 256, k - 1);
      assert BigEndian(n, k)[..d] == BigEndian(n / 256, k - 1);
    } else {
      d := FirstDifference(m / 256, n / 256, k - 1);
      assert BigEndian(m, k)[..d] == BigEndian(m / 256, k - 1)[..d];
      assert BigEndian(n, k)[..d] == BigEndian(n / 256, k - 1)[..d];
    }
  }

  /** On numbers of k bytes, the order of the keys is the order of the numbers. */
  lemma ByteOrderIsNumeric(m: nat, n: nat, k: nat)
    requires m < Power(k) && n < Power(k)
    ensures Before(BigEndian(m, k), BigEndian(n, k)) <==> m < n
  {
    if m < n {
      var d := FirstDifference(m, n, k);
      BeforeAt(BigEndian(m, k), BigEndian(n, k), d);
    } else if n < m {
      var d := FirstDifference(n, m, k);
      BeforeAt(BigEndian(n, k), BigEndian(m, k), d);
      BeforeIsOneWay(BigEndian(n, k), BigEndian(m, k));
    } else if Before(BigEndian(m, k), BigEndian(m, k)) {
      BeforeIsOneWay(BigEndian(m, k), BigEndian(m, k));
    }
  }

  // ----- index keys and metadata keys -----

  const UINT64: nat := 0x1_0000_0000_0000_0000

  lemma UInt64IsEightBytes()
    ensures Power(8) == UINT64
  {
    assert Power(4) == 0x1_0000_0000 by { assert Power(2) == 0x1_0000; }
    assert Power(8) == 256 * 256 * 256 * 256 * Power(4) by { assert Power(6) == 256 * 256 * Power(4); }
  }

  /** The key of a log index, and the form of every number in a metadata record. */
  function Net(n: nat): (key: Bytes)
    ensures |key| == 8
  {
    BigEndian(n, 8)
  }

  lemma NetRoundTrip(n: nat)
    requires n < UINT64
    ensures Spelled(Net(n)) == n
  {
    UInt64IsEightBytes();
    NumberRoundTrip(n, 8);
  }

  lemma NetInjective(m: nat, n: nat)
    requires m < UINT64 && n < UINT64 && Net(m) == Net(n)
    ensures m == n
  {
    NetRoundTrip(m);
    NetRoundTrip(n);
  }

  const META: Bytes := [0x4D, 0x45, 0x54, 0x41, 0x5F]

  /** "META_CURRENT_TERM", "META_VOTED_FOR", "META_COMMIT_INDEX" and "META_APPLY_INDEX". */
  const CURRENT_TERM: Bytes := META + [0x43, 0x55, 0x52, 0x52, 0x45, 0x4E, 0x54, 0x5F, 0x54, 0x45, 0x52, 0x4D]
  const VOTED_FOR: Bytes := META + [0x56, 0x4F, 0x54, 0x45, 0x44, 0x5F, 0x46, 0x4F, 0x52]
  const COMMIT_INDEX: Bytes := META + [0x43, 0x4F, 0x4D, 0x4D, 0x49, 0x54, 0x5F, 0x49, 0x4E, 0x44, 0x45, 0x58]
  const APPLY_INDEX: Bytes := META + [0x41, 0x50, 0x50, 0x4C, 0x59, 0x5F, 0x49, 0x4E, 0x44, 0x45, 0x58]

  const META_KEYS: set<Bytes> := {CURRENT_TERM, VOTED_FOR, COMMIT_INDEX, APPLY_INDEX}

  /** The number that the five letters of the metadata prefix spell. */
  const META_NUMBER: nat := 0x4D4554415F

  /** The text search by which the constructor tells metadata keys from index keys. */
  predicate Contains(key: Bytes, part: Bytes) {
    exists p :: 0 <= p <= |key| && OccursAt(key, part, p)
  }

  predicate OccursAt(key: Bytes, part: Bytes, p: nat) {
    p + |part| <= |key| && key[p..p + |part|] == part
  }

  lemma {:induction false} LeadingZeros(n: nat, j: nat, k: nat, i: nat)
    requires n < Power(k) && i < j
    ensures BigEndian(n, j + k)[i] == 0
  {
    if k > 0 {
      LeadingZeros(n / 256, j, k - 1, i);
    } else if i < j - 1 {
      LeadingZeros(0, j - 1, 0, i);
    }
  }

  lemma OneMoreByte(a: Bytes, b: byte, ab: Bytes)
    requires ab == a + [b]
    ensures Spelled(ab) == Spelled(a) * 256 + b as nat
    ensures Spelled([]) == 0
  {
    assert ab[..|a|] == a;
  }

  lemma MetaSpelled()
    ensures Spelled([0, 0, 0, 0x4D, 0x45, 0x54, 0x41, 0x5F]) == META_NUMBER
  {
    hide Spelled;
    OneMoreByte([], 0, [0]);
    OneMoreByte([0], 0, [0, 0]);
    OneMoreByte([0, 0], 0, [0, 0, 0]);
    OneMoreByte([0, 0, 0], 0x4D, [0, 0, 0, 0x4D]);
    OneMoreByte([0, 0, 0, 0x4D], 0x45, [0, 0, 0, 0x4D, 0x45]);
    OneMoreByte([0, 0, 0, 0x4D, 0x45], 0x54, [0, 0, 0, 0x4D, 0x45, 0x54]);
    OneMoreByte([0, 0, 0, 0x4D, 0x45, 0x54], 0x41, [0, 0, 0, 0x4D, 0x45, 0x54, 0x41]);
    OneMoreByte([0, 0, 0, 0x4D, 0x45, 0x54, 0x41], 0x5F, [0, 0, 0, 0x4D, 0x45, 0x54, 0x41, 0x5F]);
  }

  /** Below the number that "META_" spells, an index key begins with three zero
      bytes and never contains the letters. */
  lemma IndexKeyHasNoMeta(n: nat)
    requires n < META_NUMBER
    ensures Net(n)[0] == 0 && !Contains(Net(n), META)
  {
    assert Power(5) == 0x100_0000_0000 by { assert Power(3) == 0x100_0000; }
    LeadingZeros(n, 3, 5, 0);
    LeadingZeros(n, 3, 5, 1);
    LeadingZeros(n, 3, 5, 2);
    var key := Net(n);
    if Contains(key, META) {
      var p :| 0 <= p <= |key| && OccursAt(key, META, p);
      assert key[p] == key[p..p + 5][0] == 0x4D;
      assert p == 3;
      assert key == [0, 0, 0] + key[3..8] == [0, 0, 0, 0x4D, 0x45, 0x54, 0x41, 0x5F];
      MetaSpelled();
      NetRoundTrip(n);
      assert false;
    }
  }

  /** The first index that the search mistakes for metadata. */
  lemma BoundIsTight()
    ensures Contains(Net(META_NUMBER), META)
  {
    MetaSpelled();
    BytesRoundTrip([0, 0, 0, 0x4D, 0x45, 0x54, 0x41, 0x5F]);
    assert OccursAt(Net(META_NUMBER), META, 3);
  }

  lemma MetaKeyFacts(key: Bytes)
    requires key in META_KEYS
    ensures Contains(key, META) && |key| > 8 && key[0] == 0x4D
  {
    assert OccursAt(key, META, 0);
  }

  lemma MetaKeysDiffer()
    ensures CURRENT_TERM != VOTED_FOR && CURRENT_TERM != COMMIT_INDEX && CURRENT_TERM != APPLY_INDEX
    ensures VOTED_FOR != COMMIT_INDEX && VOTED_FOR != APPLY_INDEX && COMMIT_INDEX != APPLY_INDEX
  {
    assert CURRENT_TERM[6] == 0x55 && COMMIT_INDEX[6] == 0x4F;
    assert |CURRENT_TERM| == 17 && |VOTED_FOR| == 14 && |COMMIT_INDEX| == 17 && |APPLY_INDEX| == 16;
  }

  /** Every index key sorts before every metadata key. */
  lemma IndexKeysComeFirst(n: nat, key: Bytes)
    requires n < META_NUMBER && key in META_KEYS
    ensures Before(Net(n), key)
  {
    IndexKeyHasNoMeta(n);
    MetaKeyFacts(key);
    BeforeAt(Net(n), key, 0);
  }
}
