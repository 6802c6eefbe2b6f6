/** The integrity hash: `hashlib.sha256(json.dumps(d, sort_keys=True).encode()).hexdigest()`.
    SHA-256 itself is not modelled; it is a parameter of every operation that
    uses it, so the properties below hold for any function of that shape. */
module Digest {
  import opened Wrappers
  import opened Json
  import opened Hex
  import opened Escape
  import opened Canonical
  import opened Parse

  type byte = x: int | 0 <= x < 256

  /** A SHA-256 result: 32 bytes. */
  type Bytes32 = d: seq<byte> | |d| == 32 witness seq(32, _ => 0)

  /** SHA-256 as an arbitrary function of the message bytes. */
  type Sha256 = seq<byte> -> Bytes32

  /** `str.encode()`, UTF-8, on the ASCII text the encoder produces: one byte per character. */
  function Encode(s: string): (b: seq<byte>)
    requires IsAscii(s)
    ensures |b| == |s|
    ensures forall i :: 0 <= i < |s| ==> b[i] == s[i] as int
  {
    seq(|s|, i requires 0 <= i < |s| => s[i] as int)
  }

  lemma EncodeInjective(s: string, t: string)
    requires IsAscii(s) && IsAscii(t)
    ensures Encode(s) == Encode(t) <==> s == t
  {
    if Encode(s) == Encode(t) {
      assert |s| == |t|;
      forall i | 0 <= i < |s| ensures s[i] == t[i] {
        assert Encode(s)[i] == Encode(t)[i];
      }
    }
  }

  /** `.hexdigest()`: two lower-case digits per byte, high half first. */
  function HexDigest(d: seq<byte>): (h: string)
    ensures |h| == 2 * |d|
    ensures forall i :: 0 <= i < |h| ==> IsHexDigit(h[i])
    ensures forall i :: 0 <= i < |d| ==>
      HexValue(h[2 * i]) == Some(d[i] / 16) && HexValue(h[2 * i + 1]) == Some(d[i] % 16)
  {
    if |d| == 0 then ""
    else
      var tail := HexDigest(d[1..]);
      PairShift([HexDigit(d[0] / 16), HexDigit(d[0] % 16)], tail);
      [HexDigit(d[0] / 16), HexDigit(d[0] % 16)] + tail
  }

  lemma PairShift(p: string, tail: string)
    requires |p| == 2 && |tail| % 2 == 0
    ensures forall i :: 1 <= i < |tail| / 2 + 1 ==>
      (p + tail)[2 * i] == tail[2 * (i - 1)] && (p + tail)[2 * i + 1] == tail[2 * (i - 1) + 1]
  {
  }

  /** Different digests never print the same. */
  lemma HexDigestInjective(d: seq<byte>, e: seq<byte>)
    requires |d| == |e|
    ensures HexDigest(d) == HexDigest(e) <==> d == e
  {
    if HexDigest(d) == HexDigest(e) {
      forall i | 0 <= i < |d| ensures d[i] == e[i] {
        assert d[i] == d[i] / 16 * 16 + d[i] % 16;
        assert e[i] == e[i] / 16 * 16 + e[i] % 16;
      }
    }
  }

  /** The integrity hash of a document, as lines 45-48 and 61-62 compute it. */
  function Fingerprint(doc: Value, sha: Sha256): (h: string)
    ensures |h| == 64 && forall i :: 0 <= i < 64 ==> IsHexDigit(h[i])
  {
    HexDigest(sha(Encode(Dumps(doc))))
  }

  /** Two messages that SHA-256 does not tell apart. */
  predicate Collision(sha: Sha256, m: seq<byte>, n: seq<byte>) {
    m != n && sha(m) == sha(n)
  }

  /** Documents that differ only in key insertion order get the same integrity hash. */
  lemma FingerprintKeyOrder(a: Value, b: Value, sha: Sha256)
    requires SameUpToKeyOrder(a, b)
    ensures Fingerprint(a, sha) == Fingerprint(b, sha)
  {
    KeyOrderIndependence(a, b);
  }

  /** Two well-formed documents with the same integrity hash differ only in
      key order, unless SHA-256 collides on their canonical texts. */
  lemma FingerprintEqual(a: Value, b: Value, sha: Sha256)
    requires WellFormed(a) && WellFormed(b)
    ensures Fingerprint(a, sha) == Fingerprint(b, sha) <==>
      SameUpToKeyOrder(a, b) || Collision(sha, Encode(Dumps(a)), Encode(Dumps(b)))
  {
    var m, n := Encode(Dumps(a)), Encode(Dumps(b));
    HexDigestInjective(sha(m), sha(n));
    EncodeInjective(Dumps(a), Dumps(b));
    CanonicalTextIff(a, b);
  }
}
