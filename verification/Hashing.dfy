/** Bytes, digests and the chain of one run's records.

    The hash is a parameter of everything below, and no property of it is
    assumed.  Where a result needs two hashed strings to be equal because
    their digests are, it asks for injectivity on a finite set of strings it
    names: the strings the readers concerned really hash. */
module Hashing {
  type Byte = b: int | 0 <= b < 256
  type Bytes = seq<Byte>

  function Zeros(n: nat): (z: Bytes)
    ensures |z| == n
  {
    if n == 0 then [] else [0] + Zeros(n - 1)
  }

  datatype DigestBytes = DigestBytes(bytes: Bytes)

  type Digest = d: DigestBytes | |d.bytes| == 32 witness DigestBytes(Zeros(32))

  /** What an uninitialised digest holds, and where every chain starts. */
  const ZERO: Digest := DigestBytes(Zeros(32))

  type Hash = Bytes -> Digest

  /** A digest that tells strings of different lengths apart, for the inputs
      given below by name. */
  function LengthDigest(x: Bytes): Digest {
    DigestBytes([|x| % 256] + Zeros(31))
  }

  /** No two different strings of `s` share a digest. */
  ghost predicate Injective(h: Hash, s: set<Bytes>) {
    forall x, y :: x in s && y in s && h(x) == h(y) ==> x == y
  }

  /** Extend a chain by one record's bytes.  The digest and the bytes are
      joined with nothing between them, which is unambiguous because a digest
      has one length. */
  function Link(prev: Digest, raw: Bytes): Bytes {
    prev.bytes + raw
  }

  function Chain(h: Hash, prev: Digest, raw: Bytes): Digest {
    h(Link(prev, raw))
  }

  lemma LinkIsInjective(prev: Digest, raw: Bytes, prev': Digest, raw': Bytes)
    requires Link(prev, raw) == Link(prev', raw')
    ensures prev == prev' && raw == raw'
  {
    var x, y := Link(prev, raw), Link(prev', raw');
    assert x[..32] == prev.bytes && y[..32] == prev'.bytes;
    assert x[32..] == raw && y[32..] == raw';
  }

  /** The head of the chain over `raws`, from the zero digest. */
  function Head(h: Hash, raws: seq<Bytes>): Digest {
    if raws == [] then ZERO else Chain(h, Head(h, raws[..|raws| - 1]), raws[|raws| - 1])
  }

  /** Every string hashed while the chain over `raws` is walked. */
  ghost function ChainStrings(h: Hash, raws: seq<Bytes>): set<Bytes> {
    if raws == [] then {}
    else ChainStrings(h, raws[..|raws| - 1]) + {Link(Head(h, raws[..|raws| - 1]), raws[|raws| - 1])}
  }

  lemma HeadOfAppend(h: Hash, raws: seq<Bytes>, raw: Bytes)
    ensures Head(h, raws + [raw]) == Chain(h, Head(h, raws), raw)
    ensures ChainStrings(h, raws + [raw]) == ChainStrings(h, raws) + {Link(Head(h, raws), raw)}
  {
    assert (raws + [raw])[..|raws|] == raws;
  }

  /** One head, one last record and one head before it: what the last link of
      two chains with the same head says. */
  lemma {:induction false} LastLinkBinds(h: Hash, a: seq<Bytes>, b: seq<Bytes>, s: set<Bytes>)
    requires a != [] && b != [] && Head(h, a) == Head(h, b)
    requires ChainStrings(h, a) <= s && ChainStrings(h, b) <= s && Injective(h, s)
    ensures a[|a| - 1] == b[|b| - 1]
    ensures Head(h, a[..|a| - 1]) == Head(h, b[..|b| - 1])
  {
    LinkIsInjective(Head(h, a[..|a| - 1]), a[|a| - 1], Head(h, b[..|b| - 1]), b[|b| - 1]);
  }

  /** A head commits to every byte under it: two chains of one length with one
      head carry the same records. */
  lemma {:induction false} ChainBinds(h: Hash, a: seq<Bytes>, b: seq<Bytes>, s: set<Bytes>)
    requires |a| == |b| && Head(h, a) == Head(h, b)
    requires ChainStrings(h, a) <= s && ChainStrings(h, b) <= s && Injective(h, s)
    ensures a == b
  {
    if a != [] {
      LastLinkBinds(h, a, b, s);
      ChainBinds(h, a[..|a| - 1], b[..|b| - 1], s);
      assert a == a[..|a| - 1] + [a[|a| - 1]] && b == b[..|b| - 1] + [b[|b| - 1]];
    }
  }

  /** No string of `s` has the digest every chain starts from. */
  ghost predicate ZeroFree(h: Hash, s: set<Bytes>) {
    forall x :: x in s ==> h(x) != ZERO
  }

  /** A head commits to every byte under it, and to how many records there are,
      as long as no record's digest is the one a chain starts from. */
  lemma {:induction false} HeadsBind(h: Hash, a: seq<Bytes>, b: seq<Bytes>, s: set<Bytes>)
    requires Head(h, a) == Head(h, b)
    requires ChainStrings(h, a) <= s && ChainStrings(h, b) <= s && Injective(h, s) && ZeroFree(h, s)
    ensures a == b
  {
    hide Injective, ZeroFree, ChainStrings, Head;
    HeadIsLinked(h, a, s);
    HeadIsLinked(h, b, s);
    if a != [] && b != [] {
      LastLinkBinds(h, a, b, s);
      PrefixStrings(h, a, |a| - 1);
      PrefixStrings(h, b, |b| - 1);
      HeadsBind(h, a[..|a| - 1], b[..|b| - 1], s);
      assert a == a[..|a| - 1] + [a[|a| - 1]] && b == b[..|b| - 1] + [b[|b| - 1]];
    }
  }

  lemma HeadIsLinked(h: Hash, raws: seq<Bytes>, s: set<Bytes>)
    requires ChainStrings(h, raws) <= s && ZeroFree(h, s)
    ensures raws == [] <==> Head(h, raws) == ZERO
  {
    if raws != [] {
      assert Link(Head(h, raws[..|raws| - 1]), raws[|raws| - 1]) in s;
    }
  }

  /** The strings of a prefix are among the strings of the whole. */
  lemma {:induction false} PrefixStrings(h: Hash, raws: seq<Bytes>, n: nat)
    requires n <= |raws|
    ensures ChainStrings(h, raws[..n]) <= ChainStrings(h, raws)
  {
    if n < |raws| {
      PrefixStrings(h, raws[..|raws| - 1], n);
      assert raws[..|raws| - 1][..n] == raws[..n];
    } else {
      assert raws[..n] == raws;
    }
  }
}
