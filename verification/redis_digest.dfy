// The byte encoding that `redis_credentials_digest` feeds to SHA-256, and the
// digest itself. A Secret's data is a BTreeMap, so it is met here as the
// sequence of entries its iteration yields: keys strictly increasing.
module RedisDigest {
  import opened Wrappers

  type Byte = x: int | 0 <= x < 256
  type Bytes = seq<Byte>

  datatype Entry = Entry(key: Bytes, value: Bytes)

  // Lengths are converted with `as u64`.
  const LENGTH_LIMIT: nat := 0x1_0000_0000_0000_0000

  // Collision freeness is assumed: two digests are equal only when the hashed
  // bytes are.
  datatype Digest = Sha256(input: Bytes)

  // The order of BTreeMap keys.
  predicate Less(a: Bytes, b: Bytes)
  {
    b != [] && (a == [] || a[0] < b[0] || (a[0] == b[0] && Less(a[1..], b[1..])))
  }

  predicate Fits(e: Entry)
  {
    |e.key| < LENGTH_LIMIT && |e.value| < LENGTH_LIMIT
  }

  // What iterating a BTreeMap yields.
  predicate Storable(entries: seq<Entry>)
  {
    && (forall i :: 0 <= i < |entries| ==> Fits(entries[i]))
    && (forall i, j :: 0 <= i < j < |entries| ==> Less(entries[i].key, entries[j].key))
  }

  type Data = entries: seq<Entry> | Storable(entries) witness []

  // The map that a sequence of entries lists.
  function Items(entries: seq<Entry>): set<Entry>
  {
    set e | e in entries
  }

  // `width` big-endian bytes of `n`; `to_be_bytes` is the case width 8.
  function BigEndian(n: nat, width: nat): (bytes: Bytes)
    ensures |bytes| == width
  {
    if width == 0 then [] else BigEndian(n / 256, width - 1) + [n % 256]
  }

  function Frame(chunk: Bytes): Bytes
  {
    BigEndian(|chunk|, 8) + chunk
  }

  function Encode(entries: seq<Entry>): Bytes
  {
    if entries == [] then []
    else Frame(entries[0].key) + Frame(entries[0].value) + Encode(entries[1..])
  }

  function DigestOf(data: seq<Entry>): Digest
  {
    Sha256(Encode(data))
  }

  // ---- A decoder -------------------------------------------------------------

  function FromBigEndian(bytes: Bytes): nat
  {
    if bytes == [] then 0
    else 256 * FromBigEndian(bytes[..|bytes| - 1]) + bytes[|bytes| - 1]
  }

  // Splits one length-prefixed chunk off the front.
  function TakeChunk(bytes: Bytes): (r: Option<(Bytes, Bytes)>)
    ensures r.Some? ==> |r.value.1| + 8 <= |bytes|
  {
    if |bytes| < 8 then None
    else
      var size := FromBigEndian(bytes[..8]);
      if |bytes| - 8 < size then None
      else Some((bytes[8..8 + size], bytes[8 + size..]))
  }

  function Decode(bytes: Bytes): Option<seq<Entry>>
    decreases |bytes|
  {
    if bytes == [] then Some([])
    else match TakeChunk(bytes)
      case None => None
      case Some((key, afterKey)) =>
        match TakeChunk(afterKey)
        case None => None
        case Some((value, rest)) =>
          match Decode(rest)
          case None => None
          case Some(entries) => Some([Entry(key, value)] + entries)
  }

  function Power256(width: nat): (p: nat)
    ensures p >= 1
  {
    if width == 0 then 1 else 256 * Power256(width - 1)
  }

  lemma {:induction false} BigEndianReads(n: nat, width: nat)
    requires n < Power256(width)
    ensures FromBigEndian(BigEndian(n, width)) == n
  {
    if width > 0 {
      BigEndianReads(n / 256, width - 1);
      assert BigEndian(n, width)[..width - 1] == BigEndian(n / 256, width - 1);
    }
  }

  lemma DivisionsCombine(n: nat, p: nat)
    requires p > 0
    ensures n / 256 / p == n / (256 * p)
  {
    var q, r := n / (256 * p), n % (256 * p);
    assert n == (256 * p) * q + r;
    assert n == 256 * (p * q) + r;
    assert n / 256 == p * q + r / 256;
    assert 0 <= r / 256 < p;
    QuotientIs(n / 256, p, q, r / 256);
  }

  lemma QuotientIs(n: nat, p: nat, q: nat, r: nat)
    requires n == p * q + r && r < p
    ensures n / p == q
  {
    var d := n / p;
    assert n == p * d + n % p;
    if d < q {
      Multiples(p, d + 1, q);
    } else if q < d {
      Multiples(p, q + 1, d);
    }
  }

  lemma Multiples(p: nat, a: nat, b: nat)
    requires a <= b
    ensures p * a <= p * b
  {
  }

  // The first byte is the most significant one.
  lemma {:induction false} BigEndianByte(n: nat, width: nat, k: nat)
    requires k < width
    ensures BigEndian(n, width)[k] == n / Power256(width - 1 - k) % 256
  {
    if k < width - 1 {
      BigEndianByte(n / 256, width - 1, k);
      DivisionsCombine(n, Power256(width - 2 - k));
    }
  }

  // Key before value, each after its length in eight bytes.
  lemma ShortEntryBytes(e: Entry)
    requires |e.key| < 256 && |e.value| < 256
    ensures Encode([e]) == [0, 0, 0, 0, 0, 0, 0, |e.key|] + e.key + [0, 0, 0, 0, 0, 0, 0, |e.value|] + e.value
  {
    ShortLength(|e.key|);
    ShortLength(|e.value|);
  }

  lemma ShortLength(n: nat)
    requires n < 256
    ensures BigEndian(n, 8) == [0, 0, 0, 0, 0, 0, 0, n]
  {
    ZeroBytes(7);
    assert BigEndian(n, 8) == BigEndian(0, 7) + [n];
  }

  lemma {:induction false} ZeroBytes(width: nat)
    ensures BigEndian(0, width) == seq(width, i => 0)
  {
    if width > 0 {
      ZeroBytes(width - 1);
    }
  }

  lemma {:induction false} BigEndianWrites(bytes: Bytes)
    ensures FromBigEndian(bytes) < Power256(|bytes|)
    ensures BigEndian(FromBigEndian(bytes), |bytes|) == bytes
  {
    if bytes != [] {
      BigEndianWrites(bytes[..|bytes| - 1]);
    }
  }

  lemma LengthsFitEightBytes()
    ensures Power256(8) == LENGTH_LIMIT
  {
    assert Power256(4) == 0x1_0000_0000;
    assert Power256(8) == 256 * 256 * 256 * 256 * Power256(4);
  }

  // A chunk is read back exactly from a frame, and from nothing else.
  lemma TakeChunkInvertsFrame(bytes: Bytes, chunk: Bytes, rest: Bytes)
    requires |chunk| < LENGTH_LIMIT
    ensures TakeChunk(bytes) == Some((chunk, rest)) <==> bytes == Frame(chunk) + rest
  {
    LengthsFitEightBytes();
    if bytes == Frame(chunk) + rest {
      BigEndianReads(|chunk|, 8);
      assert bytes[..8] == BigEndian(|chunk|, 8);
      assert bytes[8..8 + |chunk|] == chunk;
      assert bytes[8 + |chunk|..] == rest;
    }
    if TakeChunk(bytes) == Some((chunk, rest)) {
      BigEndianWrites(bytes[..8]);
      assert bytes == bytes[..8] + chunk + rest;
    }
  }

  predicate AllFit(entries: seq<Entry>)
  {
    forall i :: 0 <= i < |entries| ==> Fits(entries[i])
  }

  // The decoder accepts exactly the encodings and returns what was encoded.
  lemma {:induction false} DecodeInvertsEncode(bytes: Bytes, entries: seq<Entry>)
    requires AllFit(entries)
    ensures Decode(bytes) == Some(entries) <==> bytes == Encode(entries)
    decreases |entries|
  {
    if entries == [] {
    } else {
      var e, rest := entries[0], Encode(entries[1..]);
      var tail := Frame(e.value) + rest;
      assert Encode(entries) == Frame(e.key) + tail;
      TakeChunkInvertsFrame(bytes, e.key, tail);
      TakeChunkInvertsFrame(tail, e.value, rest);
      DecodeInvertsEncode(rest, entries[1..]);
      assert entries == [e] + entries[1..];
      if Decode(bytes) == Some(entries) {
        var (key, afterKey) := TakeChunk(bytes).value;
        var (value, left) := TakeChunk(afterKey).value;
        var decoded := Decode(left).value;
        assert [Entry(key, value)] + decoded == entries;
        assert decoded == entries[1..];
        DecodeInvertsEncode(left, entries[1..]);
        TakeChunkInvertsFrame(bytes, e.key, afterKey);
        TakeChunkInvertsFrame(afterKey, e.value, left);
        assert bytes == Frame(e.key) + (Frame(e.value) + rest);
      }
    }
  }

  lemma LessIsStrict(a: Bytes, b: Bytes)
    ensures !(Less(a, b) && Less(b, a))
  {
  }

  // Iteration order is fixed by the map, so it cannot influence the digest.
  lemma {:induction false} ItemsDetermineEntries(a: seq<Entry>, b: seq<Entry>)
    requires Storable(a) && Storable(b) && Items(a) == Items(b)
    ensures a == b
    decreases |a|
  {
    NoItems(a);
    NoItems(b);
    if a != [] && b != [] {
      assert a[0] in Items(b) && b[0] in Items(a);
      var i :| 0 <= i < |b| && b[i] == a[0];
      var j :| 0 <= j < |a| && a[j] == b[0];
      LessIsStrict(a[0].key, b[0].key);
      assert i == 0;
      forall e ensures e in Items(a[1..]) <==> e in Items(b[1..]) {
        HeadIsDistinct(a, e);
        HeadIsDistinct(b, e);
      }
      ItemsDetermineEntries(a[1..], b[1..]);
    }
  }

  lemma NoItems(a: seq<Entry>)
    ensures Items(a) == {} <==> a == []
  {
    if a != [] {
      assert a[0] in Items(a);
    }
  }

  lemma HeadIsDistinct(a: seq<Entry>, e: Entry)
    requires Storable(a) && a != []
    ensures e in Items(a[1..]) <==> e in Items(a) && e != a[0]
  {
    if e in a[1..] {
      var i :| 0 <= i < |a| - 1 && a[1..][i] == e;
      assert a[i + 1] == e;
      LessIsStrict(a[0].key, a[0].key);
    }
    if e in a && e != a[0] {
      var i :| 0 <= i < |a| && a[i] == e;
      assert a[1..][i - 1] == e;
    }
  }

  // Two Secrets have the same digest exactly when they hold the same map.
  lemma DigestIdentifiesData(a: Data, b: Data)
    ensures DigestOf(a) == DigestOf(b) <==> Items(a) == Items(b)
    ensures DigestOf(a) == DigestOf(b) ==> a == b
  {
    if Encode(a) == Encode(b) {
      DecodeInvertsEncode(Encode(a), a);
      DecodeInvertsEncode(Encode(a), b);
    }
    if Items(a) == Items(b) {
      ItemsDetermineEntries(a, b);
    }
  }

  // ---- The loop over the map ---------------------------------------------------

  class Hasher {
    var absorbed: Bytes

    constructor ()
      ensures absorbed == []
    {
      absorbed := [];
    }

    method Update(bytes: Bytes)
      modifies this
      ensures absorbed == old(absorbed) + bytes
    {
      absorbed := absorbed + bytes;
    }

    method Finalize() returns (digest: Digest)
      ensures digest == Sha256(absorbed)
    {
      digest := Sha256(absorbed);
    }
  }

  lemma {:induction false} EncodeAppends(entries: seq<Entry>, e: Entry)
    ensures Encode(entries + [e]) == Encode(entries) + Frame(e.key) + Frame(e.value)
  {
    if entries == [] {
      assert (entries + [e])[1..] == [];
    } else {
      EncodeAppends(entries[1..], e);
      assert (entries + [e])[1..] == entries[1..] + [e];
      var head, rest := Frame(entries[0].key) + Frame(entries[0].value), Encode(entries[1..]);
      assert head + (rest + Frame(e.key) + Frame(e.value)) == head + rest + Frame(e.key) + Frame(e.value);
    }
  }

  method RedisCredentialsDigest(data: Data) returns (digest: Digest)
    ensures digest == DigestOf(data)
  {
    var hasher := new Hasher();
    for i := 0 to |data|
      invariant hasher.absorbed == Encode(data[..i])
    {
      var e := data[i];
      ghost var before := hasher.absorbed;
      hasher.Update(BigEndian(|e.key|, 8));
      hasher.Update(e.key);
      hasher.Update(BigEndian(|e.value|, 8));
      hasher.Update(e.value);
      assert hasher.absorbed == before + Frame(e.key) + Frame(e.value);
      EncodeAppends(data[..i], e);
      assert data[..i + 1] == data[..i] + [e];
    }
    assert data[..|data|] == data;
    digest := hasher.Finalize();
  }
}
