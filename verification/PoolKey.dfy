/** The byte encoding of a connection-pool key: a version, the protocol seed, and three
    fields whose lengths are written in front of them. */
module PoolKey {
  import opened FilterTypes

  const MAX_LENGTH: nat := 0xFFFF_FFFF

  datatype Key = Key(seed: int, alpn: Bytes, sni: Option<Bytes>, digest: Option<Bytes>)

  // The fields, as they are appended.

  function U32(n: nat): (r: Bytes)
    requires n <= MAX_LENGTH
    ensures |r| == 4
  {
    [(n / 0x100_0000) as byte, (n / 0x1_0000 % 0x100) as byte, (n / 0x100 % 0x100) as byte, (n % 0x100) as byte]
  }

  /** A field with its length in front; one that is too long is left out altogether. */
  function Field(p: Bytes): Bytes {
    if |p| > MAX_LENGTH then [] else U32(|p|) + p
  }

  function Digest(d: Option<Bytes>): Bytes {
    if d.Some? then [1] + Field(d.value) else [0]
  }

  function Encode(k: Key): Bytes {
    [1, (k.seed % 256) as byte] + Field(k.alpn) + Field(Held(k.sni)) + Digest(k.digest)
  }

  /** What a key says: the seed as a byte, and an absent name as an empty one. */
  function Canonical(k: Key): Key { k.(seed := k.seed % 256, sni := Some(Held(k.sni))) }

  predicate Short(k: Key) {
    |k.alpn| <= MAX_LENGTH && |Held(k.sni)| <= MAX_LENGTH && |Held(k.digest)| <= MAX_LENGTH
  }

  // A left inverse.

  function ReadU32(b: Bytes): nat
    requires |b| >= 4
  {
    b[0] as nat * 0x100_0000 + b[1] as nat * 0x1_0000 + b[2] as nat * 0x100 + b[3] as nat
  }

  datatype Taken = Taken(field: Bytes, rest: Bytes) | Short

  function TakeField(b: Bytes): Taken {
    if |b| < 4 || |b| < 4 + ReadU32(b) then Taken.Short
    else Taken.Taken(b[4..4 + ReadU32(b)], b[4 + ReadU32(b)..])
  }

  function Decode(b: Bytes): Option<Key> {
    if |b| < 2 || b[0] != 1 then None
    else
      var alpn := TakeField(b[2..]);
      if alpn.Short? then None
      else
        var sni := TakeField(alpn.rest);
        if sni.Short? || sni.rest == [] then None
        else if sni.rest == [0] then Some(Key(b[1] as int, alpn.field, Some(sni.field), None))
        else
          var digest := TakeField(sni.rest[1..]);
          if sni.rest[0] != 1 || digest.Short? || digest.rest != [] then None
          else Some(Key(b[1] as int, alpn.field, Some(sni.field), Some(digest.field)))
  }

  lemma ReadWritten(n: nat)
    requires n <= MAX_LENGTH
    ensures ReadU32(U32(n)) == n
  {
    var high := n / 0x100;
    var higher := high / 0x100;
    assert n / 0x1_0000 == higher && n / 0x100_0000 == higher / 0x100;
    assert n == high * 0x100 + n % 0x100;
    assert high == higher * 0x100 + high % 0x100;
    assert higher == (higher / 0x100) * 0x100 + higher % 0x100;
  }

  lemma {:induction false} TakeWritten(p: Bytes, rest: Bytes)
    requires |p| <= MAX_LENGTH
    ensures TakeField(Field(p) + rest) == Taken.Taken(p, rest)
  {
    var b := Field(p) + rest;
    ReadWritten(|p|);
    assert b[..4] == U32(|p|);
    hide U32;
    assert ReadU32(b) == ReadU32(U32(|p|));
    assert b[4..4 + |p|] == p && b[4 + |p|..] == rest;
  }

  /** The encoding has a left inverse on all keys whose fields fit their length prefix. */
  lemma {:induction false} DecodeEncoded(k: Key)
    requires Short(k)
    ensures Decode(Encode(k)) == Some(Canonical(k))
  {
    var b := Encode(k);
    var afterSni := Digest(k.digest);
    var afterAlpn := Field(Held(k.sni)) + afterSni;
    hide Field, TakeField, Digest;
    assert b[2..] == Field(k.alpn) + afterAlpn;
    TakeWritten(k.alpn, afterAlpn);
    TakeWritten(Held(k.sni), afterSni);
    DigestRead(k.digest);
  }

  lemma DigestRead(d: Option<Bytes>)
    requires |Held(d)| <= MAX_LENGTH
    ensures var b := Digest(d);
            b != [] && (d.None? ==> b == [0]) &&
            (d.Some? ==> b != [0] && b[0] == 1 && TakeField(b[1..]) == Taken.Taken(d.value, []))
  {
    if d.Some? {
      TakeWritten(d.value, []);
      assert Digest(d)[1..] == Field(d.value) + [];
    }
  }

  /** Two keys are equal exactly when they say the same. */
  lemma {:induction false} EqualKeysIff(a: Key, b: Key)
    requires Short(a) && Short(b)
    ensures Encode(a) == Encode(b) <==> Canonical(a) == Canonical(b)
  {
    hide Encode, Decode;
    DecodeEncoded(a);
    DecodeEncoded(b);
    EncodeCanonical(a);
    EncodeCanonical(b);
  }

  lemma EncodeCanonical(k: Key)
    ensures Encode(Canonical(k)) == Encode(k)
  {
    assert k.seed % 256 % 256 == k.seed % 256;
  }

  /** Beyond the limit keys collide: an over-long protocol list leaves no trace. */
  lemma OverlongCollide(k: Key, alpn: Bytes)
    requires |k.alpn| > MAX_LENGTH && |alpn| > MAX_LENGTH
    ensures Encode(k) == Encode(k.(alpn := alpn))
  {}

  /** The byte array under construction. */
  class KeyBuilder {
    var bytes: Bytes

    constructor ()
      ensures bytes == []
    {
      bytes := [];
    }

    method AppendU8(v: int)
      modifies this
      ensures bytes == old(bytes) + [(v % 256) as byte]
    {
      bytes := bytes + [(v % 256) as byte];
    }

    method AppendU32(n: nat)
      requires n <= MAX_LENGTH
      modifies this
      ensures bytes == old(bytes) + U32(n)
    {
      bytes := bytes + [(n / 0x100_0000) as byte, (n / 0x1_0000 % 0x100) as byte, (n / 0x100 % 0x100) as byte,
                        (n % 0x100) as byte];
    }

    method AppendBytes(p: Bytes)
      modifies this
      ensures bytes == old(bytes) + Field(p)
    {
      if |p| > MAX_LENGTH { return; }
      AppendU32(|p|);
      if |p| > 0 { bytes := bytes + p; }
    }

    method AppendString(s: Option<Bytes>)
      modifies this
      ensures bytes == old(bytes) + Field(Held(s))
    {
      if s.None? {
        AppendU32(0);
        return;
      }
      AppendBytes(s.value);
    }
  }

  method NewKey(k: Key) returns (bytes: Bytes)
    ensures bytes == Encode(k)
  {
    hide Field;
    var b := new KeyBuilder();
    b.AppendU8(1);
    b.AppendU8(k.seed);
    b.AppendBytes(k.alpn);
    b.AppendString(k.sni);
    if k.digest.Some? {
      b.AppendU8(1);
      b.AppendBytes(k.digest.value);
    } else {
      b.AppendU8(0);
    }
    bytes := b.bytes;
    assert bytes == [1, (k.seed % 256) as byte] + Field(k.alpn) + Field(Held(k.sni)) + Digest(k.digest);
  }
}
