/** The byte string that a bundle checksum hashes. */
module BundleEncoding {
  import opened Wrappers

  type Byte = n: nat | n < 256

  const LENGTH_BYTES := 8
  const LENGTH_LIMIT := 0x1_0000_0000_0000_0000

  /** The checksums of the certificate, the key and the chain, as bytes. */
  datatype Checksums = Checksums(certificate: seq<Byte>, key: seq<Byte>, chain: seq<seq<Byte>>)
  {
    function Parts(): seq<seq<Byte>> {
      [certificate, key] + chain
    }

    /** Every part has a length that the prefix can hold. */
    predicate Fits() {
      forall i :: 0 <= i < |Parts()| ==> |Parts()[i]| < LENGTH_LIMIT
    }
  }

  // ---- numbers as bytes ----

  /** The low bytes of a number, most significant first; higher ones are lost. */
  function BigEndian(n: nat, width: nat): (r: seq<Byte>)
    ensures |r| == width
  {
    if width == 0 then [] else BigEndian(n / 256, width - 1) + [n % 256]
  }

  function Number(bytes: seq<Byte>): nat {
    if bytes == [] then 0 else 256 * Number(bytes[..|bytes| - 1]) + bytes[|bytes| - 1]
  }

  function Range(width: nat): nat {
    if width == 0 then 1 else 256 * Range(width - 1)
  }

  lemma RangeOfLength()
    ensures Range(LENGTH_BYTES) == LENGTH_LIMIT
  {
    assert Range(2) == 0x1_0000;
    assert Range(4) == 0x1_0000_0000;
    assert Range(6) == 0x1_0000_0000_0000;
  }

  lemma {:induction false} NumberOfBigEndian(n: nat, width: nat)
    requires n < Range(width)
    ensures Number(BigEndian(n, width)) == n
  {
    if width > 0 {
      NumberOfBigEndian(n / 256, width - 1);
      assert BigEndian(n, width)[..width - 1] == BigEndian(n / 256, width - 1);
    }
  }

  lemma {:induction false} BigEndianOfNumber(bytes: seq<Byte>)
    ensures BigEndian(Number(bytes), |bytes|) == bytes
  {
    if bytes != [] {
      var front := bytes[..|bytes| - 1];
      BigEndianOfNumber(front);
      assert Number(bytes) / 256 == Number(front) && Number(bytes) % 256 == bytes[|bytes| - 1];
      assert bytes == front + [bytes[|bytes| - 1]];
    }
  }

  // ---- length-prefixed parts ----

  function Part(data: seq<Byte>): seq<Byte> {
    BigEndian(|data|, LENGTH_BYTES) + data
  }

  function Encode(parts: seq<seq<Byte>>): seq<Byte> {
    if parts == [] then [] else Part(parts[0]) + Encode(parts[1..])
  }

  /** Reads parts until the input is used up; a short part is an error. */
  function Decode(bytes: seq<Byte>): Option<seq<seq<Byte>>>
    decreases |bytes|
  {
    if bytes == [] then Some([])
    else if |bytes| < LENGTH_BYTES then None
    else
      var end := LENGTH_BYTES + Number(bytes[..LENGTH_BYTES]);
      if |bytes| < end then None
      else
        var rest :- Decode(bytes[end..]);
        Some([bytes[LENGTH_BYTES..end]] + rest)
  }

  /** Decoding gives back exactly the parts. */
  lemma {:induction false} DecodeEncode(parts: seq<seq<Byte>>)
    requires forall i :: 0 <= i < |parts| ==> |parts[i]| < LENGTH_LIMIT
    ensures Decode(Encode(parts)) == Some(parts)
  {
    if parts != [] {
      var data, rest := parts[0], Encode(parts[1..]);
      var bytes := Encode(parts);
      var end := LENGTH_BYTES + |data|;
      RangeOfLength();
      NumberOfBigEndian(|data|, LENGTH_BYTES);
      assert bytes == BigEndian(|data|, LENGTH_BYTES) + data + rest;
      assert bytes[..LENGTH_BYTES] == BigEndian(|data|, LENGTH_BYTES);
      assert bytes[LENGTH_BYTES..end] == data && bytes[end..] == rest;
      DecodeEncode(parts[1..]);
      assert parts == [data] + parts[1..];
    }
  }

  /** Only encodings decode. */
  lemma {:induction false} EncodeDecode(bytes: seq<Byte>)
    requires Decode(bytes).Some?
    ensures Encode(Decode(bytes).value) == bytes
    decreases |bytes|
  {
    if bytes != [] {
      var end := LENGTH_BYTES + Number(bytes[..LENGTH_BYTES]);
      EncodeDecode(bytes[end..]);
      BigEndianOfNumber(bytes[..LENGTH_BYTES]);
      var rest := Decode(bytes[end..]).value;
      assert ([bytes[LENGTH_BYTES..end]] + rest)[1..] == rest;
      assert bytes == bytes[..LENGTH_BYTES] + bytes[LENGTH_BYTES..end] + bytes[end..];
    }
  }

  lemma PartsInjective(a: Checksums, b: Checksums)
    requires a.Parts() == b.Parts()
    ensures a == b
  {
    assert a.Parts()[0] == b.Parts()[0] && a.Parts()[1] == b.Parts()[1];
    assert a.chain == a.Parts()[2..] == b.Parts()[2..] == b.chain;
  }

  /** Different bundles feed different bytes to the hash, equal ones the same. */
  lemma PreimagesIdentify(a: Checksums, b: Checksums)
    requires a.Fits() && b.Fits()
    ensures Encode(a.Parts()) == Encode(b.Parts()) <==> a == b
  {
    DecodeEncode(a.Parts());
    DecodeEncode(b.Parts());
    if a.Parts() == b.Parts() {
      PartsInjective(a, b);
    }
  }

  lemma {:induction false} EncodeAppend(parts: seq<seq<Byte>>, data: seq<Byte>)
    ensures Encode(parts + [data]) == Encode(parts) + Part(data)
  {
    if parts == [] {
      assert Encode([data]) == Part(data) + Encode([]);
    } else {
      assert (parts + [data])[1..] == parts[1..] + [data];
      EncodeAppend(parts[1..], data);
    }
  }

  /** Writes the parts into the running hash one after the other. */
  method HashedBytes(bundle: Checksums) returns (written: seq<Byte>)
    ensures written == Encode(bundle.Parts())
  {
    written := Part(bundle.certificate);
    written := written + Part(bundle.key);
    EncodeAppend([], bundle.certificate);
    EncodeAppend([bundle.certificate], bundle.key);
    assert [] + [bundle.certificate] == [bundle.certificate];
    for i := 0 to |bundle.chain|
      invariant written == Encode([bundle.certificate, bundle.key] + bundle.chain[..i])
    {
      EncodeAppend([bundle.certificate, bundle.key] + bundle.chain[..i], bundle.chain[i]);
      assert [bundle.certificate, bundle.key] + bundle.chain[..i + 1] ==
        [bundle.certificate, bundle.key] + bundle.chain[..i] + [bundle.chain[i]];
      written := written + Part(bundle.chain[i]);
    }
    assert bundle.chain[..|bundle.chain|] == bundle.chain;
  }
}
