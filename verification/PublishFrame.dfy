/**
 The body of a Cargo publish request (scripts/ci/cargo_release_candidate.py): two length-prefixed parts,
 as the "Publish" section of the Cargo Book's Registry Web API lays them out.
 */
module PublishFrame {
  import opened Prelude

  newtype Byte = x: int | 0 <= x < 256

  type Bytes = seq<Byte>

  datatype FrameError = TooLong | OverBudget | BadSize | BadMetadataLength | BadArchiveLength

  const U32: nat := 0x1_0000_0000
  const MAX_ARCHIVE_BYTES: nat := 10 * 1024 * 1024
  const MAX_REQUEST_BYTES: nat := MAX_ARCHIVE_BYTES + 4 * 1024 * 1024

  /** Little-endian, four bytes. */
  function Pack(n: nat): Bytes
    requires n < U32
  {
    [(n % 256) as Byte, (n / 256 % 256) as Byte, (n / 65536 % 256) as Byte, (n / 16777216) as Byte]
  }

  function Unpack(b: Bytes): nat
    requires |b| == 4
  {
    b[0] as nat + 256 * b[1] as nat + 65536 * b[2] as nat + 16777216 * b[3] as nat
  }

  lemma UnpackPack(n: nat)
    requires n < U32
    ensures Unpack(Pack(n)) == n
  {
    assert n / 65536 == n / 256 / 256 && n / 16777216 == n / 256 / 256 / 256;
  }

  lemma PackUnpack(b: Bytes)
    requires |b| == 4
    ensures Unpack(b) < U32 && Pack(Unpack(b)) == b
  {
    var n := Unpack(b);
    assert n % 256 == b[0] as nat && n / 256 == b[1] as nat + 256 * b[2] as nat + 65536 * b[3] as nat;
    assert n / 65536 == n / 256 / 256 == b[2] as nat + 256 * b[3] as nat;
    assert n / 16777216 == n / 65536 / 256 == b[3] as nat;
  }

  function Frame(metadata: Bytes, archive: Bytes): Bytes
    requires |metadata| < U32 && |archive| < U32
  {
    Pack(|metadata|) + metadata + Pack(|archive|) + archive
  }

  function Encode(metadata: Bytes, archive: Bytes): Result<Bytes, FrameError> {
    if |metadata| >= U32 || |archive| >= U32 then Err(TooLong)
    else if |Frame(metadata, archive)| > MAX_REQUEST_BYTES then Err(OverBudget)
    else Ok(Frame(metadata, archive))
  }

  function Decode(body: Bytes): Result<(Bytes, Bytes), FrameError> {
    if |body| < 8 || |body| > MAX_REQUEST_BYTES then Err(BadSize)
    else
      var end := 4 + Unpack(body[..4]);
      if end + 4 > |body| then Err(BadMetadataLength)
      else
        var start := end + 4;
        if start + Unpack(body[end..start]) != |body| then Err(BadArchiveLength)
        else Ok((body[4..end], body[start..]))
  }

  /** Both parts are found again, whatever they hold. */
  lemma FrameSplits(metadata: Bytes, archive: Bytes)
    requires |metadata| < U32 && |archive| < U32
    ensures var body, end := Frame(metadata, archive), 4 + |metadata|;
            && |body| == 8 + |metadata| + |archive|
            && body[..4] == Pack(|metadata|) && body[4..end] == metadata
            && body[end..end + 4] == Pack(|archive|) && body[end + 4..] == archive
  {
  }

  /** Encoding succeeds exactly within the budget, and then decoding returns the same two parts. */
  lemma EncodeRoundTrip(metadata: Bytes, archive: Bytes)
    ensures Encode(metadata, archive).Ok? <==> 8 + |metadata| + |archive| <= MAX_REQUEST_BYTES
    ensures Encode(metadata, archive).Ok? ==> Decode(Encode(metadata, archive).value) == Ok((metadata, archive))
  {
    if |metadata| < U32 && |archive| < U32 {
      FrameSplits(metadata, archive);
      UnpackPack(|metadata|);
      UnpackPack(|archive|);
    }
  }

  /** Every accepted body is the frame of the two parts it is split into, so no two bodies decode alike. */
  lemma DecodeRoundTrip(body: Bytes)
    requires Decode(body).Ok?
    ensures Encode(Decode(body).value.0, Decode(body).value.1) == Ok(body)
  {
    var end := 4 + Unpack(body[..4]);
    var start := end + 4;
    PackUnpack(body[..4]);
    PackUnpack(body[end..start]);
    assert body == body[..4] + body[4..end] + body[end..start] + body[start..];
  }

  /** Decoding accepts exactly the bodies that encoding produces. */
  lemma DecodeAcceptsFrames(body: Bytes)
    ensures Decode(body).Ok? <==> exists metadata, archive :: Encode(metadata, archive) == Ok(body)
  {
    if Decode(body).Ok? {
      DecodeRoundTrip(body);
    }
    if metadata, archive :| Encode(metadata, archive) == Ok(body) {
      EncodeRoundTrip(metadata, archive);
    }
  }
}
