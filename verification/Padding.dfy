/** Message padding onto a ladder of sizes, and the size limits that follow from it. */
module Padding {
  import opened Common

  type Bytes = seq<byte>

  /** The server's limit on a message's content, in characters. */
  const MAX_CONTENT_BYTES: nat := 8192
  const LENGTH_BYTES: nat := 2
  /** Key id, nonce and tag. */
  const ENVELOPE_BYTES: nat := 4 + 12 + 16
  const TOP_BUCKET: nat := MAX_CONTENT_BYTES / 4 * 3 - ENVELOPE_BYTES
  const BUCKETS: seq<nat> := [32, 64, 128, 256, 512, 1024, 2048, 4096, TOP_BUCKET]

  datatype PaddingError = MessageTooLong | ShorterThanLength | LengthDoesNotFit

  function MaxPlaintextBytes(): nat {
    TOP_BUCKET - LENGTH_BYTES
  }

  /** The first of a series of rungs that is large enough. */
  function FirstFit(rungs: seq<nat>, needed: nat): Option<nat> {
    if rungs == [] then None else if needed <= rungs[0] then Some(rungs[0]) else FirstFit(rungs[1..], needed)
  }

  function Bucket(length: nat): (r: Result<nat, PaddingError>) {
    match FirstFit(BUCKETS, length + LENGTH_BYTES)
    case Some(rung) => Ok(rung)
    case None => Err(MessageTooLong)
  }

  lemma {:induction false} FirstFitIs(rungs: seq<nat>, needed: nat, i: nat)
    requires i <= |rungs| && (forall j :: 0 <= j < i ==> rungs[j] < needed) && (i < |rungs| ==> needed <= rungs[i])
    ensures FirstFit(rungs, needed) == if i < |rungs| then Some(rungs[i]) else None
  {
    if i == 0 {
    } else {
      FirstFitIs(rungs[1..], needed, i - 1);
    }
  }

  lemma LeastRung(length: nat, i: nat)
    requires i < |BUCKETS| && length + LENGTH_BYTES <= BUCKETS[i]
    requires forall j :: 0 <= j < i ==> BUCKETS[j] < length + LENGTH_BYTES
    ensures Bucket(length) == Ok(BUCKETS[i])
  {
    FirstFitIs(BUCKETS, length + LENGTH_BYTES, i);
  }

  /** The least rung that holds the plaintext and its length field. */
  method BucketFor(length: nat) returns (r: Result<nat, PaddingError>)
    ensures r == Bucket(length)
  {
    var needed := length + LENGTH_BYTES;
    for i := 0 to |BUCKETS|
      invariant forall j :: 0 <= j < i ==> BUCKETS[j] < needed
    {
      if needed <= BUCKETS[i] {
        LeastRung(length, i);
        return Ok(BUCKETS[i]);
      }
    }
    FirstFitIs(BUCKETS, needed, |BUCKETS|);
    return Err(MessageTooLong);
  }

  /** A plaintext fits exactly up to the largest one, and then goes out at the least rung that holds it. */
  lemma BucketIsLeast(length: nat)
    ensures Bucket(length).Ok? <==> length <= MaxPlaintextBytes()
    ensures Bucket(length).Ok? ==> Bucket(length).value in BUCKETS && length + LENGTH_BYTES <= Bucket(length).value
    ensures Bucket(length).Ok? ==> forall rung :: rung in BUCKETS && length + LENGTH_BYTES <= rung ==>
                                                    Bucket(length).value <= rung
  {
    var needed := length + LENGTH_BYTES;
    var i := 0;
    while i < |BUCKETS| && BUCKETS[i] < needed
      invariant i <= |BUCKETS| && forall j :: 0 <= j < i ==> BUCKETS[j] < needed
    {
      i := i + 1;
    }
    FirstFitIs(BUCKETS, needed, i);
    assert MaxPlaintextBytes() + LENGTH_BYTES == BUCKETS[8] && |BUCKETS| == 9;
    assert forall a, b :: 0 <= a < b < |BUCKETS| ==> BUCKETS[a] < BUCKETS[b];
  }

  function BigEndian(length: nat): Bytes
    requires length < 65536
  {
    [length / 256, length % 256]
  }

  function Zeros(n: nat): (z: Bytes)
    ensures |z| == n && forall i :: 0 <= i < n ==> z[i] == 0
  {
    seq(n, _ => 0)
  }

  function Pad(plaintext: Bytes): Result<Bytes, PaddingError> {
    BucketIsLeast(|plaintext|);
    match Bucket(|plaintext|)
    case Err(e) => Err(e)
    case Ok(rung) => Ok(BigEndian(|plaintext|) + plaintext + Zeros(rung - |plaintext| - LENGTH_BYTES))
  }

  function Unpad(payload: Bytes): Result<Bytes, PaddingError> {
    if |payload| < LENGTH_BYTES then Err(ShorterThanLength)
    else
      var length := payload[0] as int * 256 + payload[1] as int;
      if length > |payload| - LENGTH_BYTES then Err(LengthDoesNotFit)
      else Ok(payload[LENGTH_BYTES..LENGTH_BYTES + length])
  }

  /** Padding loses nothing, and its size tells only the rung. */
  lemma PadUnpad(plaintext: Bytes)
    ensures Pad(plaintext).Ok? <==> |plaintext| <= MaxPlaintextBytes()
    ensures Pad(plaintext).Ok? ==> Unpad(Pad(plaintext).value) == Ok(plaintext)
    ensures Pad(plaintext).Ok? ==> Ok(|Pad(plaintext).value|) == Bucket(|plaintext|)
    ensures Pad(plaintext).Ok? ==> forall k :: LENGTH_BYTES + |plaintext| <= k < |Pad(plaintext).value| ==>
                                                 Pad(plaintext).value[k] == 0
  {
    BucketIsLeast(|plaintext|);
  }

  /** Exactly which payloads unpad to a text: its length, the text, then anything. */
  lemma UnpadInverts(payload: Bytes, text: Bytes)
    requires |text| < 65536
    ensures Unpad(payload) == Ok(text) <==> BigEndian(|text|) + text <= payload
  {
    if |payload| >= LENGTH_BYTES {
      var length := payload[0] as int * 256 + payload[1] as int;
      assert length / 256 == payload[0] && length % 256 == payload[1];
      if BigEndian(|text|) + text <= payload {
        assert payload[0] == (BigEndian(|text|) + text)[0] && payload[1] == (BigEndian(|text|) + text)[1];
        assert payload[LENGTH_BYTES..LENGTH_BYTES + |text|] == text;
      }
    }
  }

  // The size of a message on the wire.

  /**
   Base64 with the URL-safe alphabet and padding, section 5 of RFC 4648: four characters for every three bytes begun.
  */
  function Base64Length(bytes: nat): nat {
    (bytes + 2) / 3 * 4
  }

  function TokenLength(rung: nat): nat {
    Base64Length(ENVELOPE_BYTES + rung)
  }

  /** The client's own test, made after encrypting. */
  predicate IsTooLong(length: nat) {
    match Bucket(length)
    case Err(_) => true
    case Ok(rung) => TokenLength(rung) > MAX_CONTENT_BYTES
  }

  /** The test agrees with the limit known beforehand, and the largest message fills the server's limit exactly. */
  lemma TooLongExactly(length: nat)
    ensures IsTooLong(length) <==> length > MaxPlaintextBytes()
    ensures TokenLength(TOP_BUCKET) == MAX_CONTENT_BYTES
  {
    BucketIsLeast(length);
    assert forall i :: 0 <= i < |BUCKETS| ==> BUCKETS[i] <= TOP_BUCKET;
  }

  lemma TokenLengthsDiffer(i: nat, j: nat)
    requires i < j < |BUCKETS|
    ensures TokenLength(BUCKETS[i]) < TokenLength(BUCKETS[j])
  {
    assert BUCKETS[i] + 32 <= BUCKETS[j];
  }

  /** The server sees the rung and nothing more: two texts give tokens of one length exactly when they share a rung. */
  lemma LengthTellsRung(a: nat, b: nat)
    requires Bucket(a).Ok? && Bucket(b).Ok?
    ensures TokenLength(Bucket(a).value) == TokenLength(Bucket(b).value) <==> Bucket(a) == Bucket(b)
  {
    BucketIsLeast(a);
    BucketIsLeast(b);
    var i :| 0 <= i < |BUCKETS| && BUCKETS[i] == Bucket(a).value;
    var j :| 0 <= j < |BUCKETS| && BUCKETS[j] == Bucket(b).value;
    if i < j { TokenLengthsDiffer(i, j); }
    if j < i { TokenLengthsDiffer(j, i); }
  }
}
