/**
 The envelope codec: `Box` serializes a document and seals it under a precomputed shared
 key, returning `nonce || sealed`; `Unbox` splits such an envelope at the nonce boundary,
 opens the body and only then deserializes it.
 */
module Envelope {
  import opened Wrappers
  import opened Primitives

  /** The envelope layout. `box.SealAfterPrecomputation` appends the sealed message to its
      `out` argument, and `Box` passes the nonce buffer as `out`. */
  function Frame(nonce: Nonce, sealed: Bytes): (env: Bytes)
    ensures |env| == NonceSize + |sealed|
    ensures env[..NonceSize] == nonce
    ensures env[NonceSize..] == sealed
  {
    nonce + sealed
  }

  /** The inverse of `Frame`: the first `NonceSize` bytes are the nonce, the rest the body. */
  function Split(data: Bytes): (r: Option<(Nonce, Bytes)>)
    ensures r.None? <==> |data| < NonceSize
    ensures r.Some? ==> Frame(r.value.0, r.value.1) == data
  {
    if |data| < NonceSize then None else Some((data[..NonceSize], data[NonceSize..]))
  }

  /** Splitting a framed envelope recovers exactly the nonce and the body. */
  lemma SplitFrame(nonce: Nonce, sealed: Bytes)
    ensures Split(Frame(nonce, sealed)) == Some((nonce, sealed))
  {
  }

  /**
   `Box(sharedKey, v)`. `nonce` is what reading `NonceSize` bytes from the random source
   produced, `None` when that read failed; it is consulted only after marshalling succeeded.
   */
  function Box<V>(s: Suite, ser: Serializer<V>, sharedKey: Key, v: V, nonce: Option<Nonce>): (r: Result<Bytes, Error>)
    ensures ser.marshal(v).None? ==> r == Failure(SerializationError)
    ensures ser.marshal(v).Some? && nonce.None? ==> r == Failure(RandomnessError)
    ensures ser.marshal(v).Some? && nonce.Some? ==> r.Success?
    ensures r.Success? ==>
      Split(r.value) == Some((nonce.value, s.seal(sharedKey, nonce.value, ser.marshal(v).value)))
    ensures r.Success? && Sound(s) ==> |r.value| == NonceSize + |ser.marshal(v).value| + Overhead
  {
    match ser.marshal(v)
    case None => Failure(SerializationError)
    case Some(plain) =>
      match nonce
      case None => Failure(RandomnessError)
      case Some(n) =>
        var env := Frame(n, s.seal(sharedKey, n, plain));
        SplitFrame(n, s.seal(sharedKey, n, plain));
        Success(env)
  }

  /** `Unbox(data, sharedKey, &v)`: the document `data` holds, or why it could not be read. */
  function Unbox<V>(s: Suite, ser: Serializer<V>, data: Bytes, sharedKey: Key): (r: Result<V, Error>)
    ensures r == Failure(TooShort) <==> |data| < NonceSize
    ensures r == Failure(OpenFailed) <==>
      |data| >= NonceSize && s.open(sharedKey, data[..NonceSize], data[NonceSize..]).None?
    ensures r == Failure(DeserializationError) <==>
      && |data| >= NonceSize
      && s.open(sharedKey, data[..NonceSize], data[NonceSize..]).Some?
      && ser.unmarshal(s.open(sharedKey, data[..NonceSize], data[NonceSize..]).value).None?
    ensures r.Success? ==>
      && |data| >= NonceSize
      && s.open(sharedKey, data[..NonceSize], data[NonceSize..]).Some?
      && ser.unmarshal(s.open(sharedKey, data[..NonceSize], data[NonceSize..]).value) == Some(r.value)
    ensures r.Failure? ==> r.error in {TooShort, OpenFailed, DeserializationError}
  {
    match Split(data)
    case None => Failure(TooShort)
    case Some((nonce, body)) =>
      match s.open(sharedKey, nonce, body)
      case None => Failure(OpenFailed)
      case Some(plain) =>
        match ser.unmarshal(plain)
        case None => Failure(DeserializationError)
        case Some(v) => Success(v)
  }

  /** A short envelope is rejected before any cryptography or deserialization: the outcome
      is the same whatever suite, serializer and key are used. */
  lemma UnboxShortInputIgnoresCrypto<V>(s1: Suite, s2: Suite, ser1: Serializer<V>, ser2: Serializer<V>,
                                        data: Bytes, k1: Key, k2: Key)
    requires |data| < NonceSize
    ensures Unbox(s1, ser1, data, k1) == Unbox(s2, ser2, data, k2) == Failure(TooShort)
  {
  }

  /** When opening fails no plaintext is released: the deserializer is never consulted, so
      the outcome is the same whatever serializer is used. */
  lemma UnboxOpenFailureReleasesNothing<V>(s: Suite, ser1: Serializer<V>, ser2: Serializer<V>,
                                           data: Bytes, k: Key)
    requires |data| >= NonceSize
    requires s.open(k, data[..NonceSize], data[NonceSize..]).None?
    ensures Unbox(s, ser1, data, k) == Unbox(s, ser2, data, k) == Failure(OpenFailed)
  {
  }

  /** Round trip: what `Box` produces, `Unbox` with the same key reads back. */
  lemma BoxUnboxRoundTrip<V(!new)>(s: Suite, ser: Serializer<V>, sharedKey: Key, v: V, nonce: Nonce)
    requires Sound(s) && Faithful(ser)
    requires ser.marshal(v).Some?
    ensures Box(s, ser, sharedKey, v, Some(nonce)).Success?
    ensures Unbox(s, ser, Box(s, ser, sharedKey, v, Some(nonce)).value, sharedKey) == Success(v)
  {
    var plain := ser.marshal(v).value;
    var env := Box(s, ser, sharedKey, v, Some(nonce)).value;
    assert env == Frame(nonce, s.seal(sharedKey, nonce, plain));
    SplitFrame(nonce, s.seal(sharedKey, nonce, plain));
    assert s.open(sharedKey, nonce, s.seal(sharedKey, nonce, plain)) == Some(plain);
  }
}
