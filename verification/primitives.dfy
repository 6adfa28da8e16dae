/**
 Byte strings, fixed-size keys and nonces, and the two foreign collaborators of the
 library: NaCl's `box` construction and the BSON serializer.

 Neither collaborator is modelled internally. Each is a record of functions handed to
 the operations as a parameter, and what the library relies on about it is written down
 as a predicate (`Sound`, `Faithful`) that only the lemmas needing it assume.
 */
module Primitives {
  import opened Wrappers

  newtype byte = x: int | 0 <= x < 256

  type Bytes = seq<byte>

  /** Length of a Curve25519 key and of a precomputed shared key (`[32]byte`). */
  const KeySize: nat := 32

  /** `cNonceSize`: the length of the nonce that prefixes every envelope. */
  const NonceSize: nat := 24

  /** NaCl `box.Overhead`: the length of the Poly1305 tag that sealing adds. */
  const Overhead: nat := 16

  type Key = k: Bytes | |k| == KeySize witness seq(KeySize, _ => 0)

  type Nonce = n: Bytes | |n| == NonceSize witness seq(NonceSize, _ => 0)

  /** The all-zero key, `[32]byte{}`. */
  const ZeroKey: Key := [0, 0, 0, 0, 0, 0, 0, 0, 0, 0, 0, 0, 0, 0, 0, 0,
                          0, 0, 0, 0, 0, 0, 0, 0, 0, 0, 0, 0, 0, 0, 0, 0]

  /** A Curve25519 key pair as `box.GenerateKey` produces it. */
  datatype KeyPair = KeyPair(publicKey: Key, privateKey: Key)

  /** Failures the library reports; the text of the Go error values is not modelled. */
  datatype Error =
    | SerializationError    // bson.Marshal failed
    | RandomnessError       // the random source could not fill a key or nonce
    | TooShort              // the envelope is shorter than a nonce
    | OpenFailed            // authenticated decryption rejected the body
    | DeserializationError  // bson.Unmarshal failed

  /**
   The NaCl `box` operations the library calls:
   - `derivePublic(priv)`: the public key that belongs to `priv` (Curve25519 base-point
     multiplication, as done inside `box.GenerateKey`);
   - `precompute(peerPublic, ownPrivate)`: `box.Precompute`;
   - `seal(key, nonce, plain)`: the bytes `box.SealAfterPrecomputation` appends to its
     `out` argument;
   - `open(key, nonce, body)`: `box.OpenAfterPrecomputation`, `None` when the tag does not
     verify.
   */
  datatype Suite = Suite(
    derivePublic: Key -> Key,
    precompute: (Key, Key) -> Key,
    seal: (Key, Nonce, Bytes) -> Bytes,
    open: (Key, Nonce, Bytes) -> Option<Bytes>)

  /** A key pair whose public half really belongs to its private half. */
  ghost predicate ValidPair(s: Suite, kp: KeyPair) {
    kp.publicKey == s.derivePublic(kp.privateKey)
  }

  /** What the library relies on about NaCl `box`. */
  ghost predicate Sound(s: Suite) {
    // opening what was sealed under the same key and nonce gives the plaintext back
    && (forall k: Key, n: Nonce, p: Bytes :: s.open(k, n, s.seal(k, n, p)) == Some(p))
    // sealing adds exactly the authentication tag
    && (forall k: Key, n: Nonce, p: Bytes :: |s.seal(k, n, p)| == |p| + Overhead)
    // Diffie-Hellman symmetry of the precomputed key
    && (forall a: Key, b: Key :: s.precompute(s.derivePublic(a), b) == s.precompute(s.derivePublic(b), a))
  }

  /** `bson.Marshal` / `bson.Unmarshal` for documents of type `V`; `None` is an error return. */
  datatype Serializer<!V> = Serializer(marshal: V -> Option<Bytes>, unmarshal: Bytes -> Option<V>)

  /** Whatever marshals successfully unmarshals back to the same document. */
  ghost predicate Faithful<V(!new)>(ser: Serializer<V>) {
    forall v: V :: ser.marshal(v).Some? ==> ser.unmarshal(ser.marshal(v).value) == Some(v)
  }

  /*
   A concrete suite and serializer meeting the predicates above, so that the lemmas that
   assume `Sound` and `Faithful` are not vacuous. They have no cryptographic strength.
   */

  function ToySeal(k: Key, n: Nonce, p: Bytes): Bytes {
    p + seq(Overhead, _ => 0)
  }

  function ToyOpen(k: Key, n: Nonce, body: Bytes): Option<Bytes> {
    if |body| < Overhead then None else Some(body[..|body| - Overhead])
  }

  function ToyPrecompute(peer: Key, own: Key): Key {
    seq(KeySize, i requires 0 <= i < KeySize => ((peer[i] as int + own[i] as int) % 256) as byte)
  }

  function ToySuite(): Suite {
    Suite(k => k, ToyPrecompute, ToySeal, ToyOpen)
  }

  lemma ToySuiteIsSound()
    ensures Sound(ToySuite())
  {
    var s := ToySuite();
    forall a: Key, b: Key
      ensures s.precompute(s.derivePublic(a), b) == s.precompute(s.derivePublic(b), a)
    {
      assert ToyPrecompute(a, b) == ToyPrecompute(b, a);
    }
  }

  function IdentitySerializer(): Serializer<Bytes> {
    Serializer(p => Some(p), p => Some(p))
  }

  lemma IdentitySerializerIsFaithful()
    ensures Faithful(IdentitySerializer())
  {
  }
}
