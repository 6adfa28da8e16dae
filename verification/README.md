# cryptbson in Dafny

A model of `cryptbson`, a Go library that adds application-level authenticated encryption
on top of BSON encoding. It has three parts:

- **Envelope codec.** `Box` marshals a document to BSON. It then seals the bytes with NaCl
  `box` under a precomputed shared key and a fresh 24-byte nonce, and returns
  `nonce || sealed`. `Unbox` rejects input shorter than the nonce. It then splits the input
  at offset 24, opens the body, and only then unmarshals it. This is module `Envelope` in
  `envelope.dfy`.
- **Sender identity (`Agent`).** It holds a generated public key and the key it shares
  with one recipient. Nothing changes it after construction, and it does not keep its
  private key. This is module `Sender` in `sender.dfy`.
- **Receiver registry (`Collector`).** It holds a fixed key pair and a map from agent name
  to shared key. `PrecomputeForAgent` derives a key and stores it under a name; the last
  write wins. `SharedKey` looks a name up. This is module `Registry` in `registry.dfy`.

NaCl `box` and BSON are foreign libraries. Each one is a record of functions passed to the
operations as a parameter (`Primitives.Suite`, `Primitives.Serializer`). What the library
relies on about them is written as a predicate, and only the lemmas that need it assume it:

- `Sound`: opening a sealed message returns the plaintext; sealing adds the 16-byte tag;
  precomputation is Diffie–Hellman symmetric.
- `Faithful`: whatever marshals also unmarshals back to the same value.

`ToySuite` and `IdentitySerializer` are concrete instances that meet these predicates, so
the assumptions can be satisfied.

Randomness is an input. `Box` takes the result of reading the nonce, and `NewAgent` takes
the result of `box.GenerateKey`. In both, `None` stands for a failed read from the random
source.

A Go method that mutates a collector becomes a function that returns the new collector.
`Scenario` (`scenario.dfy`) replays the package test end to end.

## Model

| member | source | states |
|---|---|---|
| Envelope.Frame | cryptbson.go:70-77 | The envelope starts with the 24-byte nonce and continues with the sealed bytes, so its length is 24 plus the sealed length. |
| Envelope.Split | cryptbson.go:81-90 | An input splits exactly when it is at least 24 bytes long; the nonce is the first 24 bytes and the body the rest, and framing the two gives back the input with nothing dropped or reordered. |
| Envelope.SplitFrame | cryptbson.go:76-90 | Splitting what `Box` framed recovers exactly the nonce and the sealed body. |
| Envelope.Box | cryptbson.go:64-78 | A marshal failure is reported first, then a failed nonce read; otherwise the result is the nonce followed by the sealing of the marshalled bytes under that key and nonce, 24 + plaintext + 16 bytes long when NaCl is sound. |
| Envelope.Unbox | cryptbson.go:80-101 | Input shorter than 24 bytes fails as too short, and only such input does. Input whose body does not open fails as an open failure. Input that opens but does not unmarshal fails as a deserialization error. A success carries exactly what the opened plaintext unmarshals to. |
| Envelope.UnboxShortInputIgnoresCrypto | cryptbson.go:81-86 | A short input is rejected without any decryption or deserialization: the outcome is the same whatever cipher suite, serializer and key are used. |
| Envelope.UnboxOpenFailureReleasesNothing | cryptbson.go:90-95 | When opening fails, the unmarshaller is never consulted and no plaintext is released: the outcome is the same whatever serializer is used. |
| Envelope.BoxUnboxRoundTrip | cryptbson.go:64-101 | Given a sound NaCl and a faithful BSON, `Box` of a marshallable value succeeds, and `Unbox` with the same key returns that value. |
| Sender.NewAgent | cryptbson.go:36-50 | Creating an agent fails only when key generation fails. Otherwise the agent's public key is the generated public key and its shared key is the one precomputed from the recipient's public key and the generated private key. |
| Sender.PublicKey | cryptbson.go:52-56 | Returns the public key the agent was created with, which `NewAgent`'s contract fixes as the generated public key; reading it changes nothing. |
| Sender.SharedKey | cryptbson.go:58-62 | Returns the shared key the agent was created with, which `NewAgent`'s contract fixes as the key precomputed from the recipient's public key and the generated private key; reading it changes nothing. |
| Sender.AgentKeyMatchesRecipient | cryptbson.go:36-50 | With Diffie–Hellman symmetry, the agent's cached key is the one its recipient derives from the agent's public key and the recipient's private key. |
| Registry.NewCollector | cryptbson.go:112-124 | A new collector returns the given public key from `PublicKey`, keeps the given private key, and has no agent registered (every lookup gives the zero key and false). |
| Registry.PublicKey | cryptbson.go:120-124 | Returns the public key the collector was created with, which `NewCollector`'s contract fixes and `PrecomputeForAgent`'s contract keeps; reading it changes nothing. |
| Registry.SharedKey | cryptbson.go:126-132 | The lookup reports true exactly for registered names, together with the stored key; for any other name it gives the zero key and false. |
| Registry.PrecomputeForAgent | cryptbson.go:134-146 | After registering, the name maps to the key precomputed from the sender's public key and the collector's private key. Every other name looks up as before, the collector's key pair is unchanged, and the set of registered names gains exactly this name. |
| Registry.ReRegistrationLastWriteWins | cryptbson.go:141-143 | Registering a name twice gives the same collector as registering it once with the second key. |
| Registry.DistinctRegistrationsCommute | cryptbson.go:141-143 | Registrations of two different names give the same collector in either order. |
| Registry.RegisterAll | cryptbson.go:134-146 | A sequence of registrations leaves the key pair unchanged, and the registered names grow by exactly the names registered. |
| Registry.RegisterAllLookup | cryptbson.go:126-146 | After a sequence of registrations, every name registered in it holds the key derived from its latest registration, and every other name looks up as before. |
| Registry.RegistrationOrderIrrelevant | cryptbson.go:134-146 | Registering distinct names gives the same collector in any order, so no registration is lost. |
| Scenario.CollectorKeyMatchesAgent | cryptbson_test.go:35-44 | An agent is created against a collector's public key and registered with that collector. The collector then finds the agent's name, and the key it finds is exactly the agent's cached shared key. |
| Scenario.AgentBoxCollectorUnbox | cryptbson_test.go:53-77 | Replays the test: collector from a key pair, agent against its public key, registration under a name, `Box` with the agent's key, lookup of the name, `Unbox` with the key found. Every step succeeds, and the unboxed document equals the original. |

## Left out

- NaCl `box` internals are not modelled: Curve25519, HSalsa20 precomputation, and
  XSalsa20-Poly1305 sealing. They are a foreign library, so the model keeps only the
  properties in `Sound`.
- BSON marshalling (`gopkg.in/mgo.v2/bson`) is not modelled internally. It is a foreign
  library, so the model keeps only the round-trip property in `Faithful`.
- `crypto/rand` is not modelled. Randomness is I/O, so the generated key pair and the nonce
  are parameters, and `None` stands for a failed read (cryptbson.go:37-43, 71-74).
- Tamper detection, wrong-key rejection and nonce uniqueness are left out. They are
  cryptographic or probabilistic guarantees of NaCl and the random source. Exact functional
  axioms cannot state them truthfully, because forgeries and collisions are unlikely, not
  impossible.
- `sync.RWMutex` locking is left out because the model is sequential. One defect is noted
  and not reproduced: `Collector.SharedKey` (cryptbson.go:126-127) reads the map without
  taking the read lock, so it races with `PrecomputeForAgent`'s write (cryptbson.go:141-143).
- Error message text from `fmt.Errorf` is left out. Only the kind of failure is modelled.
- `NewCollector` and `PrecomputeForAgent` return an error that is always nil. The model
  returns no error for them.
- `Unbox` in Go unmarshals into a value the caller supplies. The model returns the value
  instead, so it does not model partial filling of that value when unmarshalling fails.
- `cTagLabel` is unused in the code and not modelled.
