/**
 The sender identity (`Agent`): a freshly generated key pair reduced to its public half and
 the key it shares with one fixed recipient. The private half is not kept, and nothing
 changes an agent after construction.
 */
module Sender {
  import opened Wrappers
  import opened Primitives

  datatype Agent = Agent(publicKey: Key, sharedKey: Key)

  /**
   `NewAgent(recipientPublicKey)`. `generated` is what `box.GenerateKey` returned, `None`
   when the random source failed.
   */
  function NewAgent(s: Suite, recipientPublicKey: Key, generated: Option<KeyPair>): (r: Result<Agent, Error>)
    ensures r.Failure? <==> generated.None?
    ensures r.Failure? ==> r.error == RandomnessError
    ensures r.Success? ==> PublicKey(r.value) == generated.value.publicKey
    ensures r.Success? ==> SharedKey(r.value) == s.precompute(recipientPublicKey, generated.value.privateKey)
  {
    match generated
    case None => Failure(RandomnessError)
    case Some(kp) => Success(Agent(kp.publicKey, s.precompute(recipientPublicKey, kp.privateKey)))
  }

  /** `Agent.PublicKey`: the identity's own public key, to be handed to the recipient. */
  function PublicKey(a: Agent): Key {
    a.publicKey
  }

  /** `Agent.SharedKey`: the precomputed key used to box documents for the recipient. */
  function SharedKey(a: Agent): Key {
    a.sharedKey
  }

  /**
   The key an agent caches is the one its recipient derives from the agent's public key and
   its own private key: this is what lets the recipient open the agent's envelopes.
   */
  lemma AgentKeyMatchesRecipient(s: Suite, recipient: KeyPair, generated: KeyPair)
    requires Sound(s)
    requires ValidPair(s, recipient) && ValidPair(s, generated)
    ensures NewAgent(s, recipient.publicKey, Some(generated)).Success?
    ensures var a := NewAgent(s, recipient.publicKey, Some(generated)).value;
            SharedKey(a) == s.precompute(PublicKey(a), recipient.privateKey)
  {
    assert s.precompute(s.derivePublic(recipient.privateKey), generated.privateKey)
        == s.precompute(s.derivePublic(generated.privateKey), recipient.privateKey);
  }
}
