/**
 How the three parts fit together: an agent created against a collector's public key and
 registered with that collector shares its key with it, so the collector opens what the
 agent boxes.
 */
module Scenario {
  import opened Wrappers
  import opened Primitives
  import Envelope
  import Sender
  import Registry

  /** The key a collector stores for a freshly registered agent is the key the agent caches. */
  lemma CollectorKeyMatchesAgent(s: Suite, c: Registry.Collector, name: string, generated: KeyPair)
    requires Sound(s)
    requires ValidPair(s, KeyPair(Registry.PublicKey(c), c.privateKey))
    requires ValidPair(s, generated)
    ensures Sender.NewAgent(s, Registry.PublicKey(c), Some(generated)).Success?
    ensures var agent := Sender.NewAgent(s, Registry.PublicKey(c), Some(generated)).value;
            var c' := Registry.PrecomputeForAgent(s, c, name, Sender.PublicKey(agent));
            Registry.SharedKey(c', name) == (Sender.SharedKey(agent), true)
  {
    Sender.AgentKeyMatchesRecipient(s, KeyPair(Registry.PublicKey(c), c.privateKey), generated);
  }

  /**
   The test set-up and round trip: create a collector from a key pair, an agent against the
   collector's public key, register the agent under `name`, box `v` with the agent's key and
   unbox it with the key the collector finds under `name`.
   */
  lemma AgentBoxCollectorUnbox<V(!new)>(s: Suite, ser: Serializer<V>, collectorPair: KeyPair, agentPair: KeyPair,
                                        name: string, nonce: Nonce, v: V)
    requires Sound(s) && Faithful(ser)
    requires ValidPair(s, collectorPair) && ValidPair(s, agentPair)
    requires ser.marshal(v).Some?
    ensures
      var collector := Registry.NewCollector(collectorPair.privateKey, collectorPair.publicKey);
      var agent := Sender.NewAgent(s, Registry.PublicKey(collector), Some(agentPair));
      && agent.Success?
      && var registered := Registry.PrecomputeForAgent(s, collector, name, Sender.PublicKey(agent.value));
         var ciphered := Envelope.Box(s, ser, Sender.SharedKey(agent.value), v, Some(nonce));
         var (cshared, ok) := Registry.SharedKey(registered, name);
         && ciphered.Success?
         && ok
         && Envelope.Unbox(s, ser, ciphered.value, cshared) == Success(v)
  {
    var collector := Registry.NewCollector(collectorPair.privateKey, collectorPair.publicKey);
    CollectorKeyMatchesAgent(s, collector, name, agentPair);
    var agent := Sender.NewAgent(s, Registry.PublicKey(collector), Some(agentPair)).value;
    Envelope.BoxUnboxRoundTrip(s, ser, Sender.SharedKey(agent), v, nonce);
  }
}
