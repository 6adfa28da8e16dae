/**
 The receiver registry (`Collector`): a fixed key pair and a map from agent name to the key
 shared with that agent. Registering a name derives the key from the agent's public key and
 the collector's private key and stores it, the last registration of a name winning.
 */
module Registry {
  import opened Wrappers
  import opened Primitives

  datatype Collector = Collector(publicKey: Key, privateKey: Key, sharedKeys: map<string, Key>)

  /** `NewCollector(privateKey, publicKey)`: the given pair and no registered agent. */
  function NewCollector(privateKey: Key, publicKey: Key): (c: Collector)
    ensures PublicKey(c) == publicKey && c.privateKey == privateKey
    ensures forall agent :: SharedKey(c, agent) == (ZeroKey, false)
  {
    Collector(publicKey, privateKey, map[])
  }

  /** `Collector.PublicKey`. */
  function PublicKey(c: Collector): Key {
    c.publicKey
  }

  /** `Collector.SharedKey(agent)`: the stored key and `true`, or the zero key and `false`. */
  function SharedKey(c: Collector, agent: string): (r: (Key, bool))
    ensures r.1 <==> agent in c.sharedKeys
    ensures r.1 ==> r.0 == c.sharedKeys[agent]
    ensures !r.1 ==> r.0 == ZeroKey
  {
    if agent in c.sharedKeys then (c.sharedKeys[agent], true) else (ZeroKey, false)
  }

  /** `Collector.PrecomputeForAgent(agent, senderPublicKey)`, whose error result is always nil. */
  function PrecomputeForAgent(s: Suite, c: Collector, agent: string, senderPublicKey: Key): (c': Collector)
    ensures SharedKey(c', agent) == (s.precompute(senderPublicKey, c.privateKey), true)
    ensures forall other :: other != agent ==> SharedKey(c', other) == SharedKey(c, other)
    ensures PublicKey(c') == PublicKey(c) && c'.privateKey == c.privateKey
    ensures c'.sharedKeys.Keys == c.sharedKeys.Keys + {agent}
  {
    c.(sharedKeys := c.sharedKeys[agent := s.precompute(senderPublicKey, c.privateKey)])
  }

  /** Registering a name twice keeps only the second registration. */
  lemma ReRegistrationLastWriteWins(s: Suite, c: Collector, agent: string, first: Key, second: Key)
    ensures PrecomputeForAgent(s, PrecomputeForAgent(s, c, agent, first), agent, second)
         == PrecomputeForAgent(s, c, agent, second)
  {
  }

  /** Registrations of two different names do not interfere. */
  lemma DistinctRegistrationsCommute(s: Suite, c: Collector, a: string, pa: Key, b: string, pb: Key)
    requires a != b
    ensures PrecomputeForAgent(s, PrecomputeForAgent(s, c, a, pa), b, pb)
         == PrecomputeForAgent(s, PrecomputeForAgent(s, c, b, pb), a, pa)
  {
  }

  /** One call of `PrecomputeForAgent`. */
  datatype Registration = Registration(agent: string, senderPublicKey: Key)

  function Agents(regs: seq<Registration>): set<string> {
    set r | r in regs :: r.agent
  }

  /** The registrations applied one after the other, first to last. */
  function RegisterAll(s: Suite, c: Collector, regs: seq<Registration>): (c': Collector)
    ensures PublicKey(c') == PublicKey(c) && c'.privateKey == c.privateKey
    ensures c'.sharedKeys.Keys == c.sharedKeys.Keys + Agents(regs)
    decreases |regs|
  {
    if regs == [] then c
    else
      var prefix := regs[..|regs| - 1];
      var last := regs[|regs| - 1];
      assert regs == prefix + [last];
      assert Agents(regs) == Agents(prefix) + {last.agent};
      PrecomputeForAgent(s, RegisterAll(s, c, prefix), last.agent, last.senderPublicKey)
  }

  /** The sender key of the latest registration of `agent`, if any. */
  function LatestKey(regs: seq<Registration>, agent: string): (r: Option<Key>)
    ensures r.Some? <==> agent in Agents(regs)
    decreases |regs|
  {
    if regs == [] then None
    else
      var prefix := regs[..|regs| - 1];
      assert regs == prefix + [regs[|regs| - 1]];
      if regs[|regs| - 1].agent == agent then Some(regs[|regs| - 1].senderPublicKey)
      else LatestKey(prefix, agent)
  }

  /** After a sequence of registrations each name holds the key derived from its latest
      registration, and a name never registered keeps what it had. */
  lemma {:induction false} RegisterAllLookup(s: Suite, c: Collector, regs: seq<Registration>, agent: string)
    ensures LatestKey(regs, agent).Some? ==>
      SharedKey(RegisterAll(s, c, regs), agent) == (s.precompute(LatestKey(regs, agent).value, c.privateKey), true)
    ensures LatestKey(regs, agent).None? ==>
      SharedKey(RegisterAll(s, c, regs), agent) == SharedKey(c, agent)
    decreases |regs|
  {
    if regs != [] {
      RegisterAllLookup(s, c, regs[..|regs| - 1], agent);
    }
  }

  /** No two registrations in `regs` name the same agent. */
  ghost predicate DistinctAgents(regs: seq<Registration>) {
    forall i, j :: 0 <= i < j < |regs| ==> regs[i].agent != regs[j].agent
  }

  /** With distinct names the latest registration of a name is its only one. */
  lemma {:induction false} LatestKeyOfDistinct(regs: seq<Registration>, agent: string, pk: Key)
    requires DistinctAgents(regs)
    ensures LatestKey(regs, agent) == Some(pk) <==> Registration(agent, pk) in regs
    decreases |regs|
  {
    if regs != [] {
      var prefix := regs[..|regs| - 1];
      var last := regs[|regs| - 1];
      assert regs == prefix + [last];
      LatestKeyOfDistinct(prefix, agent, pk);
    }
  }

  /** A name-distinct sequence holds each registration at most once. */
  lemma {:induction false} DistinctAgentsAtMostOnce(regs: seq<Registration>, r: Registration)
    requires DistinctAgents(regs)
    ensures multiset(regs)[r] <= 1
    decreases |regs|
  {
    if regs != [] {
      var prefix := regs[..|regs| - 1];
      var last := regs[|regs| - 1];
      assert regs == prefix + [last];
      DistinctAgentsAtMostOnce(prefix, r);
      if last == r {
        assert r !in prefix by {
          forall i | 0 <= i < |prefix| ensures prefix[i] != r {
            assert regs[i].agent != regs[|regs| - 1].agent;
          }
        }
      }
    }
  }

  /** A registration at two positions occurs at least twice. */
  lemma TwoPositionsTwoOccurrences(regs: seq<Registration>, i: nat, j: nat)
    requires i < j < |regs|
    ensures regs[i] == regs[j] ==> multiset(regs)[regs[i]] >= 2
  {
    var front := regs[..j];
    assert regs == front + [regs[j]] + regs[j + 1..];
    assert front[i] == regs[i];
  }

  /** Reordering a name-distinct sequence keeps its names distinct. */
  lemma DistinctAgentsOfPermutation(regs1: seq<Registration>, regs2: seq<Registration>)
    requires DistinctAgents(regs1)
    requires multiset(regs1) == multiset(regs2)
    ensures DistinctAgents(regs2)
  {
    forall i, j | 0 <= i < j < |regs2|
      ensures regs2[i].agent != regs2[j].agent
    {
      var x, y := regs2[i], regs2[j];
      assert x in multiset(regs1) && y in multiset(regs1);
      var i1 :| 0 <= i1 < |regs1| && regs1[i1] == x;
      var j1 :| 0 <= j1 < |regs1| && regs1[j1] == y;
      TwoPositionsTwoOccurrences(regs2, i, j);
      DistinctAgentsAtMostOnce(regs1, x);
      assert x != y;
      assert i1 != j1;
    }
  }

  /** For distinct names the latest registration of a name does not depend on the order. */
  lemma LatestKeyOfPermutation(regs1: seq<Registration>, regs2: seq<Registration>, agent: string)
    requires DistinctAgents(regs1)
    requires multiset(regs1) == multiset(regs2)
    ensures LatestKey(regs1, agent) == LatestKey(regs2, agent)
  {
    DistinctAgentsOfPermutation(regs1, regs2);
    if LatestKey(regs1, agent).Some? {
      var pk := LatestKey(regs1, agent).value;
      LatestKeyOfDistinct(regs1, agent, pk);
      LatestKeyOfDistinct(regs2, agent, pk);
      assert Registration(agent, pk) in multiset(regs1);
    }
    if LatestKey(regs2, agent).Some? {
      var pk := LatestKey(regs2, agent).value;
      LatestKeyOfDistinct(regs1, agent, pk);
      LatestKeyOfDistinct(regs2, agent, pk);
      assert Registration(agent, pk) in multiset(regs2);
    }
  }

  /**
   Registering distinct names gives the same collector whatever order the registrations
   happen in: concurrent registrations of different agents lose nothing.
   */
  lemma RegistrationOrderIrrelevant(s: Suite, c: Collector, regs1: seq<Registration>, regs2: seq<Registration>)
    requires DistinctAgents(regs1)
    requires multiset(regs1) == multiset(regs2)
    ensures RegisterAll(s, c, regs1) == RegisterAll(s, c, regs2)
  {
    var c1 := RegisterAll(s, c, regs1);
    var c2 := RegisterAll(s, c, regs2);
    forall agent
      ensures SharedKey(c1, agent) == SharedKey(c2, agent)
    {
      RegisterAllLookup(s, c, regs1, agent);
      RegisterAllLookup(s, c, regs2, agent);
      LatestKeyOfPermutation(regs1, regs2, agent);
    }
    assert c1.sharedKeys.Keys == c2.sharedKeys.Keys by {
      forall agent ensures agent in c1.sharedKeys <==> agent in c2.sharedKeys {
        assert SharedKey(c1, agent).1 == SharedKey(c2, agent).1;
      }
    }
    forall agent | agent in c1.sharedKeys
      ensures c1.sharedKeys[agent] == c2.sharedKeys[agent]
    {
      assert SharedKey(c1, agent) == SharedKey(c2, agent);
    }
  }
}
