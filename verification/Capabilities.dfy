/** A reverse index from capability to the agents that provide it, against a plain scan. */
module Capabilities {
  import opened Dag
  import opened Tasks
  import opened PlanText

  type AgentId = string

  datatype Model = Model(id: string, capabilities: set<Capability>)

  /** What the circuit breakers know of an agent; never contacted is no reason against it. */
  datatype Health = Healthy | Degraded | RateLimited | Unavailable | Unknown {
    predicate Routable() {
      Healthy? || Degraded? || Unknown?
    }
  }

  datatype Agent = Agent(id: AgentId, capabilities: set<Capability>, models: seq<Model>, enabled: bool,
                         health: Health) {
    predicate Routable() {
      enabled && health.Routable()
    }

    /** The agent's own capabilities and those of `model`. */
    function Effective(model: Option<Model>): set<Capability> {
      if model.Some? then capabilities + model.value.capabilities else capabilities
    }
  }

  /** What the agent or some model of it can do. */
  predicate Provides(agent: Agent, c: Capability) {
    c in agent.capabilities || exists i :: 0 <= i < |agent.models| && c in agent.models[i].capabilities
  }

  /** A routable agent of that id provides the capability. */
  predicate ProvidedBy(agents: seq<Agent>, id: AgentId, c: Capability) {
    exists i :: 0 <= i < |agents| && agents[i].Routable() && agents[i].id == id && Provides(agents[i], c)
  }

  /** The agents of a snapshot come from a table keyed by id. */
  ghost predicate DistinctIds(agents: seq<Agent>) {
    forall i, j :: 0 <= i < j < |agents| ==> agents[i].id != agents[j].id
  }

  type Index = map<Capability, set<AgentId>>

  function Entry(index: Index, c: Capability): set<AgentId> {
    if c in index then index[c] else {}
  }

  /** The index holds, for each capability some agent provides, exactly its providers. */
  ghost predicate Indexes(index: Index, agents: seq<Agent>) {
    && (forall c, id :: id in Entry(index, c) <==> ProvidedBy(agents, id, c))
    && (forall c :: c in index ==> index[c] != {})
  }

  /** Partly built: the next agent's capabilities in `done`, after all of the first `k` agents. */
  ghost predicate Adding(index: Index, agents: seq<Agent>, k: nat, done: set<Capability>) {
    && k < |agents|
    && (forall c, id {:trigger id in Entry(index, c)} :: id in Entry(index, c) <==>
          ProvidedBy(agents[..k], id, c) || (id == agents[k].id && c in done))
    && (forall c {:trigger index[c]} :: c in index ==> index[c] != {})
  }

  class CapabilityIndex {
    var byCapability: Index

    /** Build the index from a registry snapshot. */
    constructor (agents: seq<Agent>)
      ensures Indexes(byCapability, agents)
    {
      byCapability := map[];
      new;
      var k := 0;
      while k < |agents|
        invariant k <= |agents|
        invariant Indexes(byCapability, agents[..k])
      {
        if agents[k].Routable() {
          var caps := AllOf(agents[k]);
          var left, done := caps, {};
          NothingAdded(byCapability, agents, k, done);
          while left != {}
            invariant left + done == caps
            invariant Adding(byCapability, agents, k, done)
            decreases left
          {
            var c :| c in left;
            AddedOne(byCapability, agents, k, done, c);
            byCapability := byCapability[c := Entry(byCapability, c) + {agents[k].id}];
            left, done := left - {c}, done + {c};
          }
          assert done == caps;
          AllAdded(byCapability, agents, k, done);
        } else {
          NothingToAdd(byCapability, agents, k);
        }
        k := k + 1;
      }
      assert agents[..k] == agents;
    }

    /** The agents advertising `c`. */
    function Providers(c: Capability): set<AgentId>
      reads this
    {
      Entry(byCapability, c)
    }

    /** The agents advertising every capability in `required`; none for an empty requirement. */
    method ProvidersOfAll(required: set<Capability>) returns (candidates: set<AgentId>)
      ensures required == {} ==> candidates == {}
      ensures required != {} ==>
                forall id :: id in candidates <==> forall c :: c in required ==> id in Entry(byCapability, c)
    {
      if required == {} {
        return {};
      }
      var first :| first in required;
      candidates := Entry(byCapability, first);
      var left := required - {first};
      while left != {}
        invariant left < required
        invariant forall id ::
                    id in candidates <==> forall c :: c in required && c !in left ==> id in Entry(byCapability, c)
        decreases left
      {
        var c :| c in left;
        if c !in byCapability {
          assert forall id :: id !in Entry(byCapability, c);
          return {};
        }
        var before := candidates;
        candidates := set id | id in candidates && id in byCapability[c];
        ghost var rest := left - {c};
        assert forall id :: id in candidates <==> id in before && id in Entry(byCapability, c);
        assert forall d :: d in required && d !in rest <==> d == c || (d in required && d !in left);
        left := left - {c};
        if candidates == {} {
          break;
        }
      }
    }

    /** The capabilities in `required` that no agent provides. */
    function MissingFrom(required: set<Capability>): set<Capability>
      reads this
    {
      set c | c in required && c !in byCapability
    }
  }

  /** An agent's own capabilities and all its models'. */
  method AllOf(agent: Agent) returns (caps: set<Capability>)
    ensures forall c :: c in caps <==> Provides(agent, c)
  {
    caps := agent.capabilities;
    var i := 0;
    while i < |agent.models|
      invariant i <= |agent.models|
      invariant forall c :: c in caps <==>
                  c in agent.capabilities || exists j :: 0 <= j < i && c in agent.models[j].capabilities
    {
      caps := caps + agent.models[i].capabilities;
      i := i + 1;
    }
  }

  lemma NothingAdded(index: Index, agents: seq<Agent>, k: nat, done: set<Capability>)
    requires k < |agents| && Indexes(index, agents[..k]) && |done| == 0
    ensures Adding(index, agents, k, done)
  {
    assert forall c :: c !in done;
  }

  lemma AddedOne(index: Index, agents: seq<Agent>, k: nat, done: set<Capability>, c: Capability)
    requires Adding(index, agents, k, done)
    ensures Adding(index[c := Entry(index, c) + {agents[k].id}], agents, k, done + {c})
  {
    var added, more := Entry(index, c) + {agents[k].id}, done + {c};
    var after := index[c := added];
    assert agents[k].id in added;
    forall d, id
      ensures id in Entry(after, d) <==> ProvidedBy(agents[..k], id, d) || (id == agents[k].id && d in more)
    {
      assert id in Entry(index, d) <==> ProvidedBy(agents[..k], id, d) || (id == agents[k].id && d in done);
    }
    forall d | d in after
      ensures after[d] != {}
    {
      assert d != c ==> index[d] != {};
    }
  }

  lemma ProvidedByOneMore(agents: seq<Agent>, k: nat, id: AgentId, c: Capability)
    requires k < |agents|
    ensures ProvidedBy(agents[..k + 1], id, c) <==>
            ProvidedBy(agents[..k], id, c) || (agents[k].Routable() && agents[k].id == id && Provides(agents[k], c))
  {
    var more, less := agents[..k + 1], agents[..k];
    if agents[k].Routable() && agents[k].id == id && Provides(agents[k], c) {
      assert more[k] == agents[k];
    }
    if ProvidedBy(less, id, c) {
      var i :| 0 <= i < |less| && less[i].Routable() && less[i].id == id && Provides(less[i], c);
      assert more[i] == less[i];
    }
  }

  lemma AllAdded(index: Index, agents: seq<Agent>, k: nat, done: set<Capability>)
    requires Adding(index, agents, k, done) && agents[k].Routable()
    requires forall c :: c in done <==> Provides(agents[k], c)
    ensures Indexes(index, agents[..k + 1])
  {
    forall c, id
      ensures id in Entry(index, c) <==> ProvidedBy(agents[..k + 1], id, c)
    {
      ProvidedByOneMore(agents, k, id, c);
    }
  }

  lemma NothingToAdd(index: Index, agents: seq<Agent>, k: nat)
    requires k < |agents| && !agents[k].Routable() && Indexes(index, agents[..k])
    ensures Indexes(index, agents[..k + 1])
  {
    forall c, id
      ensures id in Entry(index, c) <==> ProvidedBy(agents[..k + 1], id, c)
    {
      ProvidedByOneMore(agents, k, id, c);
    }
  }

  // ------------------------------------------------------------- against the scan

  /** The agents a scan finds: routable, and covering the requirement with all they have. */
  ghost predicate Covers(agents: seq<Agent>, id: AgentId, required: set<Capability>) {
    exists i :: 0 <= i < |agents| && agents[i].Routable() && agents[i].id == id
                && forall c :: c in required ==> Provides(agents[i], c)
  }

  /** What the index answers is what the scan finds: for a non-empty requirement, exactly the
      routable agents that cover it; for an empty one, none, and the caller scans. */
  lemma IndexAgreesWithScan(index: Index, agents: seq<Agent>, required: set<Capability>, candidates: set<AgentId>)
    requires Indexes(index, agents) && DistinctIds(agents) && required != {}
    requires forall id :: id in candidates <==> forall c :: c in required ==> id in Entry(index, c)
    ensures forall id :: id in candidates <==> Covers(agents, id, required)
  {
    forall id
      ensures id in candidates <==> Covers(agents, id, required)
    {
      if id in candidates {
        var first :| first in required;
        assert id in Entry(index, first);
        var i :| 0 <= i < |agents| && agents[i].Routable() && agents[i].id == id && Provides(agents[i], first);
        forall c | c in required
          ensures Provides(agents[i], c)
        {
          assert id in Entry(index, c);
          var j :| 0 <= j < |agents| && agents[j].Routable() && agents[j].id == id && Provides(agents[j], c);
          assert i == j;
        }
      }
      if Covers(agents, id, required) {
        forall c | c in required
          ensures id in Entry(index, c)
        {
          assert ProvidedBy(agents, id, c);
        }
      }
    }
  }

  /** A model adds to what its agent can do, and takes nothing away. */
  lemma ModelsOnlyAdd(agent: Agent, model: Model, required: set<Capability>, more: set<Capability>)
    ensures required <= agent.Effective(None) ==> required <= agent.Effective(Some(model))
    ensures more <= model.capabilities ==> more <= agent.Effective(Some(model))
    ensures forall c :: c in agent.Effective(Some(model)) ==> c in agent.Effective(None) || c in model.capabilities
    ensures agent.Effective(None) == agent.capabilities
  {
  }

  /** An agent is named for what it can do exactly as long as it is enabled, and neither rate limited nor
      unavailable. */
  lemma OnlyTheFitAreNamed(index: Index, agents: seq<Agent>, k: nat, c: Capability)
    requires Indexes(index, agents) && DistinctIds(agents) && k < |agents| && Provides(agents[k], c)
    ensures agents[k].id in Entry(index, c) <==>
              agents[k].enabled && agents[k].health != RateLimited && agents[k].health != Unavailable
  {
    assert agents[k].id in Entry(index, c) <==> ProvidedBy(agents, agents[k].id, c);
    hide Provides;
  }

  /** Narrowing by the index never drops an agent that suffices alone or with one model. */
  lemma NarrowingKeepsEverySufficientAgent(agents: seq<Agent>, k: nat, model: Option<Model>, required: set<Capability>)
    requires k < |agents| && agents[k].Routable() && required <= agents[k].Effective(model)
    requires model.Some? ==> model.value in agents[k].models
    ensures Covers(agents, agents[k].id, required)
  {
    forall c | c in required
      ensures Provides(agents[k], c)
    {
      if model.Some? {
        var i :| 0 <= i < |agents[k].models| && agents[k].models[i] == model.value;
        assert c in agents[k].capabilities || c in agents[k].models[i].capabilities;
      }
    }
  }

  lemma IndexedIffProvided(index: Index, agents: seq<Agent>, c: Capability)
    requires Indexes(index, agents)
    ensures c in index <==> exists id :: ProvidedBy(agents, id, c)
  {
    if c in index {
      var id :| id in index[c];
      assert id in Entry(index, c);
    }
    if id :| ProvidedBy(agents, id, c) {
      assert id in Entry(index, c);
    }
  }

  /** What the index calls missing is what no routable agent provides; the providers it names for a
      capability are those that have it; and with anything missing, no agent covers the requirement. */
  lemma MissingIsUnprovided(index: CapabilityIndex, agents: seq<Agent>, required: set<Capability>)
    requires Indexes(index.byCapability, agents)
    ensures forall c :: c in index.MissingFrom(required) <==> c in required && forall id :: !ProvidedBy(agents, id, c)
    ensures forall c, id :: id in index.Providers(c) <==> ProvidedBy(agents, id, c)
    ensures forall c, id :: c in index.MissingFrom(required) ==> !Covers(agents, id, required)
  {
    forall c | c in required
      ensures c in index.MissingFrom(required) <==> forall id :: !ProvidedBy(agents, id, c)
    {
      IndexedIffProvided(index.byCapability, agents, c);
    }
    forall c, id | c in index.MissingFrom(required)
      ensures !Covers(agents, id, required)
    {
      assert !ProvidedBy(agents, id, c);
    }
  }

  // ------------------------------------------------------- what narrowing lets through

  /** The agent meets the requirement alone or with one of its models. */
  predicate Suffices(agent: Agent, required: set<Capability>) {
    || required <= agent.Effective(None)
    || exists i :: 0 <= i < |agent.models| && required <= agent.Effective(Some(agent.models[i]))
  }

  /** With some choice of one model or none, the agent has all that it and its models can do. */
  predicate OneDoesItAll(agent: Agent) {
    || (forall j :: 0 <= j < |agent.models| ==> agent.models[j].capabilities <= agent.capabilities)
    || exists i :: 0 <= i < |agent.models| && HasAllOf(agent, agent.models[i])
  }

  predicate HasAllOf(agent: Agent, model: Model) {
    forall j :: 0 <= j < |agent.models| ==> agent.models[j].capabilities <= agent.Effective(Some(model))
  }

  function ModelsCan(models: seq<Model>): (caps: set<Capability>)
    ensures forall c :: c in caps <==> exists i :: 0 <= i < |models| && c in models[i].capabilities
  {
    if models == [] then {}
    else
      var last := |models| - 1;
      ModelsCan(models[..last]) + models[last].capabilities
  }

  /** Everything the agent and its models can do. */
  function Joint(agent: Agent): (caps: set<Capability>)
    ensures forall c :: c in caps <==> Provides(agent, c)
  {
    agent.capabilities + ModelsCan(agent.models)
  }

  lemma HasAllIff(agent: Agent, model: Model)
    ensures HasAllOf(agent, model) <==> Joint(agent) <= agent.Effective(Some(model))
  {
    if HasAllOf(agent, model) {
      forall c | c in Joint(agent)
        ensures c in agent.Effective(Some(model))
      {
        if c !in agent.capabilities {
          var j :| 0 <= j < |agent.models| && c in agent.models[j].capabilities;
        }
      }
    }
    if Joint(agent) <= agent.Effective(Some(model)) {
      forall j | 0 <= j < |agent.models|
        ensures agent.models[j].capabilities <= agent.Effective(Some(model))
      {
        assert forall c :: c in agent.models[j].capabilities ==> c in Joint(agent);
      }
    }
  }

  lemma AloneHasAllIff(agent: Agent)
    ensures (forall j :: 0 <= j < |agent.models| ==> agent.models[j].capabilities <= agent.capabilities)
       <==> Joint(agent) <= agent.Effective(None)
  {
    if Joint(agent) <= agent.Effective(None) {
      forall j | 0 <= j < |agent.models|
        ensures agent.models[j].capabilities <= agent.capabilities
      {
        assert forall c :: c in agent.models[j].capabilities ==> c in Joint(agent);
      }
    }
  }

  lemma LessSuffices(agent: Agent, required: set<Capability>, more: set<Capability>)
    requires required <= more && Suffices(agent, more)
    ensures Suffices(agent, required)
  {
    hide Agent.Effective;
  }

  /** Whatever is asked of the agent and its models together, it meets alone or with one of them,
      exactly when one choice does it all; otherwise asking for everything they can do fails. */
  lemma OneModelSufficesIff(agent: Agent)
    ensures (forall required: set<Capability> :: required <= Joint(agent) ==> Suffices(agent, required))
       <==> OneDoesItAll(agent)
    ensures Suffices(agent, Joint(agent)) <==> OneDoesItAll(agent)
  {
    AloneHasAllIff(agent);
    forall i | 0 <= i < |agent.models|
      ensures HasAllOf(agent, agent.models[i]) <==> Joint(agent) <= agent.Effective(Some(agent.models[i]))
    {
      HasAllIff(agent, agent.models[i]);
    }
    hide HasAllOf; hide Joint; hide Agent.Effective;
    assert Suffices(agent, Joint(agent)) <==> OneDoesItAll(agent);
    hide Suffices; hide OneDoesItAll;
    if Suffices(agent, Joint(agent)) {
      forall required: set<Capability> | required <= Joint(agent)
        ensures Suffices(agent, required)
      {
        LessSuffices(agent, required, Joint(agent));
      }
    }
  }

  /** Some routable agent of that id meets the requirement alone or with one of its models. */
  ghost predicate SufficesIn(agents: seq<Agent>, id: AgentId, required: set<Capability>) {
    exists i :: 0 <= i < |agents| && agents[i].Routable() && agents[i].id == id && Suffices(agents[i], required)
  }

  lemma CoversWithinJoint(agents: seq<Agent>, k: nat, required: set<Capability>)
    requires DistinctIds(agents) && k < |agents| && agents[k].Routable()
    ensures Covers(agents, agents[k].id, required) <==> required <= Joint(agents[k])
    ensures SufficesIn(agents, agents[k].id, required) <==> Suffices(agents[k], required)
  {
    hide Suffices; hide Provides;
    if Covers(agents, agents[k].id, required) {
      var i :| 0 <= i < |agents| && agents[i].Routable() && agents[i].id == agents[k].id
               && forall c :: c in required ==> Provides(agents[i], c);
      assert i == k;
    }
    if SufficesIn(agents, agents[k].id, required) {
      var i :| 0 <= i < |agents| && agents[i].Routable() && agents[i].id == agents[k].id
        && Suffices(agents[i], required);
      assert i == k;
    }
  }

  /** Narrowing keeps only agents that suffice, whatever is required, exactly when for every
      routable agent one choice does it all. */
  lemma NarrowingIsExactIff(agents: seq<Agent>)
    requires DistinctIds(agents)
    ensures (forall id, required :: Covers(agents, id, required) ==> SufficesIn(agents, id, required))
       <==> forall k :: 0 <= k < |agents| && agents[k].Routable() ==> OneDoesItAll(agents[k])
  {
    hide Suffices; hide OneDoesItAll; hide Joint; hide SufficesIn;
    if forall k :: 0 <= k < |agents| && agents[k].Routable() ==> OneDoesItAll(agents[k]) {
      forall id, required | Covers(agents, id, required)
        ensures SufficesIn(agents, id, required)
      {
        var k :| 0 <= k < |agents| && agents[k].Routable() && agents[k].id == id
                 && forall c :: c in required ==> Provides(agents[k], c);
        CoversWithinJoint(agents, k, required);
        OneModelSufficesIff(agents[k]);
      }
    }
    if k :| 0 <= k < |agents| && agents[k].Routable() && !OneDoesItAll(agents[k]) {
      OneModelSufficesIff(agents[k]);
      CoversWithinJoint(agents, k, Joint(agents[k]));
    }
  }

  /** Narrowing may keep more: an agent whose models cover a requirement only between them. */
  lemma ModelsMayCoverOnlyTogether(need: set<Capability>) returns (agent: Agent)
    requires CodeEditing in need && Debugging in need && |need| == 2
    ensures Covers([agent], agent.id, need)
    ensures forall i :: 0 <= i < |agent.models| ==> !(need <= agent.Effective(Some(agent.models[i])))
  {
    agent := Agent("a", {}, [Model("m", need - {Debugging}), Model("n", need - {CodeEditing})], true, Healthy);
    forall c | c in need
      ensures Provides(agent, c)
    {
      assert c in agent.models[0].capabilities || c in agent.models[1].capabilities;
    }
    assert [agent][0] == agent;
  }
}
