/**
 The execution planner of `intelligence/agent_registry.py`: `build_plan`.

 The registry is arbitrary.  A required dependency of an agent names a context
 key; the agent that produces the key is an edge away.  The planner closes the
 targets under those edges with a worklist and then peels the closure level by
 level.
 */
module Planner {
  import opened Graphs

  datatype Dependency = Dependency(key: string, required: bool)

  datatype Agent = Agent(id: string, contextKey: string, consumes: seq<Dependency>)

  type Registry = seq<Agent>

  datatype PlanError =
    | UnknownAgent(id: string)
    | NoProducer(key: string)
    | CycleAmong(agents: set<string>)

  datatype Result<+T> = Ok(value: T) | Err(error: PlanError)

  datatype Lookup = Missing | Found(agent: Agent)

  // ------------------------------------------------------------ lookups

  /** `_BY_AGENT`: a later descriptor with the same id replaces an earlier one. */
  function ByAgent(reg: Registry, id: string): Lookup
  {
    if reg == [] then Missing
    else if reg[|reg| - 1].id == id then Found(reg[|reg| - 1])
    else ByAgent(reg[..|reg| - 1], id)
  }

  /** `_BY_KEY`, built the same way on `context_key`. */
  function ByKey(reg: Registry, key: string): Lookup
  {
    if reg == [] then Missing
    else if reg[|reg| - 1].contextKey == key then Found(reg[|reg| - 1])
    else ByKey(reg[..|reg| - 1], key)
  }

  /** The comprehension over `consumes`: the first key without a producer raises. */
  function ProducersOf(reg: Registry, deps: seq<Dependency>): Result<seq<string>>
  {
    if deps == [] then Ok([])
    else if !deps[0].required then ProducersOf(reg, deps[1..])
    else
      match ByKey(reg, deps[0].key)
      case Missing => Err(NoProducer(deps[0].key))
      case Found(producer) =>
        match ProducersOf(reg, deps[1..])
        case Ok(ids) => Ok([producer.id] + ids)
        case Err(e) => Err(e)
  }

  /** `_required_producers` */
  function RequiredProducers(reg: Registry, id: string): Result<seq<string>>
  {
    match ByAgent(reg, id)
    case Missing => Err(UnknownAgent(id))
    case Found(agent) => ProducersOf(reg, agent.consumes)
  }

  // ------------------------------------------------------------ what a plan means

  /** Some agent of the registry has this id. */
  ghost predicate Known(reg: Registry, id: string)
  {
    exists i :: 0 <= i < |reg| && reg[i].id == id
  }

  /** A dependency in the list is required and produced by `b`. */
  ghost predicate Needs(reg: Registry, deps: seq<Dependency>, b: string)
  {
    exists i :: 0 <= i < |deps| && deps[i].required && ByKey(reg, deps[i].key).Found? && ByKey(reg, deps[i].key).agent.id == b
  }

  /** A dependency in the list is required and its key has no producer. */
  ghost predicate Lacks(reg: Registry, deps: seq<Dependency>, key: string)
  {
    exists i :: 0 <= i < |deps| && deps[i].required && deps[i].key == key && ByKey(reg, key).Missing?
  }

  ghost predicate Broken(reg: Registry, a: string, key: string)
  {
    ByAgent(reg, a).Found? && Lacks(reg, ByAgent(reg, a).agent.consumes, key)
  }

  ghost function Ids(reg: Registry): set<string>
  {
    set i | 0 <= i < |reg| :: reg[i].id
  }

  /** Consumers point at the producers they require. */
  ghost function GraphOf(reg: Registry): Graph
  {
    map a | a in Ids(reg) :: set b | b in Ids(reg) && ByAgent(reg, a).Found? && Needs(reg, ByAgent(reg, a).agent.consumes, b)
  }

  /** Everything reachable is known, has all its producers and lies on no cycle. */
  ghost predicate Plannable(reg: Registry, targets: set<string>)
  {
    forall a :: Reachable(GraphOf(reg), targets, a) ==> Sound(reg, a) && !OnCycle(GraphOf(reg), a)
  }

  ghost predicate Sound(reg: Registry, a: string)
  {
    Known(reg, a) && forall key :: !Broken(reg, a, key)
  }

  ghost predicate Scheduled(plan: seq<set<string>>, a: string)
  {
    exists i :: 0 <= i < |plan| && a in plan[i]
  }

  /** Stages are non-empty and disjoint, and an agent's stage is the length of its longest dependency chain. */
  ghost predicate Levelled(g: Graph, plan: seq<set<string>>)
  {
    && (forall i :: 0 <= i < |plan| ==> plan[i] != {})
    && (forall i, j :: 0 <= i < j < |plan| ==> plan[i] !! plan[j])
    && (forall i, a :: 0 <= i < |plan| && a in plan[i] ==> LongestPath(g, a, i))
  }

  ghost predicate IsPlan(reg: Registry, targets: set<string>, plan: seq<set<string>>)
  {
    && (forall a :: Scheduled(plan, a) <==> Reachable(GraphOf(reg), targets, a))
    && Levelled(GraphOf(reg), plan)
  }

  // ------------------------------------------------------------ lookups, meaning

  lemma {:induction false} ByAgentMeaning(reg: Registry, id: string)
    ensures ByAgent(reg, id).Found? <==> Known(reg, id)
    ensures ByAgent(reg, id).Found? ==> ByAgent(reg, id).agent.id == id
  {
    if reg != [] {
      var init := reg[..|reg| - 1];
      ByAgentMeaning(init, id);
      if Known(init, id) {
        var i :| 0 <= i < |init| && init[i].id == id;
        assert reg[i].id == id;
      }
      if Known(reg, id) && reg[|reg| - 1].id != id {
        var i :| 0 <= i < |reg| && reg[i].id == id;
        assert init[i].id == id;
      }
    }
  }

  lemma {:induction false} ByKeyMeaning(reg: Registry, key: string)
    ensures ByKey(reg, key).Found? <==> exists i :: 0 <= i < |reg| && reg[i].contextKey == key
    ensures ByKey(reg, key).Found? ==> Known(reg, ByKey(reg, key).agent.id) && ByKey(reg, key).agent.contextKey == key
  {
    if reg != [] {
      var init := reg[..|reg| - 1];
      ByKeyMeaning(init, key);
      if ByKey(init, key).Found? {
        var i :| 0 <= i < |init| && init[i].id == ByKey(init, key).agent.id;
        assert reg[i].id == ByKey(init, key).agent.id;
        var j :| 0 <= j < |init| && init[j].contextKey == key;
        assert reg[j].contextKey == key;
      }
      if j :| 0 <= j < |reg| && reg[j].contextKey == key && reg[|reg| - 1].contextKey != key {
        assert init[j].contextKey == key;
      }
      if reg[|reg| - 1].contextKey == key {
        assert reg[|reg| - 1].id == reg[|reg| - 1].id;
      }
    }
  }

  lemma NeedsCons(reg: Registry, deps: seq<Dependency>, b: string)
    requires deps != []
    ensures Needs(reg, deps, b) <==>
            (deps[0].required && ByKey(reg, deps[0].key).Found? && ByKey(reg, deps[0].key).agent.id == b) || Needs(reg, deps[1..], b)
  {
    if Needs(reg, deps[1..], b) {
      var i :| 0 <= i < |deps[1..]| && deps[1..][i].required && ByKey(reg, deps[1..][i].key).Found? && ByKey(reg, deps[1..][i].key).agent.id == b;
      assert deps[i + 1] == deps[1..][i];
    }
    if Needs(reg, deps, b) {
      var i :| 0 <= i < |deps| && deps[i].required && ByKey(reg, deps[i].key).Found? && ByKey(reg, deps[i].key).agent.id == b;
      if i > 0 { assert deps[i] == deps[1..][i - 1]; }
    }
  }

  lemma LacksCons(reg: Registry, deps: seq<Dependency>, key: string)
    requires deps != []
    ensures Lacks(reg, deps, key) <==>
            (deps[0].required && deps[0].key == key && ByKey(reg, key).Missing?) || Lacks(reg, deps[1..], key)
  {
    if Lacks(reg, deps[1..], key) {
      var i :| 0 <= i < |deps[1..]| && deps[1..][i].required && deps[1..][i].key == key && ByKey(reg, key).Missing?;
      assert deps[i + 1] == deps[1..][i];
    }
    if Lacks(reg, deps, key) {
      var i :| 0 <= i < |deps| && deps[i].required && deps[i].key == key && ByKey(reg, key).Missing?;
      if i > 0 { assert deps[i] == deps[1..][i - 1]; }
    }
  }

  lemma {:induction false} ProducersOfMeaning(reg: Registry, deps: seq<Dependency>)
    ensures match ProducersOf(reg, deps)
            case Ok(ids) => (forall b :: b in ids <==> Needs(reg, deps, b)) && forall key :: !Lacks(reg, deps, key)
            case Err(e) => e.NoProducer? && Lacks(reg, deps, e.key)
  {
    if deps != [] {
      ProducersOfMeaning(reg, deps[1..]);
      forall b { NeedsCons(reg, deps, b); }
      forall key { LacksCons(reg, deps, key); }
    }
  }

  lemma IdsAreKnown(reg: Registry, id: string)
    ensures id in Ids(reg) <==> Known(reg, id)
  {
    if Known(reg, id) {
      var i :| 0 <= i < |reg| && reg[i].id == id;
    }
  }

  /** The producer of a required key is always a registered agent. */
  lemma NeededIsKnown(reg: Registry, deps: seq<Dependency>, b: string)
    requires Needs(reg, deps, b)
    ensures Known(reg, b)
  {
    var i :| 0 <= i < |deps| && deps[i].required && ByKey(reg, deps[i].key).Found? && ByKey(reg, deps[i].key).agent.id == b;
    ByKeyMeaning(reg, deps[i].key);
  }

  /** `_required_producers` lists exactly the successors of an agent, or names what is wrong with it. */
  lemma RequiredProducersMeaning(reg: Registry, a: string)
    ensures match RequiredProducers(reg, a)
            case Ok(ids) => Sound(reg, a) && forall b :: b in ids <==> Edge(GraphOf(reg), a, b)
            case Err(UnknownAgent(id)) => id == a && !Known(reg, a)
            case Err(NoProducer(key)) => Known(reg, a) && Broken(reg, a, key)
            case Err(CycleAmong(_)) => false
  {
    ByAgentMeaning(reg, a);
    IdsAreKnown(reg, a);
    if ByAgent(reg, a).Found? {
      var deps := ByAgent(reg, a).agent.consumes;
      ProducersOfMeaning(reg, deps);
      forall b ensures Needs(reg, deps, b) <==> Edge(GraphOf(reg), a, b) {
        IdsAreKnown(reg, b);
        if Needs(reg, deps, b) { NeededIsKnown(reg, deps, b); }
      }
    }
  }

  lemma EdgeIsKnown(reg: Registry, a: string, b: string)
    requires Edge(GraphOf(reg), a, b)
    ensures Known(reg, b)
  {
    IdsAreKnown(reg, b);
  }

  // ------------------------------------------------------------ build_plan

  /** `list(targets)`, in whatever order. */
  method ListOf(s: set<string>) returns (r: seq<string>)
    ensures forall x :: x in r <==> x in s
  {
    r := [];
    var rest := s;
    while rest != {}
      invariant rest <= s
      invariant forall x :: x in r <==> x in s - rest
    {
      var x :| x in rest;
      r, rest := r + [x], rest - {x};
    }
  }

  /** The worklist: everything needed is sound, and what it still leads to is on the frontier. */
  ghost predicate Exploring(reg: Registry, g: Graph, targets: set<string>, needed: set<string>, frontier: seq<string>)
  {
    && (forall a :: a in needed ==> Reachable(g, targets, a) && Sound(reg, a))
    && (forall a :: a in frontier ==> Reachable(g, targets, a) && (a in targets || Known(reg, a)))
    && (forall a :: a in targets ==> a in needed || a in frontier)
    && (forall a, b :: a in needed && Edge(g, a, b) ==> b in needed || b in frontier)
  }

  lemma ExploreMore(reg: Registry, g: Graph, targets: set<string>, needed: set<string>, frontier: seq<string>, id: string, ids: seq<string>)
    requires Exploring(reg, g, targets, needed, frontier + [id])
    requires Sound(reg, id) && forall b :: b in ids <==> Edge(g, id, b)
    requires forall b :: b in ids ==> Known(reg, b)
    ensures Exploring(reg, g, targets, needed + {id}, frontier + ids)
  {
    assert id in frontier + [id];
    forall b | b in ids ensures Reachable(g, targets, b) { ReachableStep(g, targets, id, b); }
    assert forall x :: x in frontier + [id] <==> x in frontier || x == id;
  }

  lemma ExploreSkip(reg: Registry, g: Graph, targets: set<string>, needed: set<string>, frontier: seq<string>, id: string)
    requires Exploring(reg, g, targets, needed, frontier + [id]) && id in needed
    ensures Exploring(reg, g, targets, needed, frontier)
  {
    assert forall x :: x in frontier + [id] <==> x in frontier || x == id;
  }

  /** Transitive closure of the targets over required dependencies. */
  method Close(reg: Registry, targets: set<string>) returns (r: Result<set<string>>)
    ensures r.Ok? ==> forall a :: a in r.value <==> Reachable(GraphOf(reg), targets, a)
    ensures r.Ok? ==> forall a :: a in r.value ==> Sound(reg, a)
    ensures r.Err? ==> match r.error
                       case UnknownAgent(id) => id in targets && !Known(reg, id)
                       case NoProducer(key) => exists a :: Reachable(GraphOf(reg), targets, a) && Broken(reg, a, key)
                       case CycleAmong(_) => false
  {
    ghost var g := GraphOf(reg);
    var needed: set<string> := {};
    var frontier := ListOf(targets);
    forall a | a in frontier ensures Reachable(g, targets, a) { TargetReachable(g, targets, a); }
    while frontier != []
      invariant needed <= Ids(reg)
      invariant Exploring(reg, g, targets, needed, frontier)
      decreases Ids(reg) - needed, |frontier|
    {
      var id := frontier[|frontier| - 1];
      assert frontier == frontier[..|frontier| - 1] + [id];
      assert id in frontier;
      frontier := frontier[..|frontier| - 1];
      if id in needed {
        ExploreSkip(reg, g, targets, needed, frontier, id);
        continue;
      }
      RequiredProducersMeaning(reg, id);
      IdsAreKnown(reg, id);
      ByAgentMeaning(reg, id);
      if ByAgent(reg, id).Missing? {
        return Err(UnknownAgent(id));
      }
      match RequiredProducers(reg, id) {
        case Err(e) =>
          return Err(e);
        case Ok(ids) =>
          forall b | b in ids ensures Known(reg, b) { EdgeIsKnown(reg, id, b); }
          ExploreMore(reg, g, targets, needed, frontier, id, ids);
          needed := needed + {id};
          frontier := frontier + ids;
      }
    }
    ReachableIsLeast(g, targets, needed);
    r := Ok(needed);
  }

  /** The producers of `a` within the closure, as the dictionary of unmet dependencies starts out. */
  function Unmet(reg: Registry, a: string, needed: set<string>): set<string>
  {
    match RequiredProducers(reg, a)
    case Ok(ids) => set p | p in ids && p in needed
    case Err(_) => {}
  }

  lemma UnmetMeaning(reg: Registry, needed: set<string>)
    requires Closed(GraphOf(reg), needed) && forall a :: a in needed ==> Sound(reg, a)
    ensures forall a, b :: a in needed ==> (b in Unmet(reg, a, needed) <==> Edge(GraphOf(reg), a, b))
  {
    forall a, b | a in needed ensures b in Unmet(reg, a, needed) <==> Edge(GraphOf(reg), a, b) {
      RequiredProducersMeaning(reg, a);
    }
  }

  /** One more stage: the agents all of whose producers are done. */
  lemma StageAdded(g: Graph, plan: seq<set<string>>, done: set<string>, stage: set<string>)
    requires Levelled(g, plan) && forall a :: a in done <==> Scheduled(plan, a)
    requires stage != {} && stage !! done
    requires forall a, b :: a in stage && Edge(g, a, b) ==> b in done
    requires forall a :: a in stage ==> HasPath(g, a, |plan|)
    ensures Levelled(g, plan + [stage])
    ensures forall a :: a in done + stage <==> Scheduled(plan + [stage], a)
  {
    var after := plan + [stage];
    forall a | a in stage ensures LongestPath(g, a, |plan|) {
      forall b | Edge(g, a, b) ensures exists m: nat :: m < |plan| && LongestPath(g, b, m) {
        assert Scheduled(plan, b);
        var m :| 0 <= m < |plan| && b in plan[m];
      }
      LevelFromSuccessors(g, a, |plan|);
    }
    forall a ensures a in done + stage <==> Scheduled(after, a) {
      if i :| 0 <= i < |after| && a in after[i] {
        if i < |plan| { assert a in plan[i]; }
      }
      if Scheduled(plan, a) {
        var i :| 0 <= i < |plan| && a in plan[i];
        assert a in after[i];
      }
      if a in stage { assert a in after[|plan|]; }
    }
    forall i | 0 <= i < |plan| ensures plan[i] !! stage {
      forall a | a in plan[i] ensures a !in stage { assert Scheduled(plan, a); }
    }
  }

  /** The agents with no unmet dependency. */
  function Ready(remaining: Graph): set<string>
  {
    set a | a in remaining && remaining[a] == {}
  }

  function Without(remaining: Graph, stage: set<string>): Graph
  {
    map a | a in remaining && a !in stage :: remaining[a] - stage
  }

  /** After `n` stages: who remains, what it still waits for, and a chain of `n` edges for each. */
  ghost predicate Waiting(g: Graph, needed: set<string>, remaining: Graph, done: set<string>, n: nat)
  {
    && remaining.Keys == needed - done && done <= needed
    && (forall a, b :: a in remaining ==> (b in remaining[a] <==> Edge(g, a, b) && b !in done))
    && (forall a :: a in remaining ==> HasPath(g, a, n))
  }

  lemma WaitingShrinks(g: Graph, needed: set<string>, remaining: Graph, done: set<string>, n: nat)
    requires Waiting(g, needed, remaining, done, n) && Closed(g, needed)
    ensures Waiting(g, needed, Without(remaining, Ready(remaining)), done + Ready(remaining), n + 1)
  {
    forall a | a in remaining && a !in Ready(remaining) ensures HasPath(g, a, n + 1) {
      var b :| b in remaining[a];
      HasPathCons(g, a, b, n);
    }
  }

  lemma StuckHasNoExit(g: Graph, needed: set<string>, remaining: Graph, done: set<string>, n: nat)
    requires Waiting(g, needed, remaining, done, n) && Closed(g, needed) && Ready(remaining) == {}
    ensures NoExit(g, remaining.Keys)
  {
    forall a | a in remaining.Keys ensures SuccessorIn(g, remaining.Keys, a) {
      assert a !in Ready(remaining);
      var b :| b in remaining[a];
      assert Edge(g, a, b);
      assert b in remaining.Keys;
    }
  }

  /** Kahn's algorithm, one stage a level; `g` is the graph whose successor sets `deps` holds. */
  method Stage(deps: Graph, ghost g: Graph) returns (r: Result<seq<set<string>>>)
    requires forall a, b :: a in deps ==> (b in deps[a] <==> Edge(g, a, b))
    requires Closed(g, deps.Keys)
    ensures r.Ok? ==> Levelled(g, r.value) && forall a :: a in deps <==> Scheduled(r.value, a)
    ensures r.Err? ==> r.error.CycleAmong? && r.error.agents != {} && r.error.agents <= deps.Keys && NoExit(g, r.error.agents)
  {
    var plan: seq<set<string>> := [];
    var remaining := deps;
    forall a | a in deps ensures HasPath(g, a, 0) { PathMeasured(g, a, [a]); }
    ghost var done: set<string> := {};
    while remaining != map[]
      invariant Waiting(g, deps.Keys, remaining, done, |plan|)
      invariant Levelled(g, plan) && forall a :: a in done <==> Scheduled(plan, a)
      decreases remaining.Keys
    {
      var stage := Ready(remaining);
      if stage == {} {
        StuckHasNoExit(g, deps.Keys, remaining, done, |plan|);
        return Err(CycleAmong(remaining.Keys));
      }
      WaitingShrinks(g, deps.Keys, remaining, done, |plan|);
      StageAdded(g, plan, done, stage);
      plan := plan + [stage];
      remaining := Without(remaining, stage);
      done := done + stage;
    }
    forall a | a in deps ensures a in done { assert a !in deps.Keys - done; }
    r := Ok(plan);
  }

  /**
   The planner succeeds exactly when everything reachable is known, has all its
   producers and lies on no cycle; a success is the plan, and a failure names
   something that is really wrong.
   */
  method BuildPlan(reg: Registry, targets: set<string>) returns (r: Result<seq<set<string>>>)
    ensures r.Ok? <==> Plannable(reg, targets)
    ensures r.Ok? ==> IsPlan(reg, targets, r.value)
    ensures r.Err? ==> match r.error
                       case UnknownAgent(id) => id in targets && !Known(reg, id)
                       case NoProducer(key) => exists a :: Reachable(GraphOf(reg), targets, a) && Broken(reg, a, key)
                       case CycleAmong(agents) =>
                         && agents != {} && NoExit(GraphOf(reg), agents)
                         && forall a :: a in agents ==> Reachable(GraphOf(reg), targets, a)
  {
    ghost var g := GraphOf(reg);
    var closure := Close(reg, targets);
    if closure.Err? {
      if closure.error.UnknownAgent? { TargetReachable(g, targets, closure.error.id); }
      return Err(closure.error);
    }
    var needed := closure.value;
    forall a, b | a in needed && Edge(g, a, b) ensures b in needed { ReachableStep(g, targets, a, b); }
    UnmetMeaning(reg, needed);
    r := Stage(map a | a in needed :: Unmet(reg, a, needed), g);
    if r.Err? {
      var a := CycleExists(g, r.error.agents);
    } else {
      forall a | Reachable(g, targets, a) ensures !OnCycle(g, a) {
        assert Scheduled(r.value, a);
        var i :| 0 <= i < |r.value| && a in r.value[i];
        LevelledIsAcyclic(g, a, i);
      }
    }
  }

  /** In a plan every required producer runs in a strictly earlier stage. */
  lemma ProducersRunEarlier(reg: Registry, targets: set<string>, plan: seq<set<string>>, i: nat, a: string, b: string)
    requires IsPlan(reg, targets, plan) && i < |plan| && a in plan[i] && Edge(GraphOf(reg), a, b)
    ensures exists j :: 0 <= j < i && b in plan[j]
  {
    var g := GraphOf(reg);
    assert Scheduled(plan, a);
    ReachableStep(g, targets, a, b);
    assert Scheduled(plan, b);
    var j :| 0 <= j < |plan| && b in plan[j];
    HasPathCons(g, a, b, j);
  }

  lemma SameStages(reg: Registry, targets: set<string>, p: seq<set<string>>, q: seq<set<string>>)
    requires IsPlan(reg, targets, p) && IsPlan(reg, targets, q)
    ensures |p| <= |q| && forall i :: 0 <= i < |p| ==> p[i] <= q[i]
  {
    forall i, a | 0 <= i < |p| && a in p[i] ensures i < |q| && a in q[i] {
      assert Scheduled(p, a);
      assert Scheduled(q, a);
      var j :| 0 <= j < |q| && a in q[j];
      LongestPathUnique(GraphOf(reg), a, i, j);
    }
    if p != [] {
      var a :| a in p[|p| - 1];
    }
  }

  /** There is only one plan: the levels leave no freedom, whatever the order of the worklist. */
  lemma PlanIsUnique(reg: Registry, targets: set<string>, p: seq<set<string>>, q: seq<set<string>>)
    requires IsPlan(reg, targets, p) && IsPlan(reg, targets, q)
    ensures p == q
  {
    SameStages(reg, targets, p, q);
    SameStages(reg, targets, q, p);
    forall i | 0 <= i < |p| ensures p[i] == q[i] { }
  }
}
