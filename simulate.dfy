/**
  The synchronous `simulate` entry point of garlicsim and its two drivers.

  A simulation starts from a world state, pulls at most `iterations` new
  states from the simpack's step iterator and returns the last one. In
  history-dependent mode every produced state is also recorded in a tree, as
  the child of the previously recorded node.
 */
module Simulation {
  import opened Wrappers

  /** A world state. `clock` is `None` when the state has no clock attribute. */
  class State<W> {
    var clock: Option<int>
    const world: W

    constructor (world: W, clock: Option<int>)
      ensures this.world == world && this.clock == clock
    {
      this.world := world;
      this.clock := clock;
    }

    /** A deep copy of `other`: a new object holding the same world and clock. */
    constructor Copy(other: State<W>)
      ensures world == other.world && clock == other.clock
    {
      world := other.world;
      clock := other.clock;
    }
  }

  /** A step function together with the arguments it is called with. */
  datatype StepProfile = StepProfile(stepFunction: string, args: seq<string>, kwargs: map<string, string>)

  /**
    Everything a step iterator will ever yield: its states in order, and then
    either plain exhaustion or the `WorldEnded` signal. An endless iterator is
    represented by a prefix at least as long as the iteration cap, since the
    capped iterator never pulls more than that many states.
   */
  datatype StepRun<W> = StepRun(states: seq<State<W>>, endsWorld: bool)

  /**
    What the simpack tells about itself. `getStepIterator` gives what the
    step iterator yields when started from a state whose clock is the given
    one, with the given step profile.
   */
  datatype SimpackGrokker<!W> = SimpackGrokker(
    historyDependent: bool,
    defaultStepFunction: string,
    getStepIterator: (State<W>, Option<int>, StepProfile) -> StepRun<W>)

  /** The outcome of pulling one item from an iterator. */
  datatype Signal<W> = Yield(state: State<W>) | Exhausted | WorldEnded

  /** The `i`-th pull (counting from 0) from the raw step iterator. */
  function Pull<W>(run: StepRun<W>, i: nat): Signal<W>
  {
    if i < |run.states| then Yield(run.states[i])
    else if run.endsWorld then WorldEnded
    else Exhausted
  }

  /**
    The `i`-th pull from the iterator capped at `n` items: after the `n`-th
    item the capped iterator stops without touching the raw one again.
   */
  function CappedPull<W>(run: StepRun<W>, n: nat, i: nat): (s: Signal<W>)
    ensures s.Yield? <==> i < n && i < |run.states|
    ensures s.Yield? ==> s.state == run.states[i]
    ensures s.WorldEnded? <==> |run.states| <= i < n && run.endsWorld
  {
    if i < n then Pull(run, i) else Exhausted
  }

  /** How many states the capped iterator yields: min(n, available). */
  function Taken<W>(run: StepRun<W>, n: nat): (k: nat)
    ensures k <= n && k <= |run.states|
    ensures k == n || k == |run.states|
  {
    if n <= |run.states| then n else |run.states|
  }

  /** The last of the first `k` yielded states, or `start` when `k` is 0. */
  function LastOf<W>(start: State<W>, states: seq<State<W>>, k: nat): State<W>
    requires k <= |states|
  {
    if k == 0 then start else states[k - 1]
  }

  /** The state a simulation of `n` iterations from `start` ends in. */
  function FinalState<W>(start: State<W>, run: StepRun<W>, n: nat): State<W>
  {
    LastOf(start, run.states, Taken(run, n))
  }

  /** The step profile a driver runs with: the given one, else the default step function with no arguments. */
  function ProfileOrDefault<W>(grokker: SimpackGrokker<W>, stepProfile: Option<StepProfile>): StepProfile
  {
    match stepProfile
    case Some(profile) => profile
    case None => StepProfile(grokker.defaultStepFunction, [], map[])
  }

  // ---------------------------------------------------------------- the tree

  /** A tree node: the state it holds and the index of its parent node, if any. */
  datatype Node<W> = Node(state: State<W>, parent: Option<nat>)

  /** Every parent link points to a node added earlier. */
  ghost predicate WellFormed<W>(nodes: seq<Node<W>>)
  {
    forall i :: 0 <= i < |nodes| && nodes[i].parent.Some? ==> nodes[i].parent.value < i
  }

  /** A tree of states, grown one node at a time. */
  class Tree<W> {
    var nodes: seq<Node<W>>

    ghost predicate Valid()
      reads this
    {
      WellFormed(nodes)
    }

    constructor ()
      ensures Valid() && nodes == []
    {
      nodes := [];
    }

    /** Adds `state` as a new node under `parent` (a new root when `parent` is `None`). */
    method AddState(state: State<W>, parent: Option<nat>) returns (node: nat)
      requires Valid()
      requires parent.Some? ==> parent.value < |nodes|
      modifies this
      ensures Valid()
      ensures node == |old(nodes)| && nodes == old(nodes) + [Node(state, parent)]
    {
      node := |nodes|;
      nodes := nodes + [Node(state, parent)];
    }
  }

  /** The states on the path from the root of node `i`'s tree down to node `i`. */
  ghost function PathTo<W>(nodes: seq<Node<W>>, i: nat): seq<State<W>>
    requires WellFormed(nodes) && i < |nodes|
    decreases i
  {
    match nodes[i].parent
    case None => [nodes[i].state]
    case Some(p) => PathTo(nodes, p) + [nodes[i].state]
  }

  /**
    The tree the history driver builds: a root holding `start`, then each
    state of `states` added as a child of the node added just before it.
   */
  function ChainTree<W>(start: State<W>, states: seq<State<W>>): (nodes: seq<Node<W>>)
    ensures |nodes| == |states| + 1
    decreases |states|
  {
    if states == [] then [Node(start, None)]
    else ChainTree(start, states[..|states| - 1]) + [Node(states[|states| - 1], Some(|states| - 1))]
  }

  /** The chain has one node per state plus the root, and node `i` is the child of node `i - 1`. */
  lemma {:induction false} ChainTreeShape<W>(start: State<W>, states: seq<State<W>>)
    ensures ChainTree(start, states)[0] == Node(start, None)
    ensures forall i :: 1 <= i < |ChainTree(start, states)| ==>
              ChainTree(start, states)[i] == Node(states[i - 1], Some(i - 1))
    decreases |states|
  {
    if states != [] {
      var prefix := states[..|states| - 1];
      ChainTreeShape(start, prefix);
      forall i | 1 <= i < |ChainTree(start, states)|
        ensures ChainTree(start, states)[i] == Node(states[i - 1], Some(i - 1))
      {
        if i < |states| {
          assert ChainTree(start, states)[i] == ChainTree(start, prefix)[i];
        }
      }
    }
  }

  /**
    The chain is a single path: it is well formed, its only root is the node
    holding `start`, no node has two children, and the path from the root to
    the last node visits `start` and then every state in order.
   */
  lemma ChainIsSinglePath<W>(start: State<W>, states: seq<State<W>>)
    ensures WellFormed(ChainTree(start, states))
    ensures forall i :: 0 <= i < |ChainTree(start, states)| ==>
              (ChainTree(start, states)[i].parent.None? <==> i == 0)
    ensures forall i, j :: 0 <= i < j < |ChainTree(start, states)| ==>
              ChainTree(start, states)[i].parent != ChainTree(start, states)[j].parent
    ensures PathTo(ChainTree(start, states), |states|) == [start] + states
  {
    ChainTreeShape(start, states);
    ChainPathPrefix(start, states, |states|);
    assert states[..|states|] == states;
  }

  lemma {:induction false} ChainPathPrefix<W>(start: State<W>, states: seq<State<W>>, k: nat)
    requires k <= |states|
    requires WellFormed(ChainTree(start, states))
    ensures PathTo(ChainTree(start, states), k) == [start] + states[..k]
  {
    ChainTreeShape(start, states);
    if k > 0 {
      ChainPathPrefix(start, states, k - 1);
      assert states[..k] == states[..k - 1] + [states[k - 1]];
    }
  }

  /** The node the history driver adds last holds the state the simulation returns. */
  lemma LastNodeHoldsFinalState<W>(start: State<W>, run: StepRun<W>, n: nat)
    ensures var chain := ChainTree(start, run.states[..Taken(run, n)]);
            chain[|chain| - 1].state == FinalState(start, run, n)
  {
  }

  // ------------------------------------------------------------- the drivers

  /**
    The non-history driver: pulls states from the capped step iterator until
    it stops or the world ends, and returns the last state pulled (`state`
    itself when none was).
   */
  method NonHistorySimulate<W>(grokker: SimpackGrokker<W>, state: State<W>, iterations: nat := 1,
                               stepProfile: Option<StepProfile> := None)
    returns (finalState: State<W>)
    ensures finalState == FinalState(state, grokker.getStepIterator(state, state.clock, ProfileOrDefault(grokker, stepProfile)), iterations)
    ensures stepProfile.Some? ==>
              finalState == FinalState(state, grokker.getStepIterator(state, state.clock, stepProfile.value), iterations)
    ensures stepProfile.None? ==>
              var default := StepProfile(grokker.defaultStepFunction, [], map[]);
              finalState == FinalState(state, grokker.getStepIterator(state, state.clock, default), iterations)
  {
    var profile := ProfileOrDefault(grokker, stepProfile);
    var run := grokker.getStepIterator(state, state.clock, profile);
    var currentState := state;
    var pulled := 0;
    var stopped := false;
    while !stopped
      invariant pulled <= Taken(run, iterations)
      invariant currentState == LastOf(state, run.states, pulled)
      invariant stopped ==> pulled == Taken(run, iterations)
      decreases iterations - pulled, !stopped
    {
      match CappedPull(run, iterations, pulled)
      case Yield(s) =>
        currentState := s;
        pulled := pulled + 1;
      case Exhausted =>
        stopped := true;
      case WorldEnded =>
        // The world-end signal ends the loop and goes no further.
        stopped := true;
    }
    finalState := currentState;
  }

  /**
    The history driver: seeds a tree with `state` as root, then adds every
    state pulled from the capped step iterator as a child of the node added
    before it. Returns the last state pulled (`state` itself when none was)
    and the tree.
   */
  method HistorySimulate<W>(grokker: SimpackGrokker<W>, state: State<W>, iterations: nat := 1,
                            stepProfile: Option<StepProfile> := None)
    returns (finalState: State<W>, tree: Tree<W>)
    ensures fresh(tree) && tree.Valid()
    ensures var run := grokker.getStepIterator(state, state.clock, ProfileOrDefault(grokker, stepProfile));
            && finalState == FinalState(state, run, iterations)
            && tree.nodes == ChainTree(state, run.states[..Taken(run, iterations)])
    ensures stepProfile.None? ==>
              var default := StepProfile(grokker.defaultStepFunction, [], map[]);
              finalState == FinalState(state, grokker.getStepIterator(state, state.clock, default), iterations)
  {
    var profile := ProfileOrDefault(grokker, stepProfile);
    tree := new Tree();
    var root := tree.AddState(state, None);
    var run := grokker.getStepIterator(state, state.clock, profile);
    var currentNode := root;
    var currentState := tree.nodes[currentNode].state;
    var pulled := 0;
    var stopped := false;
    while !stopped
      invariant fresh(tree) && tree.Valid()
      invariant pulled <= Taken(run, iterations)
      invariant currentState == LastOf(state, run.states, pulled)
      invariant tree.nodes == ChainTree(state, run.states[..pulled])
      invariant currentNode == pulled < |tree.nodes|
      invariant stopped ==> pulled == Taken(run, iterations)
      decreases iterations - pulled, !stopped
    {
      match CappedPull(run, iterations, pulled)
      case Yield(s) =>
        currentState := s;
        currentNode := tree.AddState(currentState, Some(currentNode));
        assert run.states[..pulled + 1][..pulled] == run.states[..pulled];
        pulled := pulled + 1;
      case Exhausted =>
        stopped := true;
      case WorldEnded =>
        stopped := true;
    }
    finalState := currentState;
  }

  /**
    `simulate`: makes sure the start state has a clock (replacing a clockless
    state by a copy whose clock is 0), then runs the driver that fits the
    simpack. `start` is the state the driver ran from; `history` is the tree
    the history driver built, and `None` for a non-history simpack.
   */
  method Simulate<W>(grokker: SimpackGrokker<W>, state: State<W>, stepProfile: StepProfile, iterations: nat := 1)
    returns (finalState: State<W>, ghost start: State<W>, ghost history: Option<Tree<W>>)
    ensures state.clock.Some? ==> start == state
    ensures state.clock.None? ==> fresh(start) && start.world == state.world && start.clock == Some(0)
    ensures finalState == FinalState(start, grokker.getStepIterator(start, start.clock, stepProfile), iterations)
    ensures history.Some? <==> grokker.historyDependent
    ensures history.Some? ==>
              var run := grokker.getStepIterator(start, start.clock, stepProfile);
              fresh(history.value) && history.value.nodes == ChainTree(start, run.states[..Taken(run, iterations)])
  {
    var s := state;
    if s.clock.None? {
      s := new State.Copy(state);
      s.clock := Some(0);
    }
    start := s;
    if grokker.historyDependent {
      var tree;
      finalState, tree := HistorySimulate(grokker, s, iterations, Some(stepProfile));
      history := Some(tree);
    } else {
      finalState := NonHistorySimulate(grokker, s, iterations, Some(stepProfile));
      history := None;
    }
  }

  // -------------------------------------------------- properties of the result

  /**
    The result does not depend on how the iterator ends: a run that ends the
    world gives the same result as one that simply runs out after the same
    states. (The signal itself is absorbed by the `WorldEnded` arm of the
    drivers' loops, whose contracts give this result.)
   */
  lemma WorldEndedIsAbsorbed<W>(start: State<W>, states: seq<State<W>>, n: nat)
    ensures FinalState(start, StepRun(states, true), n) == FinalState(start, StepRun(states, false), n)
  {
  }

  /** The result is the start state when the capped iterator yields nothing. */
  lemma FinalIsStartWhenNothingYielded<W>(start: State<W>, run: StepRun<W>, n: nat)
    requires n == 0 || run.states == []
    ensures FinalState(start, run, n) == start
  {
  }
}
