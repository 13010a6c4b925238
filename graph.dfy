/** The dependency graph (a directed graph with at most one edge per ordered
    pair, as networkx's `DiGraph`) and the graph assembler that builds it from
    the scanner's records. */
module Graph {
  import opened Wrappers
  import opened Text
  import opened OrderedDict
  import opened Parser
  import PyAst

  datatype Kind = ModuleNode | ClassNode | FunctionNode | ExternalNode

  /** A node's attributes. `Bare` is a node that `add_edge` created implicitly
      for an endpoint that was not yet a node: it has no type and no label. */
  datatype NodeData = Attrs(kind: Kind, nodeLabel: string) | Bare

  datatype EdgeKind = Contains | Imports | Calls

  type Edge = (string, string)

  /** Nodes with their attributes, in insertion order, and edges with their type,
      in the order each ordered pair was first added. */
  datatype DiGraph = DiGraph(nodes: ODict<string, NodeData>, edges: ODict<Edge, EdgeKind>)

  /** No edge dangles: both endpoints of every edge are nodes. */
  ghost predicate GraphValid(g: DiGraph)
  {
    && Valid(g.nodes) && Valid(g.edges)
    && forall e :: e in g.edges.vals ==> e.0 in g.nodes.vals && e.1 in g.nodes.vals
  }

  /** Every node carries a type and a label. */
  ghost predicate NoBare(g: DiGraph)
  {
    forall n :: n in g.nodes.vals ==> g.nodes.vals[n].Attrs?
  }

  function EmptyGraph(): (g: DiGraph)
    ensures GraphValid(g) && NoBare(g)
    ensures g.nodes.keys == [] && g.edges.keys == []
  {
    DiGraph(Empty(), Empty())
  }

  /** `add_node(n, type=kind, label=nodeLabel)`: an existing node keeps its place
      and has its attributes overwritten. */
  function AddNode(g: DiGraph, n: string, kind: Kind, nodeLabel: string): (r: DiGraph)
    ensures GraphValid(g) ==> GraphValid(r)
    ensures NoBare(g) ==> NoBare(r)
    ensures r.nodes == Put(g.nodes, n, Attrs(kind, nodeLabel)) && r.edges == g.edges
  {
    g.(nodes := Put(g.nodes, n, Attrs(kind, nodeLabel)))
  }

  /** `add_edge(u, v, type=k)`: a missing endpoint becomes a `Bare` node; an
      existing edge keeps its place and has its type overwritten. */
  function AddEdge(g: DiGraph, u: string, v: string, k: EdgeKind): (r: DiGraph)
    ensures GraphValid(g) ==> GraphValid(r)
    ensures r.edges == Put(g.edges, (u, v), k)
    ensures r.nodes.vals.Keys == g.nodes.vals.Keys + {u, v}
    ensures forall n :: n in g.nodes.vals ==> r.nodes.vals[n] == g.nodes.vals[n]
    ensures u !in g.nodes.vals ==> r.nodes.vals[u] == Bare
    ensures v !in g.nodes.vals ==> r.nodes.vals[v] == Bare
    ensures r.nodes.keys == g.nodes.keys + (if u in g.nodes.vals then [] else [u])
      + (if v in g.nodes.vals || v == u then [] else [v])
  {
    var g1 := if u in g.nodes.vals then g else g.(nodes := Put(g.nodes, u, Bare));
    assert g1.nodes.vals.Keys == g.nodes.vals.Keys + {u};
    assert g1.nodes.keys == g.nodes.keys + (if u in g.nodes.vals then [] else [u]);
    assert forall n :: n in g.nodes.vals ==> g1.nodes.vals[n] == g.nodes.vals[n];
    var g2 := if v in g1.nodes.vals then g1 else g1.(nodes := Put(g1.nodes, v, Bare));
    assert g2.nodes.vals.Keys == g.nodes.vals.Keys + {u, v};
    assert g2.nodes.keys == g1.nodes.keys + (if v in g.nodes.vals || v == u then [] else [v]);
    assert forall n :: n in g1.nodes.vals ==> g2.nodes.vals[n] == g1.nodes.vals[n];
    g2.(edges := Put(g2.edges, (u, v), k))
  }

  // ---------------------------------------------------------------------------
  // Call resolution

  /** Node id `n` is a candidate for a call whose last dotted component is `name`. */
  predicate Matches(n: string, name: string)
  {
    EndsWith(n, "." + name) || n == name
  }

  /** The first node of `ns` at or after position `from`, in order, that is a
      candidate for `name`. */
  function FirstMatchFrom(ns: seq<string>, name: string, from: nat): Option<string>
    requires from <= |ns|
    decreases |ns| - from
  {
    if from == |ns| then None
    else if Matches(ns[from], name) then Some(ns[from])
    else FirstMatchFrom(ns, name, from + 1)
  }

  /** The first node of `ns`, in order, that is a candidate for `name`. */
  function FirstMatch(ns: seq<string>, name: string): Option<string>
  {
    FirstMatchFrom(ns, name, 0)
  }

  /** Searching from position `from` finds the earliest candidate at or after it. */
  lemma {:induction false} FirstMatchFromIsFirst(ns: seq<string>, name: string, from: nat)
    requires from <= |ns|
    ensures FirstMatchFrom(ns, name, from).None? <==> forall j :: from <= j < |ns| ==> !Matches(ns[j], name)
    ensures FirstMatchFrom(ns, name, from).Some? ==>
      exists i :: from <= i < |ns| && ns[i] == FirstMatchFrom(ns, name, from).value && Matches(ns[i], name)
        && forall j :: from <= j < i ==> !Matches(ns[j], name)
    decreases |ns| - from
  {
    if from < |ns| {
      if Matches(ns[from], name) {
        assert ns[from] == FirstMatchFrom(ns, name, from).value;
      } else {
        FirstMatchFromIsFirst(ns, name, from + 1);
      }
    }
  }

  /** `FirstMatch` finds a candidate exactly when there is one, and what it finds
      is the earliest candidate in node order. */
  lemma FirstMatchIsFirst(ns: seq<string>, name: string)
    ensures FirstMatch(ns, name).None? <==> forall j :: 0 <= j < |ns| ==> !Matches(ns[j], name)
    ensures FirstMatch(ns, name).Some? ==>
      exists i :: 0 <= i < |ns| && ns[i] == FirstMatch(ns, name).value && Matches(ns[i], name)
        && forall j :: 0 <= j < i ==> !Matches(ns[j], name)
  {
    FirstMatchFromIsFirst(ns, name, 0);
  }

  /** The loop over the snapshot with its `break`: the first candidate in order. */
  method ResolveCall(allNodes: seq<string>, calleeGuess: string) returns (targetNode: Option<string>)
    ensures targetNode == FirstMatch(allNodes, LastComponent(calleeGuess))
  {
    var funcName := LastComponent(calleeGuess);
    targetNode := None;
    var i := 0;
    while i < |allNodes|
      invariant 0 <= i <= |allNodes|
      invariant FirstMatch(allNodes, funcName) == FirstMatchFrom(allNodes, funcName, i)
      invariant targetNode == None
    {
      var n := allNodes[i];
      if EndsWith(n, "." + funcName) || n == funcName {
        targetNode := Some(n);
        break;
      }
      i := i + 1;
    }
  }

  /** The target a call edge goes to: the first candidate in the snapshot, or,
      when there is none (or it is the empty id, which Python treats as false),
      the synthesised node "ext:" + hint. */
  function CallTarget(snapshot: seq<string>, callee: string): string
  {
    if Resolves(snapshot, callee) then FirstMatch(snapshot, LastComponent(callee)).value else "ext:" + callee
  }

  /** The search finds a node, and its id is not the empty string. */
  predicate Resolves(snapshot: seq<string>, callee: string)
  {
    var found := FirstMatch(snapshot, LastComponent(callee));
    found.Some? && found.value != ""
  }

  // ---------------------------------------------------------------------------
  // The four registration phases, as functions of the graph so far

  function AddModuleNodes(g: DiGraph, mods: seq<string>): (r: DiGraph)
    ensures GraphValid(g) ==> GraphValid(r)
  {
    if mods == [] then g
    else
      var m := mods[|mods| - 1];
      AddNode(AddModuleNodes(g, mods[..|mods| - 1]), m, ModuleNode, m)
  }

  function AddClassNodes(g: DiGraph, classes: map<string, ClassInfo>, ks: seq<string>): (r: DiGraph)
    requires forall k :: k in ks ==> k in classes
    ensures GraphValid(g) ==> GraphValid(r)
  {
    if ks == [] then g
    else
      var c := ks[|ks| - 1];
      var info := classes[c];
      var prev := AddClassNodes(g, classes, ks[..|ks| - 1]);
      AddEdge(AddNode(prev, c, ClassNode, info.name), info.moduleName, c, Contains)
  }

  /** The node a function's `contains` edge comes from: its class, else its module. */
  function Parent(f: FunctionInfo): string
  {
    if f.className != "" then f.className else f.moduleName
  }

  function AddFunctionNodes(g: DiGraph, functions: map<string, FunctionInfo>, ks: seq<string>): (r: DiGraph)
    requires forall k :: k in ks ==> k in functions
    ensures GraphValid(g) ==> GraphValid(r)
  {
    if ks == [] then g
    else
      var f := ks[|ks| - 1];
      var info := functions[f];
      var prev := AddFunctionNodes(g, functions, ks[..|ks| - 1]);
      AddEdge(AddNode(prev, f, FunctionNode, info.name), Parent(info), f, Contains)
  }

  function AddImportEdges(g: DiGraph, imports: seq<ImportRecord>): (r: DiGraph)
    ensures GraphValid(g) ==> GraphValid(r)
  {
    if imports == [] then g
    else
      var prev := AddImportEdges(g, imports[..|imports| - 1]);
      var imp := imports[|imports| - 1];
      if imp.targetModule != "" then
        AddEdge(AddNode(prev, imp.targetModule, ModuleNode, imp.targetModule), imp.sourceModule, imp.targetModule, Imports)
      else
        prev
  }

  /** One call: an edge to the resolved target, or to a new external node. */
  function AddCallEdge(g: DiGraph, snapshot: seq<string>, call: CallRecord): (r: DiGraph)
    ensures GraphValid(g) ==> GraphValid(r)
  {
    var found := FirstMatch(snapshot, LastComponent(call.callee));
    if found.Some? && found.value != "" then
      AddEdge(g, call.caller, found.value, Calls)
    else
      var ext := "ext:" + call.callee;
      AddEdge(AddNode(g, ext, ExternalNode, call.callee), call.caller, ext, Calls)
  }

  function AddCallEdges(g: DiGraph, snapshot: seq<string>, calls: seq<CallRecord>): (r: DiGraph)
    ensures GraphValid(g) ==> GraphValid(r)
  {
    if calls == [] then g
    else AddCallEdge(AddCallEdges(g, snapshot, calls[..|calls| - 1]), snapshot, calls[|calls| - 1])
  }

  // ---------------------------------------------------------------------------
  // What each phase guarantees

  lemma {:induction false} ModulePhase(g: DiGraph, mods: seq<string>)
    ensures var r := AddModuleNodes(g, mods);
      && g.nodes.vals.Keys <= r.nodes.vals.Keys
      && (forall m :: m in mods ==> m in r.nodes.vals && r.nodes.vals[m] == Attrs(ModuleNode, m))
      && (NoBare(g) ==> NoBare(r))
      && r.edges == g.edges
  {
    if mods != [] {
      ModulePhase(g, mods[..|mods| - 1]);
    }
  }

  lemma {:induction false} ClassPhase(g: DiGraph, classes: map<string, ClassInfo>, ks: seq<string>)
    requires forall k :: k in ks ==> k in classes
    ensures var r := AddClassNodes(g, classes, ks);
      && g.nodes.vals.Keys <= r.nodes.vals.Keys
      && g.edges.vals.Keys <= r.edges.vals.Keys
      && (forall k :: k in ks ==> k in r.nodes.vals && (classes[k].moduleName, k) in r.edges.vals)
      && (NoBare(g) && (forall k :: k in ks ==> classes[k].moduleName in g.nodes.vals) ==> NoBare(r))
  {
    if ks != [] {
      ClassPhase(g, classes, ks[..|ks| - 1]);
    }
  }

  lemma {:induction false} FunctionPhase(g: DiGraph, functions: map<string, FunctionInfo>, ks: seq<string>)
    requires forall k :: k in ks ==> k in functions
    ensures var r := AddFunctionNodes(g, functions, ks);
      && g.nodes.vals.Keys <= r.nodes.vals.Keys
      && g.edges.vals.Keys <= r.edges.vals.Keys
      && (forall k :: k in ks ==> k in r.nodes.vals && (Parent(functions[k]), k) in r.edges.vals)
      && (NoBare(g) && (forall k :: k in ks ==> Parent(functions[k]) in g.nodes.vals) ==> NoBare(r))
  {
    if ks != [] {
      FunctionPhase(g, functions, ks[..|ks| - 1]);
    }
  }

  lemma {:induction false} ImportPhase(g: DiGraph, imports: seq<ImportRecord>)
    ensures var r := AddImportEdges(g, imports);
      && g.nodes.vals.Keys <= r.nodes.vals.Keys
      && g.edges.vals.Keys <= r.edges.vals.Keys
      && (forall i :: i in imports && i.targetModule != "" ==>
            i.targetModule in r.nodes.vals && (i.sourceModule, i.targetModule) in r.edges.vals)
      && (NoBare(g) && (forall i :: i in imports ==> i.sourceModule in g.nodes.vals) ==> NoBare(r))
  {
    if imports != [] {
      ImportPhase(g, imports[..|imports| - 1]);
    }
  }

  /** Each class in `ks` (listed once) ends the class phase as a class node
      labelled with its bare name, with a `contains` edge from its module: later
      steps add other nodes and other pairs, and `add_edge` leaves an existing
      node's attributes alone. */
  lemma {:induction false} ClassPhaseData(g: DiGraph, classes: map<string, ClassInfo>, ks: seq<string>)
    requires forall k :: k in ks ==> k in classes
    requires Distinct(ks)
    ensures var r := AddClassNodes(g, classes, ks);
      forall k :: k in ks ==>
        && k in r.nodes.vals && r.nodes.vals[k] == Attrs(ClassNode, classes[k].name)
        && (classes[k].moduleName, k) in r.edges.vals && r.edges.vals[(classes[k].moduleName, k)] == Contains
  {
    if ks != [] {
      var init := ks[..|ks| - 1];
      var c := ks[|ks| - 1];
      assert Distinct(init);
      ClassPhaseData(g, classes, init);
      var prev := AddClassNodes(g, classes, init);
      var g1 := AddNode(prev, c, ClassNode, classes[c].name);
      var r := AddEdge(g1, classes[c].moduleName, c, Contains);
      assert AddClassNodes(g, classes, ks) == r;
      forall k | k in ks
        ensures k in r.nodes.vals && r.nodes.vals[k] == Attrs(ClassNode, classes[k].name)
        ensures (classes[k].moduleName, k) in r.edges.vals && r.edges.vals[(classes[k].moduleName, k)] == Contains
      {
        if k != c {
          assert k in init;
        }
      }
    }
  }

  /** Each function in `ks` (listed once) ends the function phase as a function
      node labelled with its bare name, with a `contains` edge from its parent. */
  lemma {:induction false} FunctionPhaseData(g: DiGraph, functions: map<string, FunctionInfo>, ks: seq<string>)
    requires forall k :: k in ks ==> k in functions
    requires Distinct(ks)
    ensures var r := AddFunctionNodes(g, functions, ks);
      forall k :: k in ks ==>
        && k in r.nodes.vals && r.nodes.vals[k] == Attrs(FunctionNode, functions[k].name)
        && (Parent(functions[k]), k) in r.edges.vals && r.edges.vals[(Parent(functions[k]), k)] == Contains
  {
    if ks != [] {
      var init := ks[..|ks| - 1];
      var f := ks[|ks| - 1];
      assert Distinct(init);
      FunctionPhaseData(g, functions, init);
      var prev := AddFunctionNodes(g, functions, init);
      var g1 := AddNode(prev, f, FunctionNode, functions[f].name);
      var r := AddEdge(g1, Parent(functions[f]), f, Contains);
      assert AddFunctionNodes(g, functions, ks) == r;
      forall k | k in ks
        ensures k in r.nodes.vals && r.nodes.vals[k] == Attrs(FunctionNode, functions[k].name)
        ensures (Parent(functions[k]), k) in r.edges.vals && r.edges.vals[(Parent(functions[k]), k)] == Contains
      {
        if k != f {
          assert k in init;
        }
      }
    }
  }

  /** Every named import target ends the import phase as a module node labelled
      with its own name, with an `imports` edge from the importing module: every
      import step writes the same attributes and the same edge type. */
  lemma {:induction false} ImportPhaseData(g: DiGraph, imports: seq<ImportRecord>)
    ensures var r := AddImportEdges(g, imports);
      forall i :: i in imports && i.targetModule != "" ==>
        && i.targetModule in r.nodes.vals && r.nodes.vals[i.targetModule] == Attrs(ModuleNode, i.targetModule)
        && (i.sourceModule, i.targetModule) in r.edges.vals && r.edges.vals[(i.sourceModule, i.targetModule)] == Imports
  {
    if imports != [] {
      var init := imports[..|imports| - 1];
      var imp := imports[|imports| - 1];
      ImportPhaseData(g, init);
      var prev := AddImportEdges(g, init);
      var r := AddImportEdges(g, imports);
      forall i | i in imports && i.targetModule != ""
        ensures i.targetModule in r.nodes.vals && r.nodes.vals[i.targetModule] == Attrs(ModuleNode, i.targetModule)
        ensures (i.sourceModule, i.targetModule) in r.edges.vals && r.edges.vals[(i.sourceModule, i.targetModule)] == Imports
      {
        if i != imp {
          assert i in init;
        }
      }
    }
  }

  /** The targets, sources and pairs of the imports with a named target. */
  function NamedTargets(imports: seq<ImportRecord>): set<string>
  {
    if imports == [] then {}
    else
      var last := imports[|imports| - 1];
      NamedTargets(imports[..|imports| - 1]) + if last.targetModule != "" then {last.targetModule} else {}
  }

  function NamedSources(imports: seq<ImportRecord>): set<string>
  {
    if imports == [] then {}
    else
      var last := imports[|imports| - 1];
      NamedSources(imports[..|imports| - 1]) + if last.targetModule != "" then {last.sourceModule} else {}
  }

  function NamedPairs(imports: seq<ImportRecord>): set<Edge>
  {
    if imports == [] then {}
    else
      var last := imports[|imports| - 1];
      NamedPairs(imports[..|imports| - 1]) + if last.targetModule != "" then {(last.sourceModule, last.targetModule)} else {}
  }

  /** The named sets hold exactly what the imports with a named target mention. */
  lemma {:induction false} NamedMembers(imports: seq<ImportRecord>)
    ensures forall t :: t in NamedTargets(imports) <==> exists i :: i in imports && i.targetModule != "" && i.targetModule == t
    ensures forall x :: x in NamedSources(imports) <==> exists i :: i in imports && i.targetModule != "" && i.sourceModule == x
    ensures forall e :: e in NamedPairs(imports) <==>
      exists i :: i in imports && i.targetModule != "" && (i.sourceModule, i.targetModule) == e
  {
    if imports != [] {
      var init := imports[..|imports| - 1];
      var last := imports[|imports| - 1];
      NamedMembers(init);
      assert forall i :: i in imports <==> i in init || i == last by {
        assert imports == init + [last];
      }
    }
  }

  /** The import phase adds exactly the endpoints of the imports with a named
      target: an import whose target is empty adds no node. */
  lemma {:induction false} ImportPhaseNodeKeys(g: DiGraph, imports: seq<ImportRecord>)
    ensures AddImportEdges(g, imports).nodes.vals.Keys
      == g.nodes.vals.Keys + NamedTargets(imports) + NamedSources(imports)
  {
    if imports != [] {
      ImportPhaseNodeKeys(g, imports[..|imports| - 1]);
    }
  }

  /** The import phase adds exactly the pairs of the imports with a named
      target: an import whose target is empty adds no edge. */
  lemma {:induction false} ImportPhaseEdgeKeys(g: DiGraph, imports: seq<ImportRecord>)
    ensures AddImportEdges(g, imports).edges.vals.Keys == g.edges.vals.Keys + NamedPairs(imports)
  {
    if imports != [] {
      ImportPhaseEdgeKeys(g, imports[..|imports| - 1]);
    }
  }

  /** One call step puts a `calls` edge on its pair and leaves every other
      edge, and every existing node's data, as it was (except the data of its
      own external node). */
  lemma {:induction false} CallStep(g: DiGraph, snapshot: seq<string>, call: CallRecord)
    ensures var r := AddCallEdge(g, snapshot, call);
      var e := (call.caller, CallTarget(snapshot, call.callee));
      var ext := "ext:" + call.callee;
      && g.nodes.vals.Keys <= r.nodes.vals.Keys
      && e in r.edges.vals && r.edges.vals[e] == Calls
      && (forall e' :: e' in g.edges.vals && e' != e ==> e' in r.edges.vals && r.edges.vals[e'] == g.edges.vals[e'])
      && (forall n :: n in g.nodes.vals && n != ext ==> r.nodes.vals[n] == g.nodes.vals[n])
      && (!Resolves(snapshot, call.callee) ==> r.nodes.vals[ext] == Attrs(ExternalNode, call.callee))
  {
    var found := FirstMatch(snapshot, LastComponent(call.callee));
    if found.Some? && found.value != "" {
      var r := AddEdge(g, call.caller, found.value, Calls);
      assert AddCallEdge(g, snapshot, call) == r;
      assert CallTarget(snapshot, call.callee) == found.value;
      assert r.edges.vals == g.edges.vals[(call.caller, found.value) := Calls];
    } else {
      var ext := "ext:" + call.callee;
      var g1 := AddNode(g, ext, ExternalNode, call.callee);
      var r := AddEdge(g1, call.caller, ext, Calls);
      assert AddCallEdge(g, snapshot, call) == r;
      assert CallTarget(snapshot, call.callee) == ext;
      assert r.edges.vals == g.edges.vals[(call.caller, ext) := Calls];
      assert g1.nodes.vals == g.nodes.vals[ext := Attrs(ExternalNode, call.callee)];
    }
  }

  lemma {:induction false} CallPhaseGrows(g: DiGraph, snapshot: seq<string>, calls: seq<CallRecord>)
    ensures var r := AddCallEdges(g, snapshot, calls);
      && g.nodes.vals.Keys <= r.nodes.vals.Keys
      && g.edges.vals.Keys <= r.edges.vals.Keys
  {
    if calls != [] {
      CallPhaseGrows(g, snapshot, calls[..|calls| - 1]);
      CallStep(AddCallEdges(g, snapshot, calls[..|calls| - 1]), snapshot, calls[|calls| - 1]);
    }
  }

  lemma {:induction false} CallPhaseEdges(g: DiGraph, snapshot: seq<string>, calls: seq<CallRecord>)
    ensures var r := AddCallEdges(g, snapshot, calls);
      (forall c :: c in calls ==>
            var e := (c.caller, CallTarget(snapshot, c.callee));
            e in r.edges.vals && r.edges.vals[e] == Calls)
  {
    if calls != [] {
      var init := calls[..|calls| - 1];
      var call := calls[|calls| - 1];
      var prev := AddCallEdges(g, snapshot, init);
      CallPhaseEdges(g, snapshot, init);
      CallStep(prev, snapshot, call);
      forall c | c in calls
        ensures var e := (c.caller, CallTarget(snapshot, c.callee));
          e in AddCallEdges(g, snapshot, calls).edges.vals && AddCallEdges(g, snapshot, calls).edges.vals[e] == Calls
      {
        if c != call {
          assert c in init;
        }
      }
    }
  }

  lemma {:induction false} CallStepNodes(g: DiGraph, snapshot: seq<string>, call: CallRecord)
    requires call.caller in g.nodes.vals
    requires forall n :: n in snapshot ==> n in g.nodes.vals
    ensures var r := AddCallEdge(g, snapshot, call);
      && (NoBare(g) ==> NoBare(r))
      && r.nodes.vals.Keys <= g.nodes.vals.Keys + {"ext:" + call.callee}
  {
    var found := FirstMatch(snapshot, LastComponent(call.callee));
    FirstMatchIsFirst(snapshot, LastComponent(call.callee));
    if found.Some? && found.value != "" {
      assert found.value in snapshot;
    }
  }

  /** When every caller and every snapshot node is already a node, the call
      phase adds no attribute-less node, and every node it adds is an "ext:" node. */
  lemma {:induction false} CallPhaseNodes(g: DiGraph, snapshot: seq<string>, calls: seq<CallRecord>)
    requires forall c :: c in calls ==> c.caller in g.nodes.vals
    requires forall n :: n in snapshot ==> n in g.nodes.vals
    ensures var r := AddCallEdges(g, snapshot, calls);
      && (NoBare(g) ==> NoBare(r))
      && forall n :: n in r.nodes.vals ==> n in g.nodes.vals || exists c :: c in calls && n == "ext:" + c.callee
  {
    if calls != [] {
      var init := calls[..|calls| - 1];
      var call := calls[|calls| - 1];
      assert forall c :: c in init ==> c in calls;
      CallPhaseNodes(g, snapshot, init);
      CallPhaseGrows(g, snapshot, init);
      CallStepNodes(AddCallEdges(g, snapshot, init), snapshot, call);
    }
  }

  /** The graph after the node, contains and import phases: the snapshot that
      call resolution searches. */
  function BeforeCalls(g: DiGraph, pd: ParsedData): DiGraph
    requires DictsValid(pd)
  {
    var g1 := AddModuleNodes(g, pd.modules.keys);
    var g2 := AddClassNodes(g1, pd.classes.vals, pd.classes.keys);
    var g3 := AddFunctionNodes(g2, pd.functions.vals, pd.functions.keys);
    AddImportEdges(g3, pd.imports)
  }

  /** `build()` applied to the graph `g` the builder holds. */
  function BuildFrom(g: DiGraph, pd: ParsedData): DiGraph
    requires DictsValid(pd)
  {
    var before := BeforeCalls(g, pd);
    AddCallEdges(before, before.nodes.keys, pd.calls)
  }

  /** The graph built from a scan by a fresh builder. */
  function Built(pd: ParsedData): DiGraph
    requires DictsValid(pd)
  {
    BuildFrom(EmptyGraph(), pd)
  }

  /** The node ids call resolution searches, in registration order. */
  function Snapshot(pd: ParsedData): seq<string>
    requires DictsValid(pd)
  {
    BeforeCalls(EmptyGraph(), pd).nodes.keys
  }

  // ---------------------------------------------------------------------------
  // Properties of the built graph

  /** The first four phases register every module, class and function as a
      node, with its `contains` edge, and every named import target with its
      `imports` edge. */
  lemma BeforeCallsHasEveryReference(pd: ParsedData)
    requires DictsValid(pd)
    ensures var g := BeforeCalls(EmptyGraph(), pd);
      && GraphValid(g)
      && (forall m :: m in pd.modules.vals ==> m in g.nodes.vals)
      && (forall c :: c in pd.classes.vals ==>
            c in g.nodes.vals && (pd.classes.vals[c].moduleName, c) in g.edges.vals)
      && (forall f :: f in pd.functions.vals ==>
            f in g.nodes.vals && (Parent(pd.functions.vals[f]), f) in g.edges.vals)
      && (forall i :: i in pd.imports && i.targetModule != "" ==>
            i.targetModule in g.nodes.vals && (i.sourceModule, i.targetModule) in g.edges.vals)
  {
    var g0 := EmptyGraph();
    var g1 := AddModuleNodes(g0, pd.modules.keys);
    var g2 := AddClassNodes(g1, pd.classes.vals, pd.classes.keys);
    var g3 := AddFunctionNodes(g2, pd.functions.vals, pd.functions.keys);
    ModulePhase(g0, pd.modules.keys);
    ClassPhase(g1, pd.classes.vals, pd.classes.keys);
    FunctionPhase(g2, pd.functions.vals, pd.functions.keys);
    ImportPhase(g3, pd.imports);
  }

  /** Every scanned symbol becomes a node, and every reference an edge: the
      edges of the first four phases survive the call phase, and each call
      adds a `calls` edge, which keeps the `calls` type even where the same
      pair was first added as `contains`. */
  lemma BuiltHasEveryReference(pd: ParsedData)
    requires DictsValid(pd)
    ensures var g := Built(pd);
      && GraphValid(g)
      && (forall m :: m in pd.modules.vals ==> m in g.nodes.vals)
      && (forall c :: c in pd.classes.vals ==>
            c in g.nodes.vals && (pd.classes.vals[c].moduleName, c) in g.edges.vals)
      && (forall f :: f in pd.functions.vals ==>
            f in g.nodes.vals && (Parent(pd.functions.vals[f]), f) in g.edges.vals)
      && (forall i :: i in pd.imports && i.targetModule != "" ==>
            i.targetModule in g.nodes.vals && (i.sourceModule, i.targetModule) in g.edges.vals)
      && (forall c :: c in pd.calls ==>
            var e := (c.caller, CallTarget(Snapshot(pd), c.callee));
            e in g.edges.vals && g.edges.vals[e] == Calls)
  {
    var g4 := BeforeCalls(EmptyGraph(), pd);
    BeforeCallsHasEveryReference(pd);
    CallPhaseGrows(g4, g4.nodes.keys, pd.calls);
    CallPhaseEdges(g4, g4.nodes.keys, pd.calls);
  }

  /** The graph after the module, class and function phases. */
  function NodePhases(pd: ParsedData): DiGraph
    requires DictsValid(pd)
  {
    var g1 := AddModuleNodes(EmptyGraph(), pd.modules.keys);
    var g2 := AddClassNodes(g1, pd.classes.vals, pd.classes.keys);
    AddFunctionNodes(g2, pd.functions.vals, pd.functions.keys)
  }

  lemma ClassPhaseNoBare(pd: ParsedData)
    requires WellFormed(pd)
    ensures var g2 := AddClassNodes(AddModuleNodes(EmptyGraph(), pd.modules.keys), pd.classes.vals, pd.classes.keys);
      && NoBare(g2)
      && (forall m :: m in pd.modules.vals ==> m in g2.nodes.vals)
      && (forall c :: c in pd.classes.vals ==> c in g2.nodes.vals)
  {
    var g0 := EmptyGraph();
    var g1 := AddModuleNodes(g0, pd.modules.keys);
    ModulePhase(g0, pd.modules.keys);
    assert forall k :: k in pd.classes.keys ==> pd.classes.vals[k].moduleName in g1.nodes.vals;
    ClassPhase(g1, pd.classes.vals, pd.classes.keys);
  }

  lemma NodePhasesNoBare(pd: ParsedData)
    requires WellFormed(pd)
    ensures var g3 := NodePhases(pd);
      && NoBare(g3)
      && (forall m :: m in pd.modules.vals ==> m in g3.nodes.vals)
      && (forall c :: c in pd.classes.vals ==> c in g3.nodes.vals)
      && (forall f :: f in pd.functions.vals ==> f in g3.nodes.vals)
  {
    var g2 := AddClassNodes(AddModuleNodes(EmptyGraph(), pd.modules.keys), pd.classes.vals, pd.classes.keys);
    ClassPhaseNoBare(pd);
    forall k | k in pd.functions.keys
      ensures Parent(pd.functions.vals[k]) in g2.nodes.vals
    {
      var f := pd.functions.vals[k];
      assert f.moduleName in pd.modules.vals && (f.className == "" || f.className in pd.classes.vals);
    }
    var g3 := AddFunctionNodes(g2, pd.functions.vals, pd.functions.keys);
    assert NodePhases(pd) == g3;
    FunctionPhase(g2, pd.functions.vals, pd.functions.keys);
    assert forall f :: f in pd.functions.vals ==> f in pd.functions.keys;
  }

  /** On a well-formed scan the first four phases create no attribute-less
      node, and every caller is already a node when calls are resolved. */
  lemma BeforeCallsHasNoBareNodes(pd: ParsedData)
    requires WellFormed(pd)
    ensures var g := BeforeCalls(EmptyGraph(), pd);
      && GraphValid(g) && NoBare(g)
      && (forall c :: c in pd.calls ==> c.caller in g.nodes.vals)
  {
    var g3 := NodePhases(pd);
    assert BeforeCalls(EmptyGraph(), pd) == AddImportEdges(g3, pd.imports);
    NodePhasesNoBare(pd);
    ImportPhase(g3, pd.imports);
  }

  /** On a well-formed scan no edge endpoint is created implicitly: every node
      of the built graph carries a type and a label, and the call phase adds
      no node other than "ext:" nodes. */
  lemma BuiltHasNoBareNodes(pd: ParsedData)
    requires WellFormed(pd)
    ensures NoBare(Built(pd))
    ensures forall n :: n in Built(pd).nodes.vals ==>
      n in Snapshot(pd) || exists c :: c in pd.calls && n == "ext:" + c.callee
  {
    var g4 := BeforeCalls(EmptyGraph(), pd);
    BeforeCallsHasNoBareNodes(pd);
    CallPhaseNodes(g4, g4.nodes.keys, pd.calls);
  }

  /** End to end: whatever files are scanned, the graph built from the scan
      has no dangling edge and no node without a type and a label. */
  lemma ScanThenBuildHasNoBareNodes(files: seq<(string, Option<PyAst.Node>)>)
    ensures var g := Built(ParseFiles(EmptyParsedData(), files));
      GraphValid(g) && NoBare(g)
  {
    var pd := ParseFiles(EmptyParsedData(), files);
    assert WellFormed(EmptyParsedData());
    ParseFilesWellFormed(EmptyParsedData(), files);
    BuiltHasNoBareNodes(pd);
  }

  /** A call that does not resolve (no snapshot node matches, or the first match
      is the empty id) gets an external node labelled with the full hint, and a
      `calls` edge to it from the caller. */
  lemma UnresolvedCallGoesExternal(pd: ParsedData, c: CallRecord)
    requires DictsValid(pd) && c in pd.calls
    requires !Resolves(Snapshot(pd), c.callee)
    ensures var g := Built(pd); var ext := "ext:" + c.callee;
      && ext in g.nodes.vals && g.nodes.vals[ext] == Attrs(ExternalNode, c.callee)
      && (c.caller, ext) in g.edges.vals && g.edges.vals[(c.caller, ext)] == Calls
  {
    BuiltHasEveryReference(pd);
    var before := BeforeCalls(EmptyGraph(), pd);
    var i :| 0 <= i < |pd.calls| && pd.calls[i] == c;
    ExternalNodeData(before, before.nodes.keys, pd.calls, i);
  }

  /** An unresolved call leaves the finished call phase with its external node,
      labelled with its full hint, whatever calls come after it. */
  lemma {:induction false} ExternalNodeData(g: DiGraph, snapshot: seq<string>, calls: seq<CallRecord>, i: nat)
    requires i < |calls|
    requires !Resolves(snapshot, calls[i].callee)
    ensures ExtLabelled(AddCallEdges(g, snapshot, calls), calls[i].callee)
  {
    ExternalNodeAfter(g, snapshot, calls, i, |calls|);
    assert calls[..|calls|] == calls;
  }

  /** Once the call at index `i` has made its external node, every later
      prefix of the call phase keeps it. */
  lemma {:induction false} ExternalNodeAfter(g: DiGraph, snapshot: seq<string>, calls: seq<CallRecord>, i: nat, k: nat)
    requires i < k <= |calls|
    requires !Resolves(snapshot, calls[i].callee)
    ensures ExtLabelled(AddCallEdges(g, snapshot, calls[..k]), calls[i].callee)
    decreases k
  {
    if k - 1 == i {
      ExternalNodeMade(g, snapshot, calls, i);
    } else {
      ExternalNodeAfter(g, snapshot, calls, i, k - 1);
      ExternalNodeKept(g, snapshot, calls, k - 1, calls[i].callee);
    }
  }

  /** The unresolved call at index `i` makes its external node. */
  lemma {:induction false} ExternalNodeMade(g: DiGraph, snapshot: seq<string>, calls: seq<CallRecord>, i: nat)
    requires i < |calls|
    requires !Resolves(snapshot, calls[i].callee)
    ensures ExtLabelled(AddCallEdges(g, snapshot, calls[..i + 1]), calls[i].callee)
  {
    CallsStep(g, snapshot, calls, i);
    CallStepExternalNode(AddCallEdges(g, snapshot, calls[..i]), snapshot, calls[i]);
  }

  /** The call at index `j` keeps an existing external node. */
  lemma {:induction false} ExternalNodeKept(g: DiGraph, snapshot: seq<string>, calls: seq<CallRecord>, j: nat, callee: string)
    requires j < |calls|
    requires ExtLabelled(AddCallEdges(g, snapshot, calls[..j]), callee)
    ensures ExtLabelled(AddCallEdges(g, snapshot, calls[..j + 1]), callee)
  {
    CallsStep(g, snapshot, calls, j);
    ExternalNodeStays(AddCallEdges(g, snapshot, calls[..j]), snapshot, calls[j], callee);
  }

  /** `callee`'s external node exists and is labelled with the full hint. */
  ghost predicate ExtLabelled(g: DiGraph, callee: string)
  {
    "ext:" + callee in g.nodes.vals && g.nodes.vals["ext:" + callee] == Attrs(ExternalNode, callee)
  }

  /** No call step relabels an existing external node: a different hint
      touches a different id, and the same hint writes the same data again. */
  lemma {:induction false} ExternalNodeStays(g: DiGraph, snapshot: seq<string>, call: CallRecord, callee: string)
    requires ExtLabelled(g, callee)
    ensures ExtLabelled(AddCallEdge(g, snapshot, call), callee)
  {
    ExternalNameIsInjective(call.callee, callee);
    if call.callee != callee {
      CallStepKeepsNode(g, snapshot, call, "ext:" + callee);
    } else {
      var found := FirstMatch(snapshot, LastComponent(call.callee));
      var r := AddCallEdge(g, snapshot, call);
      if found.Some? && found.value != "" {
        assert r == AddEdge(g, call.caller, found.value, Calls);
      } else {
        CallStepExternalNode(g, snapshot, call);
      }
    }
  }

  /** An external node present before the call phase keeps its data throughout. */
  lemma {:induction false} ExternalNodeStaysAll(g: DiGraph, snapshot: seq<string>, calls: seq<CallRecord>, callee: string)
    requires ExtLabelled(g, callee)
    ensures ExtLabelled(AddCallEdges(g, snapshot, calls), callee)
  {
    if calls != [] {
      var init := calls[..|calls| - 1];
      ExternalNodeStaysAll(g, snapshot, init, callee);
      ExternalNodeStays(AddCallEdges(g, snapshot, init), snapshot, calls[|calls| - 1], callee);
    }
  }

  /** A call step leaves the data of every node other than its own external node alone. */
  lemma {:induction false} CallStepKeepsNode(g: DiGraph, snapshot: seq<string>, call: CallRecord, n: string)
    requires n in g.nodes.vals && n != "ext:" + call.callee
    ensures var r := AddCallEdge(g, snapshot, call);
      n in r.nodes.vals && r.nodes.vals[n] == g.nodes.vals[n]
  {
    var found := FirstMatch(snapshot, LastComponent(call.callee));
    var ext := "ext:" + call.callee;
    var g1 := AddNode(g, ext, ExternalNode, call.callee);
    var target := if found.Some? && found.value != "" then found.value else ext;
    var base := if found.Some? && found.value != "" then g else g1;
    assert n in base.nodes.vals && base.nodes.vals[n] == g.nodes.vals[n];
    assert AddCallEdge(g, snapshot, call) == AddEdge(base, call.caller, target, Calls);
  }

  /** An unresolved call step labels its external node with the full hint. */
  lemma {:induction false} CallStepExternalNode(g: DiGraph, snapshot: seq<string>, call: CallRecord)
    requires !Resolves(snapshot, call.callee)
    ensures ExtLabelled(AddCallEdge(g, snapshot, call), call.callee)
  {
    var found := FirstMatch(snapshot, LastComponent(call.callee));
    assert !(found.Some? && found.value != "");
    var ext := "ext:" + call.callee;
    var g1 := AddNode(g, ext, ExternalNode, call.callee);
    assert ext in g1.nodes.vals && g1.nodes.vals[ext] == Attrs(ExternalNode, call.callee);
    assert AddCallEdge(g, snapshot, call) == AddEdge(g1, call.caller, ext, Calls);
  }

  /** Different hints give different external node ids. */
  lemma ExternalNameIsInjective(a: string, b: string)
    ensures "ext:" + a == "ext:" + b <==> a == b
  {
    if "ext:" + a == "ext:" + b {
      assert a == ("ext:" + a)[4..];
      assert b == ("ext:" + b)[4..];
    }
  }

  /** The scan of a module "m" defining a function "f" and calling `f()` at
      module level. */
  function OwnCallScan(): (pd: ParsedData)
    ensures DictsValid(pd)
  {
    ParsedData(
      ODict(["m"], map["m" := ModuleInfo("m.py")]),
      ODict(["m.f"], map["m.f" := FunctionInfo("f", "m", "")]),
      Empty(), [CallRecord("m", "f")], [])
  }

  lemma ModulesOne(g: DiGraph, m: string)
    ensures AddModuleNodes(g, [m]) == AddNode(g, m, ModuleNode, m)
  {
    assert [m][..0] == [];
  }

  lemma FunctionsOne(g: DiGraph, fs: map<string, FunctionInfo>, k: string)
    requires k in fs
    ensures AddFunctionNodes(g, fs, [k]) == AddEdge(AddNode(g, k, FunctionNode, fs[k].name), Parent(fs[k]), k, Contains)
  {
    assert [k][..0] == [];
  }

  lemma {:induction false} CallsOne(g: DiGraph, snapshot: seq<string>, c: CallRecord)
    ensures AddCallEdges(g, snapshot, [c]) == AddCallEdge(g, snapshot, c)
  {
    assert [c][..0] == [];
  }

  /** Registering one module and then one function of it gives those two
      nodes, in that order, and the `contains` edge between them. */
  lemma ModuleThenFunction(m: string, f: string, info: FunctionInfo)
    requires m != f && Parent(info) == m
    ensures var g := AddFunctionNodes(AddModuleNodes(EmptyGraph(), [m]), map[f := info], [f]);
      && g.nodes.keys == [m, f]
      && g.edges.keys == [(m, f)] && g.edges.vals[(m, f)] == Contains
  {
    var g0 := EmptyGraph();
    ModulesOne(g0, m);
    var g1 := AddNode(g0, m, ModuleNode, m);
    assert g1.nodes.keys == [m] && g1.edges.keys == [] && m in g1.nodes.vals;
    FunctionsOne(g1, map[f := info], f);
    var h := AddNode(g1, f, FunctionNode, info.name);
    assert h.nodes.keys == [m, f] && m in h.nodes.vals && f in h.nodes.vals;
  }

  /** Before calls are resolved, that scan yields the two nodes and the
      `contains` edge between them. */
  lemma OwnCallSnapshot()
    ensures var g := BeforeCalls(EmptyGraph(), OwnCallScan());
      && g.nodes.keys == ["m", "m.f"]
      && g.edges.keys == [("m", "m.f")] && g.edges.vals[("m", "m.f")] == Contains
  {
    var pd := OwnCallScan();
    var g1 := AddModuleNodes(EmptyGraph(), ["m"]);
    assert AddClassNodes(g1, pd.classes.vals, []) == g1;
    var g3 := AddFunctionNodes(g1, pd.functions.vals, ["m.f"]);
    assert AddImportEdges(g3, []) == g3;
    assert BeforeCalls(EmptyGraph(), pd) == g3;
    ModuleThenFunction("m", "m.f", FunctionInfo("f", "m", ""));
  }

  /** A call at module level to a function of the same module replaces the
      module's `contains` edge to that function by a `calls` edge: the graph
      keeps one edge per ordered pair, and the later type wins. */
  lemma ModuleLevelCallReplacesContains()
    ensures Built(OwnCallScan()).edges.keys == [("m", "m.f")]
    ensures Built(OwnCallScan()).edges.vals[("m", "m.f")] == Calls
  {
    var g := BeforeCalls(EmptyGraph(), OwnCallScan());
    var call := CallRecord("m", "f");
    assert Built(OwnCallScan()) == AddCallEdges(g, g.nodes.keys, [call]);
    OwnCallSnapshot();
    OwnCallResolves();
    CallsOne(g, g.nodes.keys, call);
    CallStep(g, g.nodes.keys, call);
  }

  lemma OwnCallFound()
    ensures FirstMatch(["m", "m.f"], "f") == Some("m.f")
  {
    assert !Matches("m", "f");
    assert "m.f"[1..] == "." + "f";
    assert Matches("m.f", "f");
  }

  /** In that scan the call `f()` resolves to the module's own function. */
  lemma OwnCallResolves()
    ensures CallTarget(["m", "m.f"], "f") == "m.f"
  {
    LastComponentOfPlain("f");
    OwnCallFound();
    assert Resolves(["m", "m.f"], "f");
  }

  // ---------------------------------------------------------------------------
  // One more element of a phase's input is one more step of its fold

  lemma {:induction false} ModuleStep(g: DiGraph, mods: seq<string>, i: nat)
    requires i < |mods|
    ensures AddModuleNodes(g, mods[..i + 1]) == AddNode(AddModuleNodes(g, mods[..i]), mods[i], ModuleNode, mods[i])
  {
    assert mods[..i + 1][..i] == mods[..i];
  }

  lemma {:induction false} ClassStep(g: DiGraph, classes: map<string, ClassInfo>, ks: seq<string>, i: nat)
    requires i < |ks| && forall k :: k in ks ==> k in classes
    ensures AddClassNodes(g, classes, ks[..i + 1])
      == AddEdge(AddNode(AddClassNodes(g, classes, ks[..i]), ks[i], ClassNode, classes[ks[i]].name),
                 classes[ks[i]].moduleName, ks[i], Contains)
  {
    assert ks[..i + 1][..i] == ks[..i];
  }

  lemma {:induction false} FunctionStep(g: DiGraph, functions: map<string, FunctionInfo>, ks: seq<string>, i: nat)
    requires i < |ks| && forall k :: k in ks ==> k in functions
    ensures AddFunctionNodes(g, functions, ks[..i + 1])
      == AddEdge(AddNode(AddFunctionNodes(g, functions, ks[..i]), ks[i], FunctionNode, functions[ks[i]].name),
                 Parent(functions[ks[i]]), ks[i], Contains)
  {
    assert ks[..i + 1][..i] == ks[..i];
  }

  lemma {:induction false} ImportStep(g: DiGraph, imports: seq<ImportRecord>, i: nat)
    requires i < |imports|
    ensures var prev := AddImportEdges(g, imports[..i]); var imp := imports[i];
      AddImportEdges(g, imports[..i + 1])
        == if imp.targetModule != "" then
             AddEdge(AddNode(prev, imp.targetModule, ModuleNode, imp.targetModule), imp.sourceModule, imp.targetModule, Imports)
           else prev
  {
    assert imports[..i + 1][..i] == imports[..i];
  }

  lemma {:induction false} CallsStep(g: DiGraph, snapshot: seq<string>, calls: seq<CallRecord>, i: nat)
    requires i < |calls|
    ensures AddCallEdges(g, snapshot, calls[..i + 1]) == AddCallEdge(AddCallEdges(g, snapshot, calls[..i]), snapshot, calls[i])
  {
    assert calls[..i + 1][..i] == calls[..i];
  }

  // ---------------------------------------------------------------------------
  // The builder object

  class GraphBuilder {
    const parsedData: ParsedData
    var graph: DiGraph

    constructor (parsedData: ParsedData)
      ensures this.parsedData == parsedData && graph == EmptyGraph()
    {
      this.parsedData := parsedData;
      graph := EmptyGraph();
    }

    method Build() returns (result: DiGraph)
      requires DictsValid(parsedData)
      modifies this
      ensures result == graph == BuildFrom(old(graph), parsedData)
    {
      AddModules();
      AddClasses();
      AddFunctions();
      AddImports();
      var allNodes := graph.nodes.keys;
      AddCalls(allNodes);
      result := graph;
    }

    /** Registers every module. */
    method AddModules()
      modifies this
      ensures graph == AddModuleNodes(old(graph), parsedData.modules.keys)
    {
      var mods := parsedData.modules.keys;
      ghost var g0 := graph;
      var i := 0;
      while i < |mods|
        invariant 0 <= i <= |mods|
        invariant graph == AddModuleNodes(g0, mods[..i])
      {
        ModuleStep(g0, mods, i);
        graph := AddNode(graph, mods[i], ModuleNode, mods[i]);
        i := i + 1;
      }
      assert mods[..i] == mods;
    }

    /** Registers every class and links it from its module. */
    method AddClasses()
      requires DictsValid(parsedData)
      modifies this
      ensures graph == AddClassNodes(old(graph), parsedData.classes.vals, parsedData.classes.keys)
    {
      var classes := parsedData.classes;
      ghost var g0 := graph;
      var i := 0;
      while i < |classes.keys|
        invariant 0 <= i <= |classes.keys|
        invariant forall k :: k in classes.keys ==> k in classes.vals
        invariant graph == AddClassNodes(g0, classes.vals, classes.keys[..i])
      {
        ClassStep(g0, classes.vals, classes.keys, i);
        var cls := classes.keys[i];
        var data := classes.vals[cls];
        graph := AddNode(graph, cls, ClassNode, data.name);
        graph := AddEdge(graph, data.moduleName, cls, Contains);
        i := i + 1;
      }
      assert classes.keys[..i] == classes.keys;
    }

    /** Registers every function and links it from its class or module. */
    method AddFunctions()
      requires DictsValid(parsedData)
      modifies this
      ensures graph == AddFunctionNodes(old(graph), parsedData.functions.vals, parsedData.functions.keys)
    {
      var functions := parsedData.functions;
      ghost var g0 := graph;
      var i := 0;
      while i < |functions.keys|
        invariant 0 <= i <= |functions.keys|
        invariant forall k :: k in functions.keys ==> k in functions.vals
        invariant graph == AddFunctionNodes(g0, functions.vals, functions.keys[..i])
      {
        FunctionStep(g0, functions.vals, functions.keys, i);
        var func := functions.keys[i];
        var data := functions.vals[func];
        graph := AddNode(graph, func, FunctionNode, data.name);
        graph := AddEdge(graph, Parent(data), func, Contains);
        i := i + 1;
      }
      assert functions.keys[..i] == functions.keys;
    }

    /** Adds the import edges, registering each named target as a module. */
    method AddImports()
      modifies this
      ensures graph == AddImportEdges(old(graph), parsedData.imports)
    {
      var imports := parsedData.imports;
      ghost var g0 := graph;
      var i := 0;
      while i < |imports|
        invariant 0 <= i <= |imports|
        invariant graph == AddImportEdges(g0, imports[..i])
      {
        ImportStep(g0, imports, i);
        var source := imports[i].sourceModule;
        var target := imports[i].targetModule;
        if target != "" {
          graph := AddNode(graph, target, ModuleNode, target);
          graph := AddEdge(graph, source, target, Imports);
        }
        i := i + 1;
      }
      assert imports[..i] == imports;
    }

    /** Adds the call edges, resolving each call against `allNodes`. */
    method AddCalls(allNodes: seq<string>)
      modifies this
      ensures graph == AddCallEdges(old(graph), allNodes, parsedData.calls)
    {
      var calls := parsedData.calls;
      ghost var g0 := graph;
      var i := 0;
      while i < |calls|
        invariant 0 <= i <= |calls|
        invariant graph == AddCallEdges(g0, allNodes, calls[..i])
      {
        CallsStep(g0, allNodes, calls, i);
        var caller := calls[i].caller;
        var calleeGuess := calls[i].callee;
        ghost var prev := graph;
        var targetNode := ResolveCall(allNodes, calleeGuess);
        if targetNode.Some? && targetNode.value != "" {
          graph := AddEdge(graph, caller, targetNode.value, Calls);
        } else {
          var extNode := "ext:" + calleeGuess;
          graph := AddNode(graph, extNode, ExternalNode, calleeGuess);
          graph := AddEdge(graph, caller, extNode, Calls);
        }
        assert graph == AddCallEdge(prev, allNodes, calls[i]);
        i := i + 1;
      }
      assert calls[..i] == calls;
    }
  }
}
