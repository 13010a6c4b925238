/** The impact analysis: from a change description to the set of components
    the change may affect, each with a category and an explanation, plus a
    rendering-neutral snapshot of the whole graph. The analyzer object only
    holds the graph, which it never changes, so here the graph is a parameter
    of each operation. */
module Analyzer {
  import opened Wrappers
  import opened Text
  import opened OrderedDict
  import opened Graph

  // ---------------------------------------------------------------------------
  // Node attributes as the analysis reads them

  function KindName(k: Kind): string
  {
    match k
    case ModuleNode => "module"
    case ClassNode => "class"
    case FunctionNode => "function"
    case ExternalNode => "external"
  }

  function EdgeKindName(k: EdgeKind): string
  {
    match k
    case Contains => "contains"
    case Imports => "imports"
    case Calls => "calls"
  }

  /** `data.get("label", fallback)`. */
  function LabelOr(d: NodeData, fallback: string): string
  {
    if d.Attrs? then d.nodeLabel else fallback
  }

  /** `data.get("type", fallback)`. */
  function TypeOr(d: NodeData, fallback: string): string
  {
    if d.Attrs? then KindName(d.kind) else fallback
  }

  /** The ids among `ks`, in order, whose node data passes `test`. */
  function NodesWhere(g: DiGraph, ks: seq<string>, test: NodeData -> bool): seq<string>
    requires forall k :: k in ks ==> k in g.nodes.vals
  {
    if ks == [] then []
    else
      var k := ks[|ks| - 1];
      var prev := NodesWhere(g, ks[..|ks| - 1], test);
      if test(g.nodes.vals[k]) then prev + [k] else prev
  }

  lemma {:induction false} NodesWhereMembers(g: DiGraph, ks: seq<string>, test: NodeData -> bool)
    requires forall k :: k in ks ==> k in g.nodes.vals
    ensures forall n :: n in NodesWhere(g, ks, test) <==> n in ks && test(g.nodes.vals[n])
    ensures Distinct(ks) ==> Distinct(NodesWhere(g, ks, test))
  {
    if ks != [] {
      var init := ks[..|ks| - 1];
      NodesWhereMembers(g, init, test);
      assert ks == init + [ks[|ks| - 1]];
    }
  }

  /** When some id among `ks` passes `test`, the first id selected is the
      first such id in `ks`. */
  lemma {:induction false} NodesWhereFirst(g: DiGraph, ks: seq<string>, test: NodeData -> bool)
    requires forall k :: k in ks ==> k in g.nodes.vals
    ensures var r := NodesWhere(g, ks, test);
      r != [] ==> exists i :: 0 <= i < |ks| && ks[i] == r[0] && test(g.nodes.vals[ks[i]])
                    && forall j :: 0 <= j < i ==> !test(g.nodes.vals[ks[j]])
  {
    if ks != [] {
      var init := ks[..|ks| - 1];
      var prev := NodesWhere(g, init, test);
      NodesWhereFirst(g, init, test);
      if prev == [] {
        NodesWhereMembers(g, init, test);
        var i := |ks| - 1;
        forall j | 0 <= j < i
          ensures !test(g.nodes.vals[ks[j]])
        {
          assert ks[j] == init[j];
        }
      } else {
        var i :| 0 <= i < |init| && init[i] == prev[0] && test(g.nodes.vals[init[i]])
                 && forall j :: 0 <= j < i ==> !test(g.nodes.vals[init[j]]);
        assert ks[i] == init[i];
        forall j | 0 <= j < i
          ensures !test(g.nodes.vals[ks[j]])
        {
          assert ks[j] == init[j];
        }
      }
    }
  }

  // ---------------------------------------------------------------------------
  // Choosing where the change starts

  /** A node is a seed when its lower-cased label is non-empty, longer than
      three characters (so short generic words do not match) and occurs in
      the lower-cased intent. A node without attributes has the empty label. */
  predicate IsSeed(d: NodeData, intent: string)
  {
    var l := Lower(LabelOr(d, ""));
    l != "" && Text.Contains(Lower(intent), l) && |l| > 3
  }

  function SeedTest(intent: string): NodeData -> bool
  {
    d => IsSeed(d, intent)
  }

  predicate IsModule(d: NodeData)
  {
    TypeOr(d, "") == "module"
  }

  function ModuleTest(): NodeData -> bool
  {
    d => IsModule(d)
  }

  /** The seeds, in node order. */
  function Seeds(g: DiGraph, intent: string): seq<string>
    requires Valid(g.nodes)
  {
    NodesWhere(g, g.nodes.keys, SeedTest(intent))
  }

  /** The module nodes, in node order. */
  function ModuleIds(g: DiGraph): seq<string>
    requires Valid(g.nodes)
  {
    NodesWhere(g, g.nodes.keys, ModuleTest())
  }

  /** Which nodes are seeds, in words: exactly the nodes whose lower-cased
      label is longer than three characters and a substring of the
      lower-cased intent; each is listed once. */
  lemma SeedsAreLabelMatches(g: DiGraph, intent: string)
    requires Valid(g.nodes)
    ensures Distinct(Seeds(g, intent))
    ensures forall n :: n in Seeds(g, intent) <==>
      && n in g.nodes.vals
      && |Lower(LabelOr(g.nodes.vals[n], ""))| > 3
      && HasSubstring(Lower(intent), Lower(LabelOr(g.nodes.vals[n], "")))
  {
    NodesWhereMembers(g, g.nodes.keys, SeedTest(intent));
  }

  /** The fallback start node is the first module node in node order. */
  lemma FallbackIsFirstModule(g: DiGraph)
    requires Valid(g.nodes)
    ensures ModuleIds(g) == [] <==> forall n :: n in g.nodes.vals ==> !IsModule(g.nodes.vals[n])
    ensures ModuleIds(g) != [] ==>
      exists i :: 0 <= i < |g.nodes.keys| && g.nodes.keys[i] == ModuleIds(g)[0]
        && IsModule(g.nodes.vals[g.nodes.keys[i]])
        && forall j :: 0 <= j < i ==> !IsModule(g.nodes.vals[g.nodes.keys[j]])
  {
    NodesWhereMembers(g, g.nodes.keys, ModuleTest());
    NodesWhereFirst(g, g.nodes.keys, ModuleTest());
    if ModuleIds(g) == [] {
      forall n | n in g.nodes.vals
        ensures !IsModule(g.nodes.vals[n])
      {
        assert n in g.nodes.keys;
      }
    }
  }

  /** `_find_start_nodes`. */
  method FindStartNodes(g: DiGraph, intent: string) returns (matched: seq<string>)
    requires Valid(g.nodes)
    ensures matched == Seeds(g, intent)
  {
    var intentLower := Lower(intent);
    matched := [];
    var i := 0;
    while i < |g.nodes.keys|
      invariant 0 <= i <= |g.nodes.keys|
      invariant matched == NodesWhere(g, g.nodes.keys[..i], SeedTest(intent))
    {
      var n := g.nodes.keys[i];
      var lowered := Lower(LabelOr(g.nodes.vals[n], ""));
      if lowered != "" && Text.Contains(intentLower, lowered) && |lowered| > 3 {
        matched := matched + [n];
      }
      assert g.nodes.keys[..i + 1][..i] == g.nodes.keys[..i];
      i := i + 1;
    }
    assert g.nodes.keys[..i] == g.nodes.keys;
  }

  // ---------------------------------------------------------------------------
  // Who depends on what

  /** A chain of edges, each ending where the next begins. */
  ghost predicate IsPath(g: DiGraph, p: seq<string>)
  {
    |p| > 0 && forall i :: 0 <= i < |p| - 1 ==> (p[i], p[i + 1]) in g.edges.vals
  }

  /** `y` depends on `x`, directly, transitively or trivially (`y == x`):
      following edges from `y` leads to `x`. */
  ghost predicate Reaches(g: DiGraph, y: string, x: string)
  {
    exists p :: IsPath(g, p) && p[0] == y && p[|p| - 1] == x
  }

  ghost predicate ReachesAny(g: DiGraph, starts: seq<string>, y: string)
  {
    exists s :: s in starts && Reaches(g, y, s)
  }

  /** The blast radius: every node that depends on some start node. */
  ghost function BlastRadius(g: DiGraph, starts: seq<string>): set<string>
  {
    set y | y in g.nodes.vals.Keys && ReachesAny(g, starts, y)
  }

  /** Every predecessor of a member is a member. */
  ghost predicate ClosedUnderDependents(g: DiGraph, s: set<string>)
  {
    forall e :: e in g.edges.vals && e.1 in s ==> e.0 in s
  }

  lemma ReachesSelf(g: DiGraph, x: string)
    ensures Reaches(g, x, x)
  {
    assert IsPath(g, [x]);
  }

  lemma ReachesThroughEdge(g: DiGraph, u: string, v: string, x: string)
    requires (u, v) in g.edges.vals && Reaches(g, v, x)
    ensures Reaches(g, u, x)
  {
    var p :| IsPath(g, p) && p[0] == v && p[|p| - 1] == x;
    var q := [u] + p;
    assert forall i :: 1 <= i < |q| - 1 ==> q[i] == p[i - 1] && q[i + 1] == p[i];
    assert IsPath(g, q);
  }

  lemma DependentsAreNodes(g: DiGraph, y: string, x: string)
    requires GraphValid(g) && x in g.nodes.vals && Reaches(g, y, x)
    ensures y in g.nodes.vals
  {
    var p :| IsPath(g, p) && p[0] == y && p[|p| - 1] == x;
    if |p| > 1 {
      assert (p[0], p[1]) in g.edges.vals;
    }
  }

  /** A set closed under dependents that holds the end of a path holds its start. */
  lemma {:induction false} ClosedSetHoldsPathStart(g: DiGraph, s: set<string>, p: seq<string>)
    requires IsPath(g, p) && p[|p| - 1] in s && ClosedUnderDependents(g, s)
    ensures p[0] in s
    decreases |p|
  {
    if |p| > 1 {
      var q := p[1..];
      assert IsPath(g, q) by {
        assert forall i :: 0 <= i < |q| ==> q[i] == p[i + 1];
      }
      ClosedSetHoldsPathStart(g, s, q);
      assert (p[0], p[1]) in g.edges.vals;
    }
  }

  /** `nx.descendants(graph.reverse(), x)`, computed by a breadth-first search
      over incoming edges with a visited set: every node other than `x` that
      depends on `x`. Import and call cycles cannot make it loop: each round
      either visits a new node or shortens the worklist. */
  method Descendants(g: DiGraph, x: string) returns (d: set<string>)
    requires GraphValid(g) && x in g.nodes.vals
    ensures forall y :: y in d <==> y != x && Reaches(g, y, x)
  {
    ghost var nodeSet := g.nodes.vals.Keys;
    var visited := {x};
    var worklist := [x];
    ReachesSelf(g, x);
    while worklist != []
      invariant visited <= nodeSet && x in visited
      invariant forall w :: w in worklist ==> w in visited
      invariant forall w :: w in visited ==> Reaches(g, w, x)
      invariant forall w, e :: w in visited && w !in worklist && e in g.edges.vals && e.1 == w ==> e.0 in visited
      decreases nodeSet - visited, |worklist|
    {
      var v := worklist[0];
      ghost var visited0 := visited;
      ghost var rest := worklist[1..];
      worklist := worklist[1..];
      var j := 0;
      while j < |g.edges.keys|
        invariant 0 <= j <= |g.edges.keys|
        invariant visited0 <= visited <= nodeSet
        invariant forall w :: w in rest ==> w in worklist
        invariant forall w :: w in worklist ==> w in visited
        invariant forall w :: w in visited ==> Reaches(g, w, x)
        invariant forall w :: w in visited && w !in visited0 ==> w in worklist
        invariant forall w, e :: w in visited0 && w !in rest && w != v && e in g.edges.vals && e.1 == w ==> e.0 in visited
        invariant forall k :: 0 <= k < j && g.edges.keys[k].1 == v ==> g.edges.keys[k].0 in visited
        invariant visited == visited0 ==> worklist == rest
      {
        var (u, w) := g.edges.keys[j];
        if w == v && u !in visited {
          ReachesThroughEdge(g, u, v, x);
          visited := visited + {u};
          worklist := worklist + [u];
        }
        j := j + 1;
      }
      forall e | e in g.edges.vals && e.1 == v
        ensures e.0 in visited
      {
        var k :| 0 <= k < |g.edges.keys| && g.edges.keys[k] == e;
      }
      if visited != visited0 {
        assert nodeSet - visited < nodeSet - visited0;
      }
    }
    d := visited - {x};
    forall y | y != x && Reaches(g, y, x)
      ensures y in d
    {
      var p :| IsPath(g, p) && p[0] == y && p[|p| - 1] == x;
      ClosedSetHoldsPathStart(g, visited, p);
    }
  }

  /** The impacted set: each start node together with its descendants in the
      reversed graph. */
  method ImpactedNodes(g: DiGraph, starts: seq<string>) returns (impacted: set<string>)
    requires GraphValid(g) && forall s :: s in starts ==> s in g.nodes.vals
    ensures impacted == BlastRadius(g, starts)
  {
    impacted := {};
    var i := 0;
    while i < |starts|
      invariant 0 <= i <= |starts|
      invariant forall y :: y in impacted <==> y in g.nodes.vals && ReachesAny(g, starts[..i], y)
    {
      var node := starts[i];
      var reachable := Descendants(g, node);
      ReachesSelf(g, node);
      forall y | y in reachable
        ensures y in g.nodes.vals
      {
        DependentsAreNodes(g, y, node);
      }
      impacted := impacted + {node} + reachable;
      assert starts[..i + 1] == starts[..i] + [node];
      i := i + 1;
    }
    assert starts[..i] == starts;
  }

  /** Every start node is impacted. */
  lemma StartNodesAreImpacted(g: DiGraph, starts: seq<string>)
    requires forall s :: s in starts ==> s in g.nodes.vals
    ensures forall s :: s in starts ==> s in BlastRadius(g, starts)
  {
    forall s | s in starts
      ensures s in BlastRadius(g, starts)
    {
      ReachesSelf(g, s);
    }
  }

  /** Whatever has an edge into an impacted node is impacted. */
  lemma BlastRadiusIsClosed(g: DiGraph, starts: seq<string>)
    requires GraphValid(g)
    ensures ClosedUnderDependents(g, BlastRadius(g, starts))
  {
    forall e | e in g.edges.vals && e.1 in BlastRadius(g, starts)
      ensures e.0 in BlastRadius(g, starts)
    {
      var s :| s in starts && Reaches(g, e.1, s);
      ReachesThroughEdge(g, e.0, e.1, s);
    }
  }

  /** Nothing else is impacted: any set of nodes that holds the start nodes
      and is closed under dependents holds the whole blast radius. */
  lemma BlastRadiusIsLeast(g: DiGraph, starts: seq<string>, s: set<string>)
    requires forall x :: x in starts ==> x in s
    requires ClosedUnderDependents(g, s)
    ensures BlastRadius(g, starts) <= s
  {
    forall y | y in BlastRadius(g, starts)
      ensures y in s
    {
      var x :| x in starts && Reaches(g, y, x);
      var p :| IsPath(g, p) && p[0] == y && p[|p| - 1] == x;
      ClosedSetHoldsPathStart(g, s, p);
    }
  }

  // ---------------------------------------------------------------------------
  // Classification and explanations

  datatype Category = ApiContract | DataHandling | BusinessLogic | General

  function CategoryName(c: Category): string
  {
    match c
    case ApiContract => "API Contract"
    case DataHandling => "Data Handling"
    case BusinessLogic => "Business Logic"
    case General => "General"
  }

  /** The lower-cased id contains `word`. */
  ghost predicate Mentions(id: string, word: string)
  {
    HasSubstring(Lower(id), word)
  }

  /** `_classify_impact`: the first rule that applies wins. */
  function Classify(id: string, d: NodeData): (c: Category)
    ensures c == ApiContract <==> Mentions(id, "api") || Mentions(id, "app")
    ensures c == DataHandling <==>
      !(Mentions(id, "api") || Mentions(id, "app"))
      && (Mentions(id, "db") || Mentions(id, "data") || Mentions(id, "connector"))
    ensures c == BusinessLogic <==>
      !(Mentions(id, "api") || Mentions(id, "app"))
      && !(Mentions(id, "db") || Mentions(id, "data") || Mentions(id, "connector"))
      && (TypeOr(d, "") == "function" || Mentions(id, "service"))
  {
    var l := Lower(id);
    if Text.Contains(l, "api") || Text.Contains(l, "app") then ApiContract
    else if Text.Contains(l, "db") || Text.Contains(l, "data") || Text.Contains(l, "connector") then DataHandling
    else if TypeOr(d, "") == "function" || Text.Contains(l, "service") then BusinessLogic
    else General
  }

  const DirectExplanation := "Directly modified " + "component as per change intent."

  /** The text before the quoted node id in an indirect explanation. */
  function Lead(c: Category): string
  {
    match c
    case ApiContract => "Downstream layer "
    case DataHandling => "Data model or query execution in "
    case BusinessLogic => "Execution flow or state in "
    case General => "Trigged indirect dependency " + "recalculation for "
  }

  /** The text after the quoted node id in an indirect explanation. */
  function Tail(c: Category): string
  {
    match c
    case ApiContract => " relies on modified component. May break external API consumers."
    case DataHandling => " might be affected by upstream schema or logic changes."
    case BusinessLogic => " depends on modified logic. Requires regression testing."
    case General => "."
  }

  /** The second character of each opening tells the categories, and the
      direct message, apart. */
  lemma LeadShape(c: Category)
    ensures |Lead(c)| >= 2
    ensures Lead(c)[1] ==
      match c case ApiContract => 'o' case DataHandling => 'a' case BusinessLogic => 'x' case General => 'r'
  {
  }

  lemma QuotedIdOccurs(lead: string, id: string, tail: string)
    ensures OccursAt(lead + "'" + id + "'" + tail, "'" + id + "'", |lead|)
  {
    var r := lead + "'" + id + "'" + tail;
    var needle := "'" + id + "'";
    assert r[|lead|..|lead| + |needle|] == needle by {
      forall k | 0 <= k < |needle|
        ensures r[|lead| + k] == needle[k]
      {
        if 0 < k <= |id| {
          assert r[|lead| + k] == id[k - 1];
        }
      }
    }
  }

  /** `_generate_explanation`. The intent is not used by it. */
  function Explanation(id: string, c: Category, intent: string, isDirect: bool): (r: string)
    ensures isDirect ==> r == DirectExplanation
    ensures !isDirect ==> HasSubstring(r, "'" + id + "'")
  {
    if isDirect then DirectExplanation
    else
      QuotedIdOccurs(Lead(c), id, Tail(c));
      Lead(c) + "'" + id + "'" + Tail(c)
  }

  lemma QuotedIdIsRecoverable(lead: string, id1: string, id2: string, tail: string)
    requires lead + "'" + id1 + "'" + tail == lead + "'" + id2 + "'" + tail
    ensures id1 == id2
  {
    var r := lead + "'" + id1 + "'" + tail;
    assert id1 == r[|lead| + 1..|lead| + 1 + |id1|];
    assert id2 == (lead + "'" + id2 + "'" + tail)[|lead| + 1..|lead| + 1 + |id2|];
  }

  /** An indirect explanation never reads as the direct one. */
  lemma IndirectIsNotDirect(id: string, c: Category, intent: string)
    ensures Explanation(id, c, intent, false) != DirectExplanation
  {
    var r := Explanation(id, c, intent, false);
    LeadShape(c);
    assert r[1] == Lead(c)[1];
    assert DirectExplanation[1] == 'i';
  }

  lemma LeadsDiffer(c1: Category, c2: Category)
    requires |Lead(c1)| >= 2 && |Lead(c2)| >= 2 && Lead(c1)[1] == Lead(c2)[1]
    ensures c1 == c2
  {
    LeadShape(c1);
    LeadShape(c2);
  }

  lemma ExplanationSecondChar(id: string, c: Category, intent: string)
    ensures |Lead(c)| >= 2 && Explanation(id, c, intent, false)[1] == Lead(c)[1]
  {
    LeadShape(c);
  }

  /** An indirect explanation names its node and category unambiguously. */
  lemma ExplanationIsDecodable(id1: string, c1: Category, id2: string, c2: Category, intent: string)
    requires Explanation(id1, c1, intent, false) == Explanation(id2, c2, intent, false)
    ensures c1 == c2 && id1 == id2
  {
    ExplanationSecondChar(id1, c1, intent);
    ExplanationSecondChar(id2, c2, intent);
    LeadsDiffer(c1, c2);
    QuotedIdIsRecoverable(Lead(c1), id1, id2, Tail(c1));
  }

  // ---------------------------------------------------------------------------
  // The report

  datatype Impact = Impact(
    id: string,
    nodeLabel: string,
    typeName: string,
    isDirect: bool,
    category: Category,
    explanation: string)

  /** The record for impacted node `n`: its label and type (falling back to
      the id and "unknown" for a node without attributes), whether it is a
      start node, and an explanation that is the fixed message for a start
      node and otherwise quotes the node id. */
  function ImpactOf(g: DiGraph, n: string, starts: seq<string>, intent: string): (r: Impact)
    requires n in g.nodes.vals
    ensures r.id == n
    ensures r.isDirect <==> n in starts
    ensures r.isDirect ==> r.explanation == DirectExplanation
    ensures !r.isDirect ==> HasSubstring(r.explanation, "'" + n + "'")
    ensures g.nodes.vals[n].Attrs? ==> r.nodeLabel == g.nodes.vals[n].nodeLabel && r.typeName == KindName(g.nodes.vals[n].kind)
    ensures g.nodes.vals[n].Bare? ==> r.nodeLabel == n && r.typeName == "unknown"
    ensures r.category == Classify(n, g.nodes.vals[n])
    ensures r.explanation == Explanation(n, r.category, intent, r.isDirect)
  {
    var d := g.nodes.vals[n];
    var isDirect := n in starts;
    var c := Classify(n, d);
    Impact(n, LabelOr(d, n), TypeOr(d, "unknown"), isDirect, c, Explanation(n, c, intent, isDirect))
  }

  /** One record per impacted node, each as `ImpactOf` describes it. */
  ghost predicate IsImpactList(rs: seq<Impact>, g: DiGraph, impacted: set<string>, starts: seq<string>, intent: string)
  {
    && |rs| == |impacted|
    && (forall y :: y in impacted <==> exists i :: 0 <= i < |rs| && rs[i].id == y)
    && (forall i, j :: 0 <= i < j < |rs| ==> rs[i].id != rs[j].id)
    && (forall i :: 0 <= i < |rs| ==> IsRecordOf(rs[i], g, starts, intent))
  }

  /** The records built so far cover the impacted nodes not in `remaining`,
      each once, and each is the record `ImpactOf` gives. */
  ghost predicate PartialImpactList(rs: seq<Impact>, remaining: set<string>, g: DiGraph, impacted: set<string>,
                                    starts: seq<string>, intent: string)
  {
    IdsCover(rs, remaining, impacted) && RecordsOf(rs, g, starts, intent)
  }

  /** The ids of `rs` are distinct and are exactly the members of `impacted`
      not in `remaining`. */
  ghost predicate IdsCover(rs: seq<Impact>, remaining: set<string>, impacted: set<string>)
  {
    && remaining <= impacted
    && |rs| + |remaining| == |impacted|
    && (forall y :: y in impacted <==> y in remaining || exists i :: 0 <= i < |rs| && rs[i].id == y)
    && (forall i :: 0 <= i < |rs| ==> rs[i].id in impacted && rs[i].id !in remaining)
    && (forall i, j :: 0 <= i < j < |rs| ==> rs[i].id != rs[j].id)
  }

  ghost predicate RecordsOf(rs: seq<Impact>, g: DiGraph, starts: seq<string>, intent: string)
  {
    forall i :: 0 <= i < |rs| ==> IsRecordOf(rs[i], g, starts, intent)
  }

  /** `r` is the record the analysis builds for the node it names. */
  ghost predicate IsRecordOf(r: Impact, g: DiGraph, starts: seq<string>, intent: string)
  {
    r.id in g.nodes.vals && r == ImpactOf(g, r.id, starts, intent)
  }

  lemma AppendImpact(rs: seq<Impact>, remaining: set<string>, g: DiGraph, impacted: set<string>,
                     starts: seq<string>, intent: string, n: string)
    requires PartialImpactList(rs, remaining, g, impacted, starts, intent)
    requires n in remaining && n in g.nodes.vals
    ensures PartialImpactList(rs + [ImpactOf(g, n, starts, intent)], remaining - {n}, g, impacted, starts, intent)
  {
    var x := ImpactOf(g, n, starts, intent);
    AppendId(rs, remaining, impacted, x);
    var rs' := rs + [x];
    assert IsRecordOf(x, g, starts, intent);
    forall i | 0 <= i < |rs'|
      ensures IsRecordOf(rs'[i], g, starts, intent)
    {
      if i < |rs| {
        assert rs'[i] == rs[i];
      }
    }
  }

  /** Moving one id from `remaining` to a new last record keeps the cover. */
  lemma AppendId(rs: seq<Impact>, remaining: set<string>, impacted: set<string>, x: Impact)
    requires IdsCover(rs, remaining, impacted)
    requires x.id in remaining
    ensures IdsCover(rs + [x], remaining - {x.id}, impacted)
  {
    var n := x.id;
    var rs' := rs + [x];
    assert forall i :: 0 <= i < |rs| ==> rs'[i] == rs[i];
    assert rs'[|rs|].id == n;
    forall i, j | 0 <= i < j < |rs'|
      ensures rs'[i].id != rs'[j].id
    {
      if j == |rs| {
        assert rs[i].id !in remaining;
      } else {
        assert rs[i].id != rs[j].id;
      }
    }
    forall y | y in impacted
      ensures y in remaining - {n} || exists i :: 0 <= i < |rs'| && rs'[i].id == y
    {
      if y == n {
        assert rs'[|rs|].id == y;
      } else if y !in remaining {
        var i :| 0 <= i < |rs| && rs[i].id == y;
        assert rs'[i].id == y;
      }
    }
    assert |remaining - {n}| == |remaining| - 1;
  }

  /** The result list, built by iterating over the impacted set in an
      unspecified order. */
  method ImpactRecords(g: DiGraph, impacted: set<string>, starts: seq<string>, intent: string)
    returns (results: seq<Impact>)
    requires impacted <= g.nodes.vals.Keys
    ensures IsImpactList(results, g, impacted, starts, intent)
  {
    results := [];
    var remaining := impacted;
    while remaining != {}
      invariant PartialImpactList(results, remaining, g, impacted, starts, intent)
      decreases remaining
    {
      var n :| n in remaining;
      AppendImpact(results, remaining, g, impacted, starts, intent, n);
      results := results + [ImpactOf(g, n, starts, intent)];
      remaining := remaining - {n};
    }
  }

  // ---------------------------------------------------------------------------
  // The visualisation snapshot

  datatype Element =
    | NodeElement(id: string, nodeLabel: string, typeName: string, highlighted: bool)
    | EdgeElement(id: string, source: string, target: string, edgeLabel: string)

  function NodeElementOf(g: DiGraph, n: string, highlight: set<string>): Element
    requires n in g.nodes.vals
  {
    var d := g.nodes.vals[n];
    NodeElement(n, LabelOr(d, n), TypeOr(d, "unknown"), n in highlight)
  }

  /** An edge element has id "u-v-type", endpoints u and v, and its type as label. */
  function EdgeElementOf(g: DiGraph, e: Edge): Element
    requires e in g.edges.vals
  {
    var t := EdgeKindName(g.edges.vals[e]);
    EdgeElement(e.0 + "-" + e.1 + "-" + t, e.0, e.1, t)
  }

  /** The edges leaving `n`, in the order they were first added. */
  function OutEdges(n: string, es: seq<Edge>): (r: seq<Edge>)
    ensures forall e :: e in r ==> e in es && e.0 == n
  {
    if es == [] then []
    else if es[0].0 == n then [es[0]] + OutEdges(n, es[1..])
    else OutEdges(n, es[1..])
  }

  /** networkx's edge iteration order: grouped by source node, in node order. */
  function EdgesBySource(ns: seq<string>, es: seq<Edge>): (r: seq<Edge>)
    ensures forall e :: e in r ==> e in es && e.0 in ns
  {
    if ns == [] then []
    else OutEdges(ns[0], es) + EdgesBySource(ns[1..], es)
  }

  function EdgeView(g: DiGraph): seq<Edge>
  {
    EdgesBySource(g.nodes.keys, g.edges.keys)
  }

  /** The edges of `es` whose source is in `s`, in order. */
  function EdgesFrom(es: seq<Edge>, s: set<string>): seq<Edge>
  {
    if es == [] then []
    else if es[0].0 in s then [es[0]] + EdgesFrom(es[1..], s)
    else EdgesFrom(es[1..], s)
  }

  lemma {:induction false} EdgesFromAddSource(es: seq<Edge>, n: string, s: set<string>)
    requires n !in s
    ensures multiset(EdgesFrom(es, s + {n})) == multiset(OutEdges(n, es)) + multiset(EdgesFrom(es, s))
  {
    if es != [] {
      EdgesFromAddSource(es[1..], n, s);
      assert es == [es[0]] + es[1..];
    }
  }

  lemma {:induction false} EdgesBySourceAsFilter(ns: seq<string>, es: seq<Edge>)
    requires Distinct(ns)
    ensures multiset(EdgesBySource(ns, es)) == multiset(EdgesFrom(es, set n | n in ns))
  {
    if ns == [] {
      assert (set n | n in ns) == {};
      EdgesFromNone(es);
    } else {
      var rest := ns[1..];
      assert Distinct(rest) by {
        assert forall i, j :: 0 <= i < j < |rest| ==> rest[i] == ns[i + 1] && rest[j] == ns[j + 1];
      }
      EdgesBySourceAsFilter(rest, es);
      assert ns[0] !in rest by {
        assert forall k :: 0 <= k < |rest| ==> rest[k] == ns[k + 1];
      }
      assert (set n | n in ns) == (set n | n in rest) + {ns[0]} by {
        assert ns == [ns[0]] + rest;
      }
      EdgesFromAddSource(es, ns[0], set n | n in rest);
    }
  }

  lemma {:induction false} EdgesFromNone(es: seq<Edge>)
    ensures EdgesFrom(es, {}) == []
  {
    if es != [] {
      EdgesFromNone(es[1..]);
    }
  }

  lemma {:induction false} EdgesFromAll(es: seq<Edge>, s: set<string>)
    requires forall e :: e in es ==> e.0 in s
    ensures EdgesFrom(es, s) == es
  {
    if es != [] {
      EdgesFromAll(es[1..], s);
      assert es == [es[0]] + es[1..];
    }
  }

  /** The snapshot lists every edge exactly once. */
  lemma EdgeViewListsEachEdgeOnce(g: DiGraph)
    requires GraphValid(g)
    ensures multiset(EdgeView(g)) == multiset(g.edges.keys)
  {
    EdgesBySourceAsFilter(g.nodes.keys, g.edges.keys);
    EdgesFromAll(g.edges.keys, set n | n in g.nodes.keys);
  }

  /** One element per node, in node order, highlighted exactly when it is in
      `highlight`; then one element per edge in the edge view's order. */
  ghost predicate DescribesGraph(els: seq<Element>, g: DiGraph, highlight: set<string>)
    requires GraphValid(g)
  {
    && |els| == |g.nodes.keys| + |EdgeView(g)|
    && (forall i :: 0 <= i < |g.nodes.keys| ==> els[i] == NodeElementOf(g, g.nodes.keys[i], highlight))
    && (forall j :: 0 <= j < |EdgeView(g)| ==> els[|g.nodes.keys| + j] == EdgeElementOf(g, EdgeView(g)[j]))
  }

  /** The node loop of `_get_cytoscape_data`: one element per node, in node order. */
  method NodeElements(g: DiGraph, highlight: set<string>) returns (els: seq<Element>)
    requires GraphValid(g)
    ensures |els| == |g.nodes.keys|
    ensures forall k :: 0 <= k < |g.nodes.keys| ==> els[k] == NodeElementOf(g, g.nodes.keys[k], highlight)
  {
    els := [];
    var ns := g.nodes.keys;
    var i := 0;
    while i < |ns|
      invariant 0 <= i <= |ns|
      invariant |els| == i
      invariant forall k :: 0 <= k < i ==> els[k] == NodeElementOf(g, ns[k], highlight)
    {
      var n := ns[i];
      var d := g.nodes.vals[n];
      els := els + [NodeElement(n, LabelOr(d, n), TypeOr(d, "unknown"), n in highlight)];
      i := i + 1;
    }
  }

  /** The edge loop of `_get_cytoscape_data`: one element per edge, in the edge view's order. */
  method EdgeElements(g: DiGraph) returns (els: seq<Element>)
    requires GraphValid(g)
    ensures |els| == |EdgeView(g)|
    ensures forall k :: 0 <= k < |EdgeView(g)| ==> els[k] == EdgeElementOf(g, EdgeView(g)[k])
  {
    els := [];
    var es := EdgeView(g);
    var j := 0;
    while j < |es|
      invariant 0 <= j <= |es|
      invariant |els| == j
      invariant forall k :: 0 <= k < j ==> els[k] == EdgeElementOf(g, es[k])
    {
      var (u, v) := es[j];
      var t := EdgeKindName(g.edges.vals[(u, v)]);
      els := els + [EdgeElement(u + "-" + v + "-" + t, u, v, t)];
      j := j + 1;
    }
  }

  /** `_get_cytoscape_data`: the node elements followed by the edge elements. */
  method CytoscapeData(g: DiGraph, highlight: set<string>) returns (els: seq<Element>)
    requires GraphValid(g)
    ensures DescribesGraph(els, g, highlight)
  {
    var nodeEls := NodeElements(g, highlight);
    var edgeEls := EdgeElements(g);
    els := nodeEls + edgeEls;
  }

  // ---------------------------------------------------------------------------
  // The whole analysis

  datatype Report = Report(
    intent: string,
    startNodes: seq<string>,
    impacts: seq<Impact>,
    graphData: seq<Element>)

  const NoStartNode := "Could not identify starting node from intent."

  /** `analyze`: seeds (or, failing that, the first module), the nodes that
      depend on them, a record per such node, and the highlighted snapshot. */
  method Analyze(g: DiGraph, changeIntent: string) returns (r: Result<Report>)
    requires GraphValid(g)
    ensures r.Err? <==> Seeds(g, changeIntent) == [] && ModuleIds(g) == []
    ensures r.Err? ==> r.error == NoStartNode
    ensures r.Ok? ==>
      && r.value.intent == changeIntent
      && r.value.startNodes == (if Seeds(g, changeIntent) != [] then Seeds(g, changeIntent) else [ModuleIds(g)[0]])
      && IsImpactList(r.value.impacts, g, BlastRadius(g, r.value.startNodes), r.value.startNodes, changeIntent)
      && DescribesGraph(r.value.graphData, g, BlastRadius(g, r.value.startNodes))
  {
    var startNodes := FindStartNodes(g, changeIntent);
    NodesWhereMembers(g, g.nodes.keys, SeedTest(changeIntent));
    if startNodes == [] {
      var modules := ModuleIds(g);
      NodesWhereMembers(g, g.nodes.keys, ModuleTest());
      if modules != [] {
        startNodes := [modules[0]];
      } else {
        return Err(NoStartNode);
      }
    }
    var impacted := ImpactedNodes(g, startNodes);
    var results := ImpactRecords(g, impacted, startNodes, changeIntent);
    var graphData := CytoscapeData(g, impacted);
    return Ok(Report(changeIntent, startNodes, results, graphData));
  }
}
