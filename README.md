# blast-radius, modelled in Dafny

blast-radius estimates which parts of a Python code base a change may affect.
The pipeline has three stages:

1. **Scanning** (`CodeParser`, `CodeVisitor`). Every `.py` file becomes a
   module. The visitor walks the file's syntax tree and records:
   - classes, with id `module.Class`;
   - functions, with id `Class-id.name` inside a class, otherwise `module.name`;
   - imports;
   - calls, each attributed to the innermost enclosing function, else the
     class, else the module.
2. **Graph assembly** (`GraphBuilder.build`). The records become a directed
   graph with at most one edge per ordered pair:
   - module, class and function nodes;
   - `contains` edges from a module to its classes, and from a class or
     module to its functions;
   - `imports` edges;
   - `calls` edges. Each call is resolved to the first node, in registration
     order, whose id ends with `.name` or equals `name`, where `name` is the
     last dotted part of the call text. When nothing matches, the target is a
     synthesised `ext:` node.
3. **Impact analysis** (`BlastAnalyzer.analyze`). It works in four steps:
   - Seeds are the nodes whose lower-cased label is longer than three
     characters and occurs in the lower-cased change description. The first
     module is the fallback seed.
   - The impacted set is every node from which a seed can be reached along
     edges.
   - Each impacted node gets a category and an explanation.
   - A snapshot of the whole graph is produced for display.

The model is organised like the program:
- `pyast.dfy`: the syntax tree the scanner reads.
- `parser.dfy`: the visitor as a class whose fields are updated in place, and
  the scanner object. Each is specified against a pure walk over the tree.
- `graph.dfy`: the graph as a value and the builder as a class. Each build
  phase is a loop specified by a fold.
- `analyzer.dfy`: the analysis.
- Support files:
  - `ordered_dict.dfy` models Python's insertion-ordered `dict`. Node
    registration order decides call resolution, so the order matters.
  - `text.dfy` holds the string operations.
  - `wrappers.dfy` holds `Option` and `Result`.

The analyzer object only holds the graph and never changes it, so its
operations take the graph as a parameter.

## Model

| member | source | states |
|---|---|---|
| Text.Contains | analyzer.py:72 | The substring test `needle in hay` is true exactly when some window of `hay` equals `needle`. |
| Text.LastDot | graph_builder.py:45-46 | The position found holds a dot, and no dot follows it before the end; -1 means the text has no dot. |
| Text.LastComponent | graph_builder.py:45-46 | `split('.')[-1]` is a suffix of the input with no dot in it. When it is shorter than the input, the character before it is a dot. Together these fix its value. |
| Text.LastComponentOfQualified | graph_builder.py:45-46 | The last component of `prefix.name` is `name`. |
| Text.LastComponentOfPlain | graph_builder.py:45-46 | A dotless name is its own last component. |
| OrderedDict.Put | graph_builder.py:11 | Assigning a key sets its value. An existing key keeps its position; a new key goes last. Keys stay distinct and match the map's domain. |
| OrderedDict.PutAll | parser.py:47 | Storing several entries gives each key its new value and keeps the others. Only keys not already present are appended, in order. |
| OrderedDict.Update | parser.py:47-49 | `dict.update`: the values are the right-biased union. The key order is the old order followed by the new keys in the argument's order. |
| OrderedDict.PutSeq | parser.py:91-94 | A run of item assignments keeps the keys distinct. Afterwards the keys are the old keys plus every assigned key. Keys not present before are appended in order of first assignment. |
| OrderedDict.PutSeqLastWins | parser.py:103-107 | After a run of assignments, a key holds the value of its last assignment. |
| OrderedDict.PutSeqKeepsOthers | parser.py:103-107 | A key that no assignment names keeps its old value. |
| OrderedDict.PutSeqAppend | parser.py:98 | Making two runs of assignments one after the other is making their concatenation. |
| OrderedDict.UpdateOfPutSeq | parser.py:47-49 | Filling a fresh dictionary by assignments and then merging it with `update` gives the same values and key order as making those assignments on the target directly. |
| Parser.ModuleName | parser.py:32-36 | The module name is the relative path with each separator replaced by a dot and a trailing `.py` removed. It never contains a separator. |
| Parser.CalleeHint | parser.py:117-126 | A call is recorded only for a `Name` or `Attribute` callee, and never with an empty hint. A `Name` gives its id. An attribute on a plain name `x` gives `x.attr`; an attribute on anything else gives the bare attribute name. |
| Parser.HintKeyIsCalledName | parser.py:120-124 | For an attribute call, the last dotted component of the hint is the attribute name. |
| Parser.WalkRestoresScope | parser.py:96-99 | After any subtree is visited, the current class and current function are what they were before, so scope changes never leak to siblings. |
| Parser.GenericWalkRestoresScope | parser.py:98 | The same holds for visiting only a node's children. |
| Parser.WalkAllRestoresScope | parser.py:98 | The same holds for a sequence of siblings. |
| Parser.WalkRecordsLexically | parser.py:114-133 | The calls a walk records are exactly the calls the tree holds, in source order, each attributed to its innermost enclosing function, else class, else module (`CallsIn`). The imports recorded are exactly those the tree holds (`ImportsIn`). |
| Parser.GenericWalkRecordsLexically | parser.py:76 | The same holds for visiting only a node's children. |
| Parser.WalkAllRecordsLexically | parser.py:76 | The same holds for a sequence of siblings. |
| Parser.WalkDeclaresLexically | parser.py:89-112 | The class and function dictionaries a walk leaves are the ones it started with, with every declaration in the tree assigned in source pre-order (`ClassDeclsIn`, `FunctionDeclsIn`). A class gets `module.name`; a function gets its naming-rule id and the innermost enclosing class. A repeated id keeps its first position and takes its last value. |
| Parser.GenericWalkDeclaresLexically | parser.py:98 | The same holds for visiting only a node's children. |
| Parser.WalkAllDeclaresLexically | parser.py:111 | The same holds for a sequence of siblings. |
| Parser.InitialStateInv | parser.py:59-67 | A fresh visitor satisfies the visitor invariant. |
| Parser.WalkKeepsInv | parser.py:89-112 | The walk keeps the visitor invariant and never forgets a recorded class or function. Invariant: class ids are `module.name`; function ids follow the naming rule and name a recorded class; callers are recorded symbols; imports come from the module. |
| Parser.GenericWalkKeepsInv | parser.py:98 | The same holds for visiting only a node's children. |
| Parser.WalkAllKeepsInv | parser.py:98 | The same holds for a sequence of siblings. |
| Parser.NestedFunctionTakesClassPrefix | parser.py:102 | In module `m`, a function `g` nested in a method `f` of class `C` gets id `m.C.g` and class `m.C`. A call inside it is attributed to `m.C.g`. |
| Parser.CodeVisitor.constructor | parser.py:59-67 | A new visitor is at module scope with nothing recorded. |
| Parser.CodeVisitor.Visit | parser.py:69-133 | Visiting a node changes the visitor's state exactly as the walk specification does. |
| Parser.CodeVisitor.VisitImport | parser.py:69-76 | One import record per alias, in order, then the children are visited. |
| Parser.CodeVisitor.VisitImportFrom | parser.py:78-87 | One record per alias, with the `from` module. The target is empty only when the statement names no module (`from . import x`); `from .pkg import x` gives `pkg`. |
| Parser.CodeVisitor.VisitClassDef | parser.py:89-99 | Records the class under `module.name`. It visits the body in class scope and restores the previous class. |
| Parser.CodeVisitor.VisitFunctionDef | parser.py:101-112 | Records the function under its qualified id. It visits the body in function scope and restores the previous function. |
| Parser.CodeVisitor.VisitCall | parser.py:114-133 | Records a call with the current caller when there is a hint, then visits the callee expression and the arguments. |
| Parser.CodeVisitor.GenericVisit | parser.py:76 | Visits the children in order. |
| Parser.CodeVisitor.VisitEach | parser.py:76 | Visits a sequence of siblings in order. |
| Parser.MergeFile | parser.py:25-56 | A file that fails to parse changes nothing. Otherwise its module is assigned its path, keeping its position if already present and going last if new. The classes and functions are the old ones with the file's declarations assigned in source order (`update` semantics, checked against the reference definitions). Its calls and imports are appended in source order. |
| Parser.ParseFiles | parser.py:17-23 | Scanning a file list keeps each recorded dictionary's keys distinct and equal to its entries. |
| Parser.ParseFilesAccumulates | parser.py:17-53 | A scan accumulates the scanned files in order. Module entries and declarations are assigned file by file, so a later file overwrites an earlier entry for the same id. Calls and imports are appended file by file, each file's in source order. |
| Parser.ParseFilesSkips | parser.py:20-22 | A file whose name does not end in `.py`, or that fails to parse, leaves the scan's records unchanged. |
| Parser.MergeFileWellFormed | parser.py:38-53 | Merging a file keeps the scan well formed: every class and function names a recorded module (and class) and carries its naming-rule id; callers and import sources are recorded symbols. |
| Parser.ParseFilesWellFormed | parser.py:17-23 | A scan of any file list is well formed. |
| Parser.CodeParser.constructor | parser.py:7-15 | A new scanner holds empty records. |
| Parser.CodeParser.ParseFile | parser.py:25-56 | Parsing one file updates the records exactly as `MergeFile` specifies. |
| Parser.CodeParser.Parse | parser.py:17-23 | Only files whose names end in `.py` are merged, in walk order, and the records are returned. |
| Graph.EmptyGraph | graph_builder.py:6 | A new graph has no nodes and no edges. |
| Graph.AddNode | graph_builder.py:11 | `add_node` sets a node's type and label. An existing node keeps its place. Edges are unchanged. |
| Graph.AddEdge | graph_builder.py:17 | `add_edge` sets the type of the pair, overwriting an earlier type. A missing endpoint is appended to the node order, source first, as a node without attributes. Existing node data is untouched, and no edge dangles. |
| Graph.FirstMatchFromIsFirst | graph_builder.py:48-51 | Searching from a position finds nothing exactly when no later node matches. Otherwise it returns the first match at or after that position. |
| Graph.FirstMatchIsFirst | graph_builder.py:48-51 | Resolution finds nothing exactly when no node matches. Otherwise it returns a matching node with no match before it. |
| Graph.ResolveCall | graph_builder.py:44-51 | The search loop with early exit returns the first match in the snapshot. |
| Graph.AddModuleNodes | graph_builder.py:10-11 | The module phase keeps the graph free of dangling edges. |
| Graph.AddClassNodes | graph_builder.py:14-17 | The class phase keeps the graph free of dangling edges. |
| Graph.AddFunctionNodes | graph_builder.py:20-24 | The function phase keeps the graph free of dangling edges. |
| Graph.AddImportEdges | graph_builder.py:27-32 | The import phase keeps the graph free of dangling edges. |
| Graph.AddCallEdge | graph_builder.py:38-59 | One call step keeps the graph free of dangling edges. |
| Graph.AddCallEdges | graph_builder.py:38-59 | The call phase keeps the graph free of dangling edges. |
| Graph.ModulePhase | graph_builder.py:10-11 | Every module becomes a node of type module, labelled with its name. No edge is added. |
| Graph.ClassPhase | graph_builder.py:14-17 | Every class becomes a node with an edge from its module, and no existing node or edge is lost. No attribute-less node appears when the modules are already nodes. Types and labels are stated by `Graph.ClassPhaseData`. |
| Graph.FunctionPhase | graph_builder.py:20-24 | Every function becomes a node with an edge from its class if it has one, else its module, and no existing node or edge is lost. Types and labels are stated by `Graph.FunctionPhaseData`. |
| Graph.ImportPhase | graph_builder.py:27-32 | Every import with a non-empty target makes the target a node with an edge from the importing module, and no existing node or edge is lost. Types and labels are stated by `Graph.ImportPhaseData`. |
| Graph.NamedMembers | graph_builder.py:29-30 | The named targets, sources and pairs are exactly the targets, source modules and (source, target) pairs of the imports whose target is non-empty. |
| Graph.ImportPhaseNodeKeys | graph_builder.py:27-32 | The import phase's nodes are exactly the old nodes plus the targets and sources of imports with a non-empty target. An import with an empty target adds no node. |
| Graph.ImportPhaseEdgeKeys | graph_builder.py:27-32 | The import phase's edges are exactly the old edges plus the (source, target) pairs of imports with a non-empty target. An import with an empty target adds no edge. |
| Graph.ClassPhaseData | graph_builder.py:14-17 | When each class is listed once, it ends the class phase as a node of type class labelled with its bare name. The pair from its module has type `contains`. |
| Graph.FunctionPhaseData | graph_builder.py:20-24 | When each function is listed once, it ends the function phase as a node of type function labelled with its bare name. The pair from its class, else its module, has type `contains`. |
| Graph.ImportPhaseData | graph_builder.py:27-32 | Every named import target ends the import phase as a node of type module labelled with its own name. The pair from the importing module has type `imports`. |
| Graph.CallStep | graph_builder.py:53-59 | One call puts a `calls` edge on its pair. It changes no other edge and no other node's data, and labels an `ext:` node with the full hint. |
| Graph.CallPhaseGrows | graph_builder.py:38-59 | The call phase never removes a node or an edge. |
| Graph.CallPhaseEdges | graph_builder.py:53-59 | After the call phase every call has an edge of type `calls` to its resolved target. |
| Graph.CallStepNodes | graph_builder.py:53-59 | A call step adds at most its `ext:` node, and no attribute-less node. |
| Graph.CallPhaseNodes | graph_builder.py:38-59 | The call phase adds only `ext:` nodes and no attribute-less node. |
| Graph.BeforeCallsHasEveryReference | graph_builder.py:8-32 | Before calls are resolved, every module, class and function is a node. There is an edge from each class's module and from each function's parent, and from each importing module to each named target. Edge types are not stated here, since a later phase may retype a pair. |
| Graph.BuiltHasEveryReference | graph_builder.py:8-61 | The built graph holds every symbol and every reference. Each call's edge has type `calls`, even where the pair was first added as `contains`. |
| Graph.ClassPhaseNoBare | graph_builder.py:10-17 | On a well-formed scan, modules and classes are nodes with attributes. |
| Graph.NodePhasesNoBare | graph_builder.py:10-24 | On a well-formed scan, modules, classes and functions are nodes with attributes. |
| Graph.BeforeCallsHasNoBareNodes | graph_builder.py:8-36 | On a well-formed scan, the snapshot searched by call resolution has no attribute-less node, and every caller is in it. |
| Graph.BuiltHasNoBareNodes | graph_builder.py:8-61 | On a well-formed scan, every node of the built graph has a type and a label. Nodes added after the snapshot are `ext:` nodes. |
| Graph.ScanThenBuildHasNoBareNodes | parser.py:17-23 | End to end: for any files, the graph built from the scan has no dangling edge and no attribute-less node. |
| Graph.UnresolvedCallGoesExternal | graph_builder.py:53-59 | A call that does not resolve gets an `external` node `ext:hint`, labelled with the full hint, and a `calls` edge from the caller. A call does not resolve when no node matches, or when the first match is the empty id. |
| Graph.ExternalNodeStays | graph_builder.py:53-59 | No single call step changes an existing `ext:` node's type or label. |
| Graph.ExternalNodeStaysAll | graph_builder.py:38-59 | The whole call phase never changes an existing `ext:` node's type or label. |
| Graph.ExternalNodeData | graph_builder.py:57-58 | An unresolved call's `ext:` node, labelled with the full hint, survives every later call. |
| Graph.OwnCallScan | graph_builder.py:10-24 | The example scan: a module `m` with a function `f` that is called at module level. |
| Graph.OwnCallResolves | graph_builder.py:44-51 | In that scan, the call `f()` resolves to `m.f`, not to `m`. |
| Graph.OwnCallSnapshot | graph_builder.py:10-32 | Before calls, that scan gives nodes `m` and `m.f` and one `contains` edge. |
| Graph.ModuleLevelCallReplacesContains | graph_builder.py:24 | In that example the module's `contains` edge to `m.f` becomes a `calls` edge: one edge per pair, and the later type wins. |
| Graph.GraphBuilder.constructor | graph_builder.py:4-6 | A new builder holds the scan and an empty graph. |
| Graph.GraphBuilder.Build | graph_builder.py:8-61 | Runs the phases in order on the builder's graph and returns it. Calls are resolved against the node list taken after the import phase. |
| Graph.GraphBuilder.AddModules | graph_builder.py:10-11 | The module loop equals the module-phase fold. |
| Graph.GraphBuilder.AddClasses | graph_builder.py:14-17 | The class loop equals the class-phase fold. |
| Graph.GraphBuilder.AddFunctions | graph_builder.py:20-24 | The function loop equals the function-phase fold. |
| Graph.GraphBuilder.AddImports | graph_builder.py:27-32 | The import loop equals the import-phase fold. |
| Graph.GraphBuilder.AddCalls | graph_builder.py:38-59 | The call loop equals the call-phase fold. |
| Analyzer.NodesWhereMembers | analyzer.py:15 | A filter over node ids keeps exactly the ids that pass the test, with no duplicates. |
| Analyzer.NodesWhereFirst | analyzer.py:15-17 | The first id a filter keeps is the first id in node order that passes the test. |
| Analyzer.SeedsAreLabelMatches | analyzer.py:67-74 | A node is a seed exactly when its lower-cased label is longer than three characters and a substring of the lower-cased intent. Seeds are listed once each. |
| Analyzer.FallbackIsFirstModule | analyzer.py:14-17 | No module id exists exactly when no node has type module. Otherwise the fallback is the first module node in registration order. |
| Analyzer.FindStartNodes | analyzer.py:67-74 | The loop returns the seeds in node order. |
| Analyzer.ReachesThroughEdge | analyzer.py:23-28 | If `u` has an edge to `v` and `v` depends on `x`, then `u` depends on `x`. |
| Analyzer.DependentsAreNodes | analyzer.py:43-44 | Anything that depends on a node is itself a node, so the results loop never skips an id. |
| Analyzer.ClosedSetHoldsPathStart | analyzer.py:35 | A set closed under dependents that holds the end of a path holds its start. |
| Analyzer.Descendants | analyzer.py:35 | The breadth-first search over incoming edges, with a visited set, returns exactly the other nodes that depend on the start node. It terminates on cyclic graphs. |
| Analyzer.ImpactedNodes | analyzer.py:29-39 | The impacted set is exactly the nodes that depend on some start node. |
| Analyzer.StartNodesAreImpacted | analyzer.py:36-39 | Every start node is impacted. |
| Analyzer.BlastRadiusIsClosed | analyzer.py:29-37 | Whatever has an edge into an impacted node is impacted. |
| Analyzer.BlastRadiusIsLeast | analyzer.py:29-37 | Nothing else is impacted: any set that holds the start nodes and is closed under dependents holds the impacted set. |
| Analyzer.Classify | analyzer.py:76-84 | The category is decided in priority order on the lower-cased id: "api" or "app"; else "db", "data" or "connector"; else function type or "service"; else general. |
| Analyzer.Explanation | analyzer.py:86-97 | A direct node gets the fixed message. An indirect node's explanation quotes its id. |
| Analyzer.IndirectIsNotDirect | analyzer.py:87-97 | No indirect explanation equals the direct message. |
| Analyzer.ExplanationIsDecodable | analyzer.py:90-97 | Two equal indirect explanations have the same category and the same node id. |
| Analyzer.ImpactOf | analyzer.py:45-58 | A record carries its id and its label and type, falling back to the id and "unknown". `is_direct` holds exactly for start nodes. The category is the node's `Classify` result, and the explanation is the `Explanation` for that category: the direct message, or text quoting the id. |
| Analyzer.ImpactRecords | analyzer.py:41-58 | One record per impacted node, with distinct ids, each as `ImpactOf` describes. |
| Analyzer.OutEdges | analyzer.py:113 | The edges listed for a node leave that node. |
| Analyzer.EdgesBySource | analyzer.py:113 | The edge view lists only edges whose source is a node. |
| Analyzer.EdgeViewListsEachEdgeOnce | analyzer.py:113-125 | The snapshot's edge order is a permutation of the graph's edges. |
| Analyzer.NodeElements | analyzer.py:101-110 | The node loop gives one element per node, in node order. Each carries the id, the label and type (falling back to the id and "unknown"), and whether the node is highlighted. |
| Analyzer.EdgeElements | analyzer.py:112-125 | The edge loop gives one element per edge, in edge-view order, with id `u-v-type`, source, target and type label. |
| Analyzer.CytoscapeData | analyzer.py:99-127 | One element per node, in node order, highlighted exactly when impacted. Then one element per edge, with id `u-v-type`, source, target and type label. |
| Analyzer.Analyze | analyzer.py:8-65 | Fails with the exact message exactly when there is neither a seed nor a module. Otherwise it returns the intent, the seeds (or the first module), one record per impacted node, and the highlighted snapshot. |

## Left out

- File-system walking, reading and `ast.parse` are left out. The scanner receives
  each file's relative path and its syntax tree, or `None` when parsing failed.
  The error `print` and the exception handler become that `None` case.
- `os.sep` is fixed to `/` (POSIX).
- `str.lower` is modelled on ASCII letters only, so non-ASCII labels and intents
  are compared case-sensitively in the model.
- `AsyncFunctionDef`, lambdas and all other syntax kinds without a `visit_`
  method are generic nodes whose children are visited. The source does the same.
- The graph library's internals are left out. The graph is a value with ordered
  nodes and edges, and edge iteration is grouped by source node in node order,
  which is how networkx iterates a `DiGraph`.
- The `if n not in self.graph: continue` guard (analyzer.py:43-44) is not
  modelled as a branch, because it can never fire:
  `Analyzer.DependentsAreNodes` shows every impacted id is a node.
- `Analyzer.ImpactRecords`: the order of the impact list comes from iterating a
  set and is unspecified. The model picks the elements in an arbitrary order and
  states no ordering.
- Parser.MergeFile: an exception raised after the module entry is written
  (parser.py:38-40) is not modelled. An example is a `RecursionError` while
  visiting a very deep tree. In the source such a file keeps its module entry,
  while its classes, functions, calls and imports are dropped. In the model,
  visiting never fails.
- Analyzer.ImpactedNodes requires every start node to be a graph node, so the
  `else` branch at analyzer.py:38-39 (a start node outside the graph) is not
  modelled. `Analyzer.Analyze` only passes seeds and the first module node,
  and both are graph nodes.
- The web front end (`app.py`) and the browser script are not part of this model.
