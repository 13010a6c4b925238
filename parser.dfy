/** The source scanner: module naming, the scope-tracking tree walk that records
    classes, functions, imports and calls, and the merge of every file's records
    into one aggregate. */
module Parser {
  import opened Wrappers
  import opened Text
  import opened OrderedDict
  import opened PyAst

  /** `os.sep` on POSIX systems. */
  const OsSep: char := '/'

  datatype ModuleInfo = ModuleInfo(filePath: string)
  datatype ClassInfo = ClassInfo(name: string, moduleName: string)
  /** `className` is the id of the enclosing class, or "" outside any class. */
  datatype FunctionInfo = FunctionInfo(name: string, moduleName: string, className: string)
  /** `callee` is a best-effort hint, not necessarily a symbol id. */
  datatype CallRecord = CallRecord(caller: string, callee: string)
  /** `importedName` is present for `from ... import name` records only. */
  datatype ImportRecord = ImportRecord(sourceModule: string, targetModule: string, importedName: Option<string>)

  /** The scanner's aggregate result over all files. */
  datatype ParsedData = ParsedData(
    modules: ODict<string, ModuleInfo>,
    functions: ODict<string, FunctionInfo>,
    classes: ODict<string, ClassInfo>,
    calls: seq<CallRecord>,
    imports: seq<ImportRecord>)

  /** Everything a visitor of one file holds: its scope and its records. */
  datatype VisitorState = VisitorState(
    currentClass: string,
    currentFunction: string,
    functions: ODict<string, FunctionInfo>,
    classes: ODict<string, ClassInfo>,
    calls: seq<CallRecord>,
    imports: seq<ImportRecord>)

  function InitialState(): (s: VisitorState)
    ensures s.currentClass == "" && s.currentFunction == ""
    ensures s.classes == Empty() && s.functions == Empty() && s.calls == [] && s.imports == []
  {
    VisitorState("", "", Empty(), Empty(), [], [])
  }

  function EmptyParsedData(): (pd: ParsedData)
    ensures Valid(pd.modules) && Valid(pd.classes) && Valid(pd.functions)
  {
    ParsedData(Empty(), Empty(), Empty(), [], [])
  }

  // ---------------------------------------------------------------------------
  // Module names

  /** The module id of a file: its relative path with every separator replaced by
      a dot, then one trailing ".py" removed. */
  function ModuleName(relPath: string): (m: string)
    ensures EndsWith(relPath, ".py") ==> |m| == |relPath| - 3
    ensures |m| == |relPath| || |m| == |relPath| - 3
    ensures forall i :: 0 <= i < |m| ==> m[i] == if relPath[i] == OsSep then '.' else relPath[i]
    ensures OsSep !in m
  {
    var dotted := ReplaceChar(relPath, OsSep, '.');
    assert EndsWith(relPath, ".py") ==> EndsWith(dotted, ".py") by {
      if EndsWith(relPath, ".py") {
        forall i | 0 <= i < 3
          ensures dotted[|dotted| - 3 + i] == ".py"[i]
        {
          assert relPath[|relPath| - 3 + i] == ".py"[i];
        }
      }
    }
    if EndsWith(dotted, ".py") then dotted[..|dotted| - 3] else dotted
  }

  // ---------------------------------------------------------------------------
  // Naming rules of the tree walk

  /** The id of a function declared in scope `cls` of module `m`: the class id
      when inside a class (even inside a method), else the module. */
  function FunctionId(m: string, cls: string, name: string): string
  {
    (if cls != "" then cls else m) + "." + name
  }

  /** The caller of a call: the innermost function, else the class, else the module. */
  function Caller(m: string, cls: string, fn: string): string
  {
    if fn != "" then fn else if cls != "" then cls else m
  }

  /** The callee hint of a call, or `None` when nothing is recorded: a bare name
      gives the name, `recv.attr` on a bare receiver gives "recv.attr", an
      attribute on any other receiver gives just the attribute, and every other
      callee shape (or an empty hint) gives nothing. */
  function CalleeHint(func: Node): (r: Option<string>)
    ensures r.Some? ==> r.value != ""
    ensures r.Some? ==> func.Name? || func.Attribute?
    ensures func.Name? ==> r == if func.id != "" then Some(func.id) else None
    ensures func.Attribute? && func.value.Name? ==> r == Some(func.value.id + "." + func.attr)
    ensures func.Attribute? && !func.value.Name? ==> r == if func.attr != "" then Some(func.attr) else None
  {
    match func
    case Name(id) => if id != "" then Some(id) else None
    case Attribute(value, attr) =>
      var hint := if value.Name? then value.id + "." + attr else attr;
      if hint != "" then Some(hint) else None
    case _ => None
  }

  /** For a call through an attribute, the part of the hint that the graph
      assembler resolves on is the attribute itself, whatever the receiver. */
  lemma HintKeyIsCalledName(func: Node)
    requires func.Attribute? && '.' !in func.attr && func.attr != ""
    ensures CalleeHint(func).Some? && LastComponent(CalleeHint(func).value) == func.attr
  {
    var hint := CalleeHint(func);
    if func.value.Name? {
      assert hint.value == func.value.id + "." + func.attr;
      LastComponentOfQualified(func.value.id, func.attr);
    } else {
      assert hint.value == func.attr;
      LastComponentOfPlain(func.attr);
    }
  }

  /** `import a, b`: one record per alias. */
  function ImportRecords(m: string, names: seq<string>): seq<ImportRecord>
  {
    seq(|names|, i requires 0 <= i < |names| => ImportRecord(m, names[i], None))
  }

  /** The target of `from X import ...`: X, or "" for a relative import without a module. */
  function FromTarget(fromModule: Option<string>): string
  {
    if fromModule.Some? && fromModule.value != "" then fromModule.value else ""
  }

  /** `from X import a, b`: one record per alias, all with the same target. */
  function ImportFromRecords(m: string, target: string, names: seq<string>): seq<ImportRecord>
  {
    seq(|names|, i requires 0 <= i < |names| => ImportRecord(m, target, Some(names[i])))
  }

  // ---------------------------------------------------------------------------
  // The tree walk as a function of the visitor's state

  /** `visit(n)`: the `visit_` method for `n`'s kind, or `generic_visit`. */
  function Walk(m: string, s: VisitorState, n: Node): VisitorState
    decreases n, 1
  {
    match n
    case Import(names) =>
      GenericWalk(m, s.(imports := s.imports + ImportRecords(m, names)), n)
    case ImportFrom(fromModule, names) =>
      GenericWalk(m, s.(imports := s.imports + ImportFromRecords(m, FromTarget(fromModule), names)), n)
    case ClassDef(name, _) =>
      var id := m + "." + name;
      var inner := s.(classes := Put(s.classes, id, ClassInfo(name, m)), currentClass := id);
      GenericWalk(m, inner, n).(currentClass := s.currentClass)
    case FunctionDef(name, _) =>
      var id := FunctionId(m, s.currentClass, name);
      var inner := s.(functions := Put(s.functions, id, FunctionInfo(name, m, s.currentClass)), currentFunction := id);
      GenericWalk(m, inner, n).(currentFunction := s.currentFunction)
    case Call(func, _) =>
      var hint := CalleeHint(func);
      var recorded :=
        if hint.Some? then s.(calls := s.calls + [CallRecord(Caller(m, s.currentClass, s.currentFunction), hint.value)])
        else s;
      GenericWalk(m, recorded, n)
    case _ => GenericWalk(m, s, n)
  }

  /** `generic_visit(n)`: visit each child in order. */
  function GenericWalk(m: string, s: VisitorState, n: Node): VisitorState
    decreases n, 0
  {
    match n
    case ClassDef(_, body) => WalkAll(m, s, body)
    case FunctionDef(_, body) => WalkAll(m, s, body)
    case Call(func, args) => WalkAll(m, Walk(m, s, func), args)
    case Attribute(value, _) => Walk(m, s, value)
    case Other(children) => WalkAll(m, s, children)
    case _ => s
  }

  function WalkAll(m: string, s: VisitorState, ns: seq<Node>): VisitorState
    decreases ns
  {
    if ns == [] then s else Walk(m, WalkAll(m, s, ns[..|ns| - 1]), ns[|ns| - 1])
  }

  // ---------------------------------------------------------------------------
  // Reference definitions: what the walk records, computed without any state

  /** The calls under `n`, in pre-order, each with the caller its lexical
      position gives it. */
  function CallsIn(m: string, cls: string, fn: string, n: Node): seq<CallRecord>
    decreases n, 1
  {
    match n
    case ClassDef(name, _) => GenericCallsIn(m, m + "." + name, fn, n)
    case FunctionDef(name, _) => GenericCallsIn(m, cls, FunctionId(m, cls, name), n)
    case Call(func, _) =>
      var hint := CalleeHint(func);
      (if hint.Some? then [CallRecord(Caller(m, cls, fn), hint.value)] else []) + GenericCallsIn(m, cls, fn, n)
    case _ => GenericCallsIn(m, cls, fn, n)
  }

  function GenericCallsIn(m: string, cls: string, fn: string, n: Node): seq<CallRecord>
    decreases n, 0
  {
    match n
    case ClassDef(_, body) => CallsInAll(m, cls, fn, body)
    case FunctionDef(_, body) => CallsInAll(m, cls, fn, body)
    case Call(func, args) => CallsIn(m, cls, fn, func) + CallsInAll(m, cls, fn, args)
    case Attribute(value, _) => CallsIn(m, cls, fn, value)
    case Other(children) => CallsInAll(m, cls, fn, children)
    case _ => []
  }

  function CallsInAll(m: string, cls: string, fn: string, ns: seq<Node>): seq<CallRecord>
    decreases ns
  {
    if ns == [] then [] else CallsInAll(m, cls, fn, ns[..|ns| - 1]) + CallsIn(m, cls, fn, ns[|ns| - 1])
  }

  /** The import records of the statements under `n`, in pre-order; they do not
      depend on the scope. */
  function ImportsIn(m: string, n: Node): seq<ImportRecord>
    decreases n, 1
  {
    match n
    case Import(names) => ImportRecords(m, names)
    case ImportFrom(fromModule, names) => ImportFromRecords(m, FromTarget(fromModule), names)
    case _ => GenericImportsIn(m, n)
  }

  function GenericImportsIn(m: string, n: Node): seq<ImportRecord>
    decreases n, 0
  {
    match n
    case ClassDef(_, body) => ImportsInAll(m, body)
    case FunctionDef(_, body) => ImportsInAll(m, body)
    case Call(func, args) => ImportsIn(m, func) + ImportsInAll(m, args)
    case Attribute(value, _) => ImportsIn(m, value)
    case Other(children) => ImportsInAll(m, children)
    case _ => []
  }

  function ImportsInAll(m: string, ns: seq<Node>): seq<ImportRecord>
    decreases ns
  {
    if ns == [] then [] else ImportsInAll(m, ns[..|ns| - 1]) + ImportsIn(m, ns[|ns| - 1])
  }

  /** The classes declared under `n`, in pre-order: each `ClassDef`, at any
      depth, declares `m.name`, whatever encloses it. */
  function ClassDeclsIn(m: string, n: Node): seq<(string, ClassInfo)>
    decreases n, 1
  {
    match n
    case ClassDef(name, _) => [(m + "." + name, ClassInfo(name, m))] + GenericClassDeclsIn(m, n)
    case _ => GenericClassDeclsIn(m, n)
  }

  function GenericClassDeclsIn(m: string, n: Node): seq<(string, ClassInfo)>
    decreases n, 0
  {
    match n
    case ClassDef(_, body) => ClassDeclsInAll(m, body)
    case FunctionDef(_, body) => ClassDeclsInAll(m, body)
    case Call(func, args) => ClassDeclsIn(m, func) + ClassDeclsInAll(m, args)
    case Attribute(value, _) => ClassDeclsIn(m, value)
    case Other(children) => ClassDeclsInAll(m, children)
    case _ => []
  }

  function ClassDeclsInAll(m: string, ns: seq<Node>): seq<(string, ClassInfo)>
    decreases ns
  {
    if ns == [] then [] else ClassDeclsInAll(m, ns[..|ns| - 1]) + ClassDeclsIn(m, ns[|ns| - 1])
  }

  /** The functions declared under `n`, in pre-order, where `cls` is the
      innermost class lexically enclosing `n` ("" for none): a `def` takes the
      id `FunctionId(m, cls, name)` and records `cls` as its class, so a
      function nested in a method still belongs to the method's class. */
  function FunctionDeclsIn(m: string, cls: string, n: Node): seq<(string, FunctionInfo)>
    decreases n, 1
  {
    match n
    case ClassDef(name, _) => GenericFunctionDeclsIn(m, m + "." + name, n)
    case FunctionDef(name, _) =>
      [(FunctionId(m, cls, name), FunctionInfo(name, m, cls))] + GenericFunctionDeclsIn(m, cls, n)
    case _ => GenericFunctionDeclsIn(m, cls, n)
  }

  function GenericFunctionDeclsIn(m: string, cls: string, n: Node): seq<(string, FunctionInfo)>
    decreases n, 0
  {
    match n
    case ClassDef(_, body) => FunctionDeclsInAll(m, cls, body)
    case FunctionDef(_, body) => FunctionDeclsInAll(m, cls, body)
    case Call(func, args) => FunctionDeclsIn(m, cls, func) + FunctionDeclsInAll(m, cls, args)
    case Attribute(value, _) => FunctionDeclsIn(m, cls, value)
    case Other(children) => FunctionDeclsInAll(m, cls, children)
    case _ => []
  }

  function FunctionDeclsInAll(m: string, cls: string, ns: seq<Node>): seq<(string, FunctionInfo)>
    decreases ns
  {
    if ns == [] then [] else FunctionDeclsInAll(m, cls, ns[..|ns| - 1]) + FunctionDeclsIn(m, cls, ns[|ns| - 1])
  }

  // ---------------------------------------------------------------------------
  // Properties of the walk

  /** Visiting a node leaves the current class and function as they were. */
  lemma {:induction false} WalkRestoresScope(m: string, s: VisitorState, n: Node)
    ensures Walk(m, s, n).currentClass == s.currentClass
    ensures Walk(m, s, n).currentFunction == s.currentFunction
    decreases n, 1
  {
    match n
    case ClassDef(name, _) =>
      var id := m + "." + name;
      GenericWalkRestoresScope(m, s.(classes := Put(s.classes, id, ClassInfo(name, m)), currentClass := id), n);
    case FunctionDef(name, _) =>
      var id := FunctionId(m, s.currentClass, name);
      GenericWalkRestoresScope(m, s.(functions := Put(s.functions, id, FunctionInfo(name, m, s.currentClass)), currentFunction := id), n);
    case Call(func, _) =>
      var hint := CalleeHint(func);
      var recorded :=
        if hint.Some? then s.(calls := s.calls + [CallRecord(Caller(m, s.currentClass, s.currentFunction), hint.value)])
        else s;
      GenericWalkRestoresScope(m, recorded, n);
    case Import(names) =>
      GenericWalkRestoresScope(m, s.(imports := s.imports + ImportRecords(m, names)), n);
    case ImportFrom(fromModule, names) =>
      GenericWalkRestoresScope(m, s.(imports := s.imports + ImportFromRecords(m, FromTarget(fromModule), names)), n);
    case _ =>
      GenericWalkRestoresScope(m, s, n);
  }

  lemma {:induction false} GenericWalkRestoresScope(m: string, s: VisitorState, n: Node)
    ensures GenericWalk(m, s, n).currentClass == s.currentClass
    ensures GenericWalk(m, s, n).currentFunction == s.currentFunction
    decreases n, 0
  {
    match n
    case ClassDef(_, body) => WalkAllRestoresScope(m, s, body);
    case FunctionDef(_, body) => WalkAllRestoresScope(m, s, body);
    case Call(func, args) =>
      WalkRestoresScope(m, s, func);
      WalkAllRestoresScope(m, Walk(m, s, func), args);
    case Attribute(value, _) => WalkRestoresScope(m, s, value);
    case Other(children) => WalkAllRestoresScope(m, s, children);
    case _ =>
  }

  lemma {:induction false} WalkAllRestoresScope(m: string, s: VisitorState, ns: seq<Node>)
    ensures WalkAll(m, s, ns).currentClass == s.currentClass
    ensures WalkAll(m, s, ns).currentFunction == s.currentFunction
    decreases ns
  {
    if ns != [] {
      WalkAllRestoresScope(m, s, ns[..|ns| - 1]);
      WalkRestoresScope(m, WalkAll(m, s, ns[..|ns| - 1]), ns[|ns| - 1]);
    }
  }

  /** The stateful walk records exactly the calls and imports of the reference
      definitions: calls in pre-order, each attributed to its lexical caller. */
  lemma {:induction false} WalkRecordsLexically(m: string, s: VisitorState, n: Node)
    ensures Walk(m, s, n).calls == s.calls + CallsIn(m, s.currentClass, s.currentFunction, n)
    ensures Walk(m, s, n).imports == s.imports + ImportsIn(m, n)
    decreases n, 1
  {
    match n
    case ClassDef(name, _) =>
      var id := m + "." + name;
      GenericWalkRecordsLexically(m, s.(classes := Put(s.classes, id, ClassInfo(name, m)), currentClass := id), n);
    case FunctionDef(name, _) =>
      var id := FunctionId(m, s.currentClass, name);
      GenericWalkRecordsLexically(m, s.(functions := Put(s.functions, id, FunctionInfo(name, m, s.currentClass)), currentFunction := id), n);
    case Call(func, _) =>
      var hint := CalleeHint(func);
      var recorded :=
        if hint.Some? then s.(calls := s.calls + [CallRecord(Caller(m, s.currentClass, s.currentFunction), hint.value)])
        else s;
      GenericWalkRecordsLexically(m, recorded, n);
    case Import(names) =>
      GenericWalkRecordsLexically(m, s.(imports := s.imports + ImportRecords(m, names)), n);
    case ImportFrom(fromModule, names) =>
      GenericWalkRecordsLexically(m, s.(imports := s.imports + ImportFromRecords(m, FromTarget(fromModule), names)), n);
    case _ =>
      GenericWalkRecordsLexically(m, s, n);
  }

  lemma {:induction false} GenericWalkRecordsLexically(m: string, s: VisitorState, n: Node)
    ensures GenericWalk(m, s, n).calls == s.calls + GenericCallsIn(m, s.currentClass, s.currentFunction, n)
    ensures GenericWalk(m, s, n).imports == s.imports + GenericImportsIn(m, n)
    decreases n, 0
  {
    match n
    case ClassDef(_, body) => WalkAllRecordsLexically(m, s, body);
    case FunctionDef(_, body) => WalkAllRecordsLexically(m, s, body);
    case Call(func, args) =>
      WalkRecordsLexically(m, s, func);
      WalkRestoresScope(m, s, func);
      WalkAllRecordsLexically(m, Walk(m, s, func), args);
    case Attribute(value, _) => WalkRecordsLexically(m, s, value);
    case Other(children) => WalkAllRecordsLexically(m, s, children);
    case _ =>
  }

  lemma {:induction false} WalkAllRecordsLexically(m: string, s: VisitorState, ns: seq<Node>)
    ensures WalkAll(m, s, ns).calls == s.calls + CallsInAll(m, s.currentClass, s.currentFunction, ns)
    ensures WalkAll(m, s, ns).imports == s.imports + ImportsInAll(m, ns)
    decreases ns
  {
    if ns != [] {
      var init := ns[..|ns| - 1];
      WalkAllRecordsLexically(m, s, init);
      WalkAllRestoresScope(m, s, init);
      WalkRecordsLexically(m, WalkAll(m, s, init), ns[|ns| - 1]);
    }
  }

  /** The stateful walk records exactly the declarations of the reference
      definitions: its class and function dictionaries are the ones it started
      with, with every declaration under `n` assigned in pre-order (so a
      repeated id keeps its first position and takes its last value). */
  lemma {:induction false} WalkDeclaresLexically(m: string, s: VisitorState, n: Node)
    ensures Walk(m, s, n).classes == PutSeq(s.classes, ClassDeclsIn(m, n))
    ensures Walk(m, s, n).functions == PutSeq(s.functions, FunctionDeclsIn(m, s.currentClass, n))
    decreases n, 1
  {
    match n
    case ClassDef(name, _) =>
      var id := m + "." + name;
      var inner := s.(classes := Put(s.classes, id, ClassInfo(name, m)), currentClass := id);
      GenericWalkDeclaresLexically(m, inner, n);
      PutSeqAppend(s.classes, [(id, ClassInfo(name, m))], GenericClassDeclsIn(m, n));
      assert PutSeq(s.classes, [(id, ClassInfo(name, m))]) == inner.classes;
    case FunctionDef(name, _) =>
      var id := FunctionId(m, s.currentClass, name);
      var info := FunctionInfo(name, m, s.currentClass);
      var inner := s.(functions := Put(s.functions, id, info), currentFunction := id);
      GenericWalkDeclaresLexically(m, inner, n);
      PutSeqAppend(s.functions, [(id, info)], GenericFunctionDeclsIn(m, s.currentClass, n));
      assert PutSeq(s.functions, [(id, info)]) == inner.functions;
    case Call(func, _) =>
      var hint := CalleeHint(func);
      var recorded :=
        if hint.Some? then s.(calls := s.calls + [CallRecord(Caller(m, s.currentClass, s.currentFunction), hint.value)])
        else s;
      GenericWalkDeclaresLexically(m, recorded, n);
    case Import(names) =>
      GenericWalkDeclaresLexically(m, s.(imports := s.imports + ImportRecords(m, names)), n);
    case ImportFrom(fromModule, names) =>
      GenericWalkDeclaresLexically(m, s.(imports := s.imports + ImportFromRecords(m, FromTarget(fromModule), names)), n);
    case _ =>
      GenericWalkDeclaresLexically(m, s, n);
  }

  lemma {:induction false} GenericWalkDeclaresLexically(m: string, s: VisitorState, n: Node)
    ensures GenericWalk(m, s, n).classes == PutSeq(s.classes, GenericClassDeclsIn(m, n))
    ensures GenericWalk(m, s, n).functions == PutSeq(s.functions, GenericFunctionDeclsIn(m, s.currentClass, n))
    decreases n, 0
  {
    match n
    case ClassDef(_, body) => WalkAllDeclaresLexically(m, s, body);
    case FunctionDef(_, body) => WalkAllDeclaresLexically(m, s, body);
    case Call(func, args) =>
      var s1 := Walk(m, s, func);
      WalkDeclaresLexically(m, s, func);
      WalkRestoresScope(m, s, func);
      WalkAllDeclaresLexically(m, s1, args);
      PutSeqAppend(s.classes, ClassDeclsIn(m, func), ClassDeclsInAll(m, args));
      PutSeqAppend(s.functions, FunctionDeclsIn(m, s.currentClass, func), FunctionDeclsInAll(m, s.currentClass, args));
    case Attribute(value, _) => WalkDeclaresLexically(m, s, value);
    case Other(children) => WalkAllDeclaresLexically(m, s, children);
    case _ =>
  }

  lemma {:induction false} WalkAllDeclaresLexically(m: string, s: VisitorState, ns: seq<Node>)
    ensures WalkAll(m, s, ns).classes == PutSeq(s.classes, ClassDeclsInAll(m, ns))
    ensures WalkAll(m, s, ns).functions == PutSeq(s.functions, FunctionDeclsInAll(m, s.currentClass, ns))
    decreases ns
  {
    if ns != [] {
      var init := ns[..|ns| - 1];
      var last := ns[|ns| - 1];
      var s1 := WalkAll(m, s, init);
      WalkAllDeclaresLexically(m, s, init);
      WalkAllRestoresScope(m, s, init);
      WalkDeclaresLexically(m, s1, last);
      PutSeqAppend(s.classes, ClassDeclsInAll(m, init), ClassDeclsIn(m, last));
      PutSeqAppend(s.functions, FunctionDeclsInAll(m, s.currentClass, init), FunctionDeclsIn(m, s.currentClass, last));
    }
  }

  /** What a visitor of module `m` holds at every step: class ids are
      `m + "." + name`; function ids follow `FunctionId` and name an existing
      class; callers are the module or a recorded class or function; every
      import comes from `m`; the current scope names recorded symbols. */
  ghost predicate VisitorInv(m: string, s: VisitorState)
  {
    && Valid(s.classes) && Valid(s.functions)
    && (forall k :: k in s.classes.vals ==>
          s.classes.vals[k].moduleName == m && k == m + "." + s.classes.vals[k].name)
    && (forall k :: k in s.functions.vals ==>
          var f := s.functions.vals[k];
          f.moduleName == m && (f.className == "" || f.className in s.classes.vals)
          && k == FunctionId(m, f.className, f.name))
    && (forall c :: c in s.calls ==>
          c.caller == m || c.caller in s.classes.vals || c.caller in s.functions.vals)
    && (forall r :: r in s.imports ==> r.sourceModule == m)
    && (s.currentClass == "" || s.currentClass in s.classes.vals)
    && (s.currentFunction == "" || s.currentFunction in s.functions.vals)
  }

  lemma InitialStateInv(m: string)
    ensures VisitorInv(m, InitialState())
  {
  }

  /** The walk keeps `VisitorInv`, and recorded symbols are never forgotten. */
  lemma {:induction false} WalkKeepsInv(m: string, s: VisitorState, n: Node)
    requires VisitorInv(m, s)
    ensures VisitorInv(m, Walk(m, s, n))
    ensures s.classes.vals.Keys <= Walk(m, s, n).classes.vals.Keys
    ensures s.functions.vals.Keys <= Walk(m, s, n).functions.vals.Keys
    decreases n, 1
  {
    match n
    case ClassDef(name, _) =>
      var id := m + "." + name;
      var inner := s.(classes := Put(s.classes, id, ClassInfo(name, m)), currentClass := id);
      GenericWalkKeepsInv(m, inner, n);
    case FunctionDef(name, _) =>
      var id := FunctionId(m, s.currentClass, name);
      var inner := s.(functions := Put(s.functions, id, FunctionInfo(name, m, s.currentClass)), currentFunction := id);
      GenericWalkKeepsInv(m, inner, n);
    case Call(func, _) =>
      var hint := CalleeHint(func);
      var recorded :=
        if hint.Some? then s.(calls := s.calls + [CallRecord(Caller(m, s.currentClass, s.currentFunction), hint.value)])
        else s;
      GenericWalkKeepsInv(m, recorded, n);
    case Import(names) =>
      var s1 := s.(imports := s.imports + ImportRecords(m, names));
      assert forall r :: r in ImportRecords(m, names) ==> r.sourceModule == m;
      GenericWalkKeepsInv(m, s1, n);
    case ImportFrom(fromModule, names) =>
      var s1 := s.(imports := s.imports + ImportFromRecords(m, FromTarget(fromModule), names));
      assert forall r :: r in ImportFromRecords(m, FromTarget(fromModule), names) ==> r.sourceModule == m;
      GenericWalkKeepsInv(m, s1, n);
    case _ =>
      GenericWalkKeepsInv(m, s, n);
  }

  lemma {:induction false} GenericWalkKeepsInv(m: string, s: VisitorState, n: Node)
    requires VisitorInv(m, s)
    ensures VisitorInv(m, GenericWalk(m, s, n))
    ensures s.classes.vals.Keys <= GenericWalk(m, s, n).classes.vals.Keys
    ensures s.functions.vals.Keys <= GenericWalk(m, s, n).functions.vals.Keys
    decreases n, 0
  {
    match n
    case ClassDef(_, body) => WalkAllKeepsInv(m, s, body);
    case FunctionDef(_, body) => WalkAllKeepsInv(m, s, body);
    case Call(func, args) =>
      WalkKeepsInv(m, s, func);
      WalkAllKeepsInv(m, Walk(m, s, func), args);
    case Attribute(value, _) => WalkKeepsInv(m, s, value);
    case Other(children) => WalkAllKeepsInv(m, s, children);
    case _ =>
  }

  lemma {:induction false} WalkAllKeepsInv(m: string, s: VisitorState, ns: seq<Node>)
    requires VisitorInv(m, s)
    ensures VisitorInv(m, WalkAll(m, s, ns))
    ensures s.classes.vals.Keys <= WalkAll(m, s, ns).classes.vals.Keys
    ensures s.functions.vals.Keys <= WalkAll(m, s, ns).functions.vals.Keys
    decreases ns
  {
    if ns != [] {
      WalkAllKeepsInv(m, s, ns[..|ns| - 1]);
      WalkKeepsInv(m, WalkAll(m, s, ns[..|ns| - 1]), ns[|ns| - 1]);
    }
  }

  /** A function nested in a method is named after the class, not the method,
      and its calls are attributed to it. */
  lemma NestedFunctionTakesClassPrefix()
    ensures var tree := ClassDef("C", [FunctionDef("f", [FunctionDef("g", [Call(Name("h"), [])])])]);
            var s := Walk("m", InitialState(), tree);
            && s.classes.keys == ["m.C"]
            && s.functions.keys == ["m.C.f", "m.C.g"]
            && s.functions.vals["m.C.g"] == FunctionInfo("g", "m", "m.C")
            && s.calls == [CallRecord("m.C.g", "h")]
  {
    var call := Call(Name("h"), []);
    var g := FunctionDef("g", [call]);
    var f := FunctionDef("f", [g]);
    var tree := ClassDef("C", [f]);
    var s0 := InitialState();
    var s1 := s0.(classes := Put(s0.classes, "m.C", ClassInfo("C", "m")), currentClass := "m.C");
    var s2 := s1.(functions := Put(s1.functions, "m.C.f", FunctionInfo("f", "m", "m.C")), currentFunction := "m.C.f");
    var s3 := s2.(functions := Put(s2.functions, "m.C.g", FunctionInfo("g", "m", "m.C")), currentFunction := "m.C.g");
    var s4 := s3.(calls := [CallRecord("m.C.g", "h")]);
    assert Walk("m", s3, call) == s4 by {
      assert WalkAll("m", Walk("m", s4, Name("h")), []) == s4;
    }
    assert WalkAll("m", s3, [call]) == s4 by {
      assert [call][..0] == [];
    }
    assert FunctionId("m", "m.C", "g") == "m.C.g";
    assert FunctionId("m", "m.C", "f") == "m.C.f";
    assert "m" + "." + "C" == "m.C";
    assert Walk("m", s2, g) == s4.(currentFunction := "m.C.f");
    assert WalkAll("m", s2, [g]) == s4.(currentFunction := "m.C.f") by {
      assert [g][..0] == [];
    }
    assert Walk("m", s1, f) == s4.(currentFunction := "");
    assert WalkAll("m", s1, [f]) == s4.(currentFunction := "") by {
      assert [f][..0] == [];
    }
    assert Walk("m", s0, tree) == s4.(currentFunction := "", currentClass := "");
  }

  // ---------------------------------------------------------------------------
  // The visitor object

  /** One file's visitor: the scope it is in and the records it has made. */
  class CodeVisitor {
    const moduleName: string
    var currentClass: string
    var currentFunction: string
    var functions: ODict<string, FunctionInfo>
    var classes: ODict<string, ClassInfo>
    var calls: seq<CallRecord>
    var imports: seq<ImportRecord>

    function State(): VisitorState
      reads this
    {
      VisitorState(currentClass, currentFunction, functions, classes, calls, imports)
    }

    constructor (moduleName: string)
      ensures this.moduleName == moduleName && State() == InitialState()
    {
      this.moduleName := moduleName;
      currentClass := "";
      currentFunction := "";
      functions := Empty();
      classes := Empty();
      calls := [];
      imports := [];
    }

    method Visit(n: Node)
      modifies this
      ensures State() == Walk(moduleName, old(State()), n)
      decreases n, 2
    {
      match n
      case Import(_) => VisitImport(n);
      case ImportFrom(_, _) => VisitImportFrom(n);
      case ClassDef(_, _) => VisitClassDef(n);
      case FunctionDef(_, _) => VisitFunctionDef(n);
      case Call(_, _) => VisitCall(n);
      case _ => GenericVisit(n);
    }

    method VisitImport(n: Node)
      requires n.Import?
      modifies this
      ensures State() == Walk(moduleName, old(State()), n)
      decreases n, 1
    {
      var i := 0;
      while i < |n.names|
        invariant 0 <= i <= |n.names|
        invariant State() == old(State()).(imports := old(imports) + ImportRecords(moduleName, n.names[..i]))
      {
        imports := imports + [ImportRecord(moduleName, n.names[i], None)];
        i := i + 1;
        assert ImportRecords(moduleName, n.names[..i])
            == ImportRecords(moduleName, n.names[..i - 1]) + [ImportRecord(moduleName, n.names[i - 1], None)];
      }
      assert n.names[..i] == n.names;
      GenericVisit(n);
    }

    method VisitImportFrom(n: Node)
      requires n.ImportFrom?
      modifies this
      ensures State() == Walk(moduleName, old(State()), n)
      decreases n, 1
    {
      var i := 0;
      while i < |n.names|
        invariant 0 <= i <= |n.names|
        invariant State() == old(State()).(imports := old(imports) + ImportFromRecords(moduleName, FromTarget(n.fromModule), n.names[..i]))
      {
        var target := if n.fromModule.Some? && n.fromModule.value != "" then n.fromModule.value else "";
        imports := imports + [ImportRecord(moduleName, target, Some(n.names[i]))];
        i := i + 1;
        assert ImportFromRecords(moduleName, target, n.names[..i])
            == ImportFromRecords(moduleName, target, n.names[..i - 1]) + [ImportRecord(moduleName, target, Some(n.names[i - 1]))];
      }
      assert n.names[..i] == n.names;
      GenericVisit(n);
    }

    method VisitClassDef(n: Node)
      requires n.ClassDef?
      modifies this
      ensures State() == Walk(moduleName, old(State()), n)
      decreases n, 1
    {
      var classFullName := moduleName + "." + n.name;
      classes := Put(classes, classFullName, ClassInfo(n.name, moduleName));
      var prevClass := currentClass;
      currentClass := classFullName;
      GenericVisit(n);
      currentClass := prevClass;
    }

    method VisitFunctionDef(n: Node)
      requires n.FunctionDef?
      modifies this
      ensures State() == Walk(moduleName, old(State()), n)
      decreases n, 1
    {
      var funcFullName := if currentClass != "" then currentClass + "." + n.name else moduleName + "." + n.name;
      functions := Put(functions, funcFullName, FunctionInfo(n.name, moduleName, currentClass));
      var prevFunc := currentFunction;
      currentFunction := funcFullName;
      GenericVisit(n);
      currentFunction := prevFunc;
    }

    method VisitCall(n: Node)
      requires n.Call?
      modifies this
      ensures State() == Walk(moduleName, old(State()), n)
      decreases n, 1
    {
      var caller := if currentFunction != "" then currentFunction
                    else if currentClass != "" then currentClass
                    else moduleName;
      var calleeName := CalleeHint(n.func);
      if calleeName.Some? {
        calls := calls + [CallRecord(caller, calleeName.value)];
      }
      GenericVisit(n);
    }

    method GenericVisit(n: Node)
      modifies this
      ensures State() == GenericWalk(moduleName, old(State()), n)
      decreases n, 0
    {
      match n
      case ClassDef(_, body) => VisitEach(body);
      case FunctionDef(_, body) => VisitEach(body);
      case Call(func, args) =>
        Visit(func);
        VisitEach(args);
      case Attribute(value, _) => Visit(value);
      case Other(children) => VisitEach(children);
      case _ =>
    }

    method VisitEach(ns: seq<Node>)
      modifies this
      ensures State() == WalkAll(moduleName, old(State()), ns)
      decreases ns
    {
      var i := 0;
      while i < |ns|
        invariant 0 <= i <= |ns|
        invariant State() == WalkAll(moduleName, old(State()), ns[..i])
      {
        assert ns[..i + 1][..i] == ns[..i];
        Visit(ns[i]);
        i := i + 1;
      }
      assert ns[..i] == ns;
    }
  }

  // ---------------------------------------------------------------------------
  // Merging files

  ghost predicate DictsValid(pd: ParsedData)
  {
    Valid(pd.modules) && Valid(pd.functions) && Valid(pd.classes)
  }

  /** What one file contributes: nothing when it failed to parse; otherwise its
      module entry, and its visitor's records merged in (dict entries overwrite,
      lists are extended). */
  function MergeFile(pd: ParsedData, relPath: string, tree: Option<Node>): (r: ParsedData)
    requires DictsValid(pd)
    ensures DictsValid(r)
    ensures tree.None? ==> r == pd
    ensures tree.Some? ==>
      var m := ModuleName(relPath);
      && r.modules.vals == pd.modules.vals[m := ModuleInfo(relPath)]
      && r.modules.keys == (if m in pd.modules.vals then pd.modules.keys else pd.modules.keys + [m])
      && r.classes == PutSeq(pd.classes, ClassDeclsIn(m, tree.value))
      && r.functions == PutSeq(pd.functions, FunctionDeclsIn(m, "", tree.value))
      && r.calls == pd.calls + CallsIn(m, "", "", tree.value)
      && r.imports == pd.imports + ImportsIn(m, tree.value)
  {
    match tree
    case None => pd
    case Some(t) =>
      var m := ModuleName(relPath);
      var s0 := InitialState();
      var s := Walk(m, s0, t);
      InitialStateInv(m);
      WalkKeepsInv(m, s0, t);
      WalkRecordsLexically(m, s0, t);
      WalkDeclaresLexically(m, s0, t);
      assert s.calls == CallsIn(m, "", "", t) by {
        assert [] + CallsIn(m, "", "", t) == CallsIn(m, "", "", t);
      }
      assert s.imports == ImportsIn(m, t) by {
        assert [] + ImportsIn(m, t) == ImportsIn(m, t);
      }
      UpdateOfPutSeq(pd.classes, ClassDeclsIn(m, t));
      UpdateOfPutSeq(pd.functions, FunctionDeclsIn(m, "", t));
      MergeRecords(pd, m, relPath, s)
  }

  /** The aggregate after a file's module entry is recorded and its finished
      visitor's records are merged in. */
  function MergeRecords(pd: ParsedData, m: string, relPath: string, s: VisitorState): (r: ParsedData)
    requires DictsValid(pd) && Valid(s.classes) && Valid(s.functions)
    ensures DictsValid(r)
    ensures r.modules == Put(pd.modules, m, ModuleInfo(relPath))
    ensures r.classes == Update(pd.classes, s.classes) && r.functions == Update(pd.functions, s.functions)
    ensures r.calls == pd.calls + s.calls && r.imports == pd.imports + s.imports
  {
    ParsedData(
      Put(pd.modules, m, ModuleInfo(relPath)),
      Update(pd.functions, s.functions),
      Update(pd.classes, s.classes),
      pd.calls + s.calls,
      pd.imports + s.imports)
  }

  /** `parse()`: every file whose name ends in ".py", in walk order. */
  function ParseFiles(pd: ParsedData, files: seq<(string, Option<Node>)>): (r: ParsedData)
    requires DictsValid(pd)
    ensures DictsValid(r)
  {
    if files == [] then pd
    else
      var prev := ParseFiles(pd, files[..|files| - 1]);
      var (path, tree) := files[|files| - 1];
      if EndsWith(path, ".py") then MergeFile(prev, path, tree) else prev
  }

  /** A file the scanner merges: its name ends in ".py" and it parsed. */
  predicate Scanned(file: (string, Option<Node>))
  {
    EndsWith(file.0, ".py") && file.1.Some?
  }

  /** The module entries of the scanned files, in file order. */
  function ScannedModules(files: seq<(string, Option<Node>)>): seq<(string, ModuleInfo)>
  {
    if files == [] then []
    else
      var f := files[|files| - 1];
      ScannedModules(files[..|files| - 1]) + if Scanned(f) then [(ModuleName(f.0), ModuleInfo(f.0))] else []
  }

  /** The class declarations of the scanned files, file by file, each in pre-order. */
  function ScannedClasses(files: seq<(string, Option<Node>)>): seq<(string, ClassInfo)>
  {
    if files == [] then []
    else
      var f := files[|files| - 1];
      ScannedClasses(files[..|files| - 1]) + if Scanned(f) then ClassDeclsIn(ModuleName(f.0), f.1.value) else []
  }

  /** The function declarations of the scanned files, file by file, each in pre-order. */
  function ScannedFunctions(files: seq<(string, Option<Node>)>): seq<(string, FunctionInfo)>
  {
    if files == [] then []
    else
      var f := files[|files| - 1];
      ScannedFunctions(files[..|files| - 1]) + if Scanned(f) then FunctionDeclsIn(ModuleName(f.0), "", f.1.value) else []
  }

  /** The calls of the scanned files, file by file, each in pre-order. */
  function ScannedCalls(files: seq<(string, Option<Node>)>): seq<CallRecord>
  {
    if files == [] then []
    else
      var f := files[|files| - 1];
      ScannedCalls(files[..|files| - 1]) + if Scanned(f) then CallsIn(ModuleName(f.0), "", "", f.1.value) else []
  }

  /** The imports of the scanned files, file by file, each in pre-order. */
  function ScannedImports(files: seq<(string, Option<Node>)>): seq<ImportRecord>
  {
    if files == [] then []
    else
      var f := files[|files| - 1];
      ScannedImports(files[..|files| - 1]) + if Scanned(f) then ImportsIn(ModuleName(f.0), f.1.value) else []
  }

  /** `r` holds `pd` with the records of the scanned files among `files`
      accumulated: module entries and declarations assigned in file order, calls
      and imports appended in file order. */
  ghost predicate Accumulated(r: ParsedData, pd: ParsedData, files: seq<(string, Option<Node>)>)
  {
    && r.modules == PutSeq(pd.modules, ScannedModules(files))
    && r.classes == PutSeq(pd.classes, ScannedClasses(files))
    && r.functions == PutSeq(pd.functions, ScannedFunctions(files))
    && r.calls == pd.calls + ScannedCalls(files)
    && r.imports == pd.imports + ScannedImports(files)
  }

  /** What a scan accumulates: the module entries and the declarations of the
      scanned files are assigned in file order (a later file overwrites an
      earlier one's entry for the same id), and their calls and imports are
      appended in file order. */
  lemma {:induction false} ParseFilesAccumulates(pd: ParsedData, files: seq<(string, Option<Node>)>)
    requires DictsValid(pd)
    ensures Accumulated(ParseFiles(pd, files), pd, files)
  {
    if files == [] {
      assert Accumulated(pd, pd, []);
    } else {
      var init := files[..|files| - 1];
      ParseFilesAccumulates(pd, init);
      if Scanned(files[|files| - 1]) {
        ScannedFileAccumulates(pd, files);
      } else {
        SkippedFileAccumulates(pd, files);
      }
    }
  }

  lemma {:induction false} ScannedFileAccumulates(pd: ParsedData, files: seq<(string, Option<Node>)>)
    requires DictsValid(pd) && files != [] && Scanned(files[|files| - 1])
    requires Accumulated(ParseFiles(pd, files[..|files| - 1]), pd, files[..|files| - 1])
    ensures Accumulated(ParseFiles(pd, files), pd, files)
  {
    var init := files[..|files| - 1];
    var f := files[|files| - 1];
    var prev := ParseFiles(pd, init);
    var m := ModuleName(f.0);
    var t := f.1.value;
    var r := MergeFile(prev, f.0, f.1);
    assert ParseFiles(pd, files) == r;
    var mods := ScannedModules(init);
    assert ScannedModules(files) == mods + [(m, ModuleInfo(f.0))];
    assert (mods + [(m, ModuleInfo(f.0))])[..|mods|] == mods;
    assert r.modules == Put(prev.modules, m, ModuleInfo(f.0));
    assert ScannedClasses(files) == ScannedClasses(init) + ClassDeclsIn(m, t);
    assert ScannedFunctions(files) == ScannedFunctions(init) + FunctionDeclsIn(m, "", t);
    PutSeqAppend(pd.classes, ScannedClasses(init), ClassDeclsIn(m, t));
    PutSeqAppend(pd.functions, ScannedFunctions(init), FunctionDeclsIn(m, "", t));
    var calls := CallsIn(m, "", "", t);
    assert ScannedCalls(files) == ScannedCalls(init) + calls;
    AppendAssoc(pd.calls, ScannedCalls(init), calls);
    var imps := ImportsIn(m, t);
    assert ScannedImports(files) == ScannedImports(init) + imps;
    AppendAssoc(pd.imports, ScannedImports(init), imps);
  }

  lemma AppendAssoc<T>(a: seq<T>, b: seq<T>, c: seq<T>)
    ensures (a + b) + c == a + (b + c)
  {
  }

  lemma {:induction false} SkippedFileAccumulates(pd: ParsedData, files: seq<(string, Option<Node>)>)
    requires DictsValid(pd) && files != [] && !Scanned(files[|files| - 1])
    requires Accumulated(ParseFiles(pd, files[..|files| - 1]), pd, files[..|files| - 1])
    ensures Accumulated(ParseFiles(pd, files), pd, files)
  {
    var init := files[..|files| - 1];
    assert ParseFiles(pd, files) == ParseFiles(pd, init);
    assert ScannedModules(files) == ScannedModules(init) by {
      assert ScannedModules(init) + [] == ScannedModules(init);
    }
    assert ScannedClasses(files) == ScannedClasses(init) by {
      assert ScannedClasses(init) + [] == ScannedClasses(init);
    }
    assert ScannedFunctions(files) == ScannedFunctions(init) by {
      assert ScannedFunctions(init) + [] == ScannedFunctions(init);
    }
    assert ScannedCalls(files) == ScannedCalls(init) by {
      assert ScannedCalls(init) + [] == ScannedCalls(init);
    }
    assert ScannedImports(files) == ScannedImports(init) by {
      assert ScannedImports(init) + [] == ScannedImports(init);
    }
  }

  /** A file whose name does not end in ".py", or that failed to parse, leaves
      the aggregate as it was. */
  lemma {:induction false} ParseFilesSkips(pd: ParsedData, files: seq<(string, Option<Node>)>, file: (string, Option<Node>))
    requires DictsValid(pd) && !Scanned(file)
    ensures ParseFiles(pd, files + [file]) == ParseFiles(pd, files)
  {
    assert (files + [file])[..|files|] == files;
  }

  /** What the graph assembler relies on: every class and function names its
      module (and class) among the recorded symbols and has the id the naming
      rules give it; every caller and import source is a recorded symbol. */
  ghost predicate WellFormed(pd: ParsedData)
  {
    && DictsValid(pd)
    && (forall k :: k in pd.classes.vals ==>
          var c := pd.classes.vals[k];
          c.moduleName in pd.modules.vals && k == c.moduleName + "." + c.name)
    && (forall k :: k in pd.functions.vals ==>
          var f := pd.functions.vals[k];
          && f.moduleName in pd.modules.vals
          && (f.className == "" || f.className in pd.classes.vals)
          && k == FunctionId(f.moduleName, f.className, f.name))
    && (forall c :: c in pd.calls ==>
          c.caller in pd.modules.vals || c.caller in pd.classes.vals || c.caller in pd.functions.vals)
    && (forall r :: r in pd.imports ==> r.sourceModule in pd.modules.vals)
  }

  lemma MergeFileWellFormed(pd: ParsedData, relPath: string, tree: Option<Node>)
    requires WellFormed(pd)
    ensures WellFormed(MergeFile(pd, relPath, tree))
  {
    if tree.Some? {
      var m := ModuleName(relPath);
      var s0 := InitialState();
      var s := Walk(m, s0, tree.value);
      InitialStateInv(m);
      WalkKeepsInv(m, s0, tree.value);
      var r := MergeRecords(pd, m, relPath, s);
      assert MergeFile(pd, relPath, tree) == r;
      assert r.classes.vals == pd.classes.vals + s.classes.vals;
      assert r.functions.vals == pd.functions.vals + s.functions.vals;
      assert r.modules.vals == pd.modules.vals[m := ModuleInfo(relPath)];
      forall k | k in r.classes.vals
        ensures r.classes.vals[k].moduleName in r.modules.vals
        ensures k == r.classes.vals[k].moduleName + "." + r.classes.vals[k].name
      {
        if k !in s.classes.vals {
          assert r.classes.vals[k] == pd.classes.vals[k];
        }
      }
      forall k | k in r.functions.vals
        ensures var f := r.functions.vals[k];
          && f.moduleName in r.modules.vals
          && (f.className == "" || f.className in r.classes.vals)
          && k == FunctionId(f.moduleName, f.className, f.name)
      {
        if k !in s.functions.vals {
          assert r.functions.vals[k] == pd.functions.vals[k];
        }
      }
      forall c | c in r.calls
        ensures c.caller in r.modules.vals || c.caller in r.classes.vals || c.caller in r.functions.vals
      {
        if c !in pd.calls {
          assert c in s.calls;
        }
      }
      forall i | i in r.imports
        ensures i.sourceModule in r.modules.vals
      {
        if i !in pd.imports {
          assert i in s.imports;
        }
      }
    }
  }

  /** The scanner's output over any list of files is well formed. */
  lemma {:induction false} ParseFilesWellFormed(pd: ParsedData, files: seq<(string, Option<Node>)>)
    requires WellFormed(pd)
    ensures WellFormed(ParseFiles(pd, files))
  {
    if files != [] {
      ParseFilesWellFormed(pd, files[..|files| - 1]);
      var (path, tree) := files[|files| - 1];
      if EndsWith(path, ".py") {
        MergeFileWellFormed(ParseFiles(pd, files[..|files| - 1]), path, tree);
      }
    }
  }

  /** The scanner object: the aggregate it accumulates file by file. */
  class CodeParser {
    var parsedData: ParsedData

    ghost predicate Valid()
      reads this
    {
      DictsValid(parsedData)
    }

    constructor ()
      ensures Valid() && parsedData == EmptyParsedData()
    {
      parsedData := EmptyParsedData();
    }

    method ParseFile(relPath: string, tree: Option<Node>)
      requires Valid()
      modifies this
      ensures Valid()
      ensures parsedData == MergeFile(old(parsedData), relPath, tree)
    {
      if tree.None? {
        return;
      }
      var moduleName := ModuleName(relPath);
      parsedData := parsedData.(modules := Put(parsedData.modules, moduleName, ModuleInfo(relPath)));
      var visitor := new CodeVisitor(moduleName);
      visitor.Visit(tree.value);
      InitialStateInv(moduleName);
      WalkKeepsInv(moduleName, InitialState(), tree.value);
      parsedData := parsedData.(functions := Update(parsedData.functions, visitor.functions));
      parsedData := parsedData.(classes := Update(parsedData.classes, visitor.classes));
      parsedData := parsedData.(calls := parsedData.calls + visitor.calls);
      parsedData := parsedData.(imports := parsedData.imports + visitor.imports);
    }

    method Parse(files: seq<(string, Option<Node>)>) returns (result: ParsedData)
      requires Valid()
      modifies this
      ensures Valid()
      ensures result == parsedData == ParseFiles(old(parsedData), files)
    {
      var i := 0;
      while i < |files|
        invariant 0 <= i <= |files|
        invariant Valid()
        invariant parsedData == ParseFiles(old(parsedData), files[..i])
      {
        assert files[..i + 1][..i] == files[..i];
        var (path, tree) := files[i];
        if EndsWith(path, ".py") {
          ParseFile(path, tree);
        }
        i := i + 1;
      }
      assert files[..i] == files;
      result := parsedData;
    }
  }
}
