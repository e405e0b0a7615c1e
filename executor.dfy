/**
 * The executor's process-wide state and its SQL entry points: creating an
 * instance, listing instances, building and listing an instance's function
 * catalog, and invoking a catalogued function with int64 arguments.
 *
 * Every WasmEdge call is an input: whether loading and validating succeed,
 * the function list the runtime reports, and what running a function yields.
 */
module Executor {
  import opened WasmValues
  import opened Outcomes
  import opened OrderedMap
  import opened Catalog
  import opened Render

  /** What VMRunWasmFromFile gives back with a one-slot result buffer. */
  datatype CallOutcome = Trap | Returned(result: Value)

  /** VMRunWasmFromFile(path, function name, parameters). */
  type Runner = (string, string, seq<Value>) -> CallOutcome

  /** One row of the exported-function listing. */
  datatype FuncRow = FuncRow(funcname: string, inputs: string, outputs: string)

  /** The parameters passed to the runtime, one per argument; needs a catalogued kind for each. */
  function MarshalArgs(inputs: seq<string>, args: seq<i64>): seq<Value>
    requires |args| <= |inputs|
  {
    seq(|args|, i requires 0 <= i < |args| => MarshalArg(inputs[i], args[i]))
  }

  /** What the guest reads from each parameter of a call: the argument, wrapped to 32 bits in an "integer" slot. */
  lemma MarshalArgsSeenByGuest(inputs: seq<string>, args: seq<i64>)
    requires |args| <= |inputs|
    ensures |MarshalArgs(inputs, args)| == |args|
    ensures forall i :: 0 <= i < |args| && inputs[i] == INTEGER ==>
              MarshalArgs(inputs, args)[i].ty == I32 && GetI32(MarshalArgs(inputs, args)[i]) == Wrap32(args[i])
    ensures forall i :: 0 <= i < |args| && inputs[i] != INTEGER ==>
              MarshalArgs(inputs, args)[i].ty == I64 && GetI64(MarshalArgs(inputs, args)[i]) == args[i]
  {
    forall i | 0 <= i < |args| {
      MarshalArgSeenByGuest(inputs[i], args[i]);
    }
  }

  /**
   * Invoking an accepted export passes each argument in a cell of the type the
   * export declares for that parameter.
   */
  lemma MarshalledCellsHaveDeclaredTypes(e: ExportEntry, args: seq<i64>)
    requires Describe(e).Ok? && |args| <= |e.params|
    ensures |Describe(e).value.inputs| == |e.params|
    ensures forall i :: 0 <= i < |args| ==> MarshalArgs(Describe(e).value.inputs, args)[i].ty == e.params[i]
  {
    DescribeAccepts(e);
    KindMatchesType(e);
    var inputs := Describe(e).value.inputs;
    forall i | 0 <= i < |args|
      ensures MarshalArgs(inputs, args)[i].ty == e.params[i]
    {
      MarshalArgSeenByGuest(inputs[i], args[i]);
    }
  }

  /** The path stored for id, or "" when there is none. */
  function PathIn(instances: map<int, string>, id: int): string {
    if id in instances then instances[id] else ""
  }

  /** The outcome of invoking funcname of instance id with args, given both maps and the runtime. */
  function InvokeOutcome(instances: map<int, string>, catalogs: map<int, seq<FuncInfo>>,
                         id: int, funcname: string, args: seq<i64>, run: Runner): Result<i64>
  {
    var path := PathIn(instances, id);
    if path == "" then Err(InstanceNotFound(id))
    else if id !in catalogs then Err(CatalogNotFound(id))
    else
      match FirstNamed(catalogs[id], funcname)
      case None => Err(FunctionNotFound(id, funcname))
      case Some(f) =>
        if |args| > |f.inputs| then Err(InputIndexOutOfRange(|f.inputs|))
        else
          match run(path, funcname, MarshalArgs(f.inputs, args))
          case Trap => Err(CallFailed(funcname))
          case Returned(v) => Ok(UnmarshalResult(f.outputs, v))
  }

  /**
   * There is no arity check: a call with no more arguments than catalogued
   * kinds goes to the runtime as it is, so it fails only if the runtime call
   * fails; a call with more arguments reads past the catalogued kinds.
   */
  lemma InvokeHasNoArityCheck(instances: map<int, string>, catalogs: map<int, seq<FuncInfo>>,
                              id: int, funcname: string, args: seq<i64>, run: Runner, f: FuncInfo)
    requires PathIn(instances, id) != "" && id in catalogs
    requires FirstNamed(catalogs[id], funcname) == Some(f)
    ensures |args| <= |f.inputs| && InvokeOutcome(instances, catalogs, id, funcname, args, run).Err? ==>
              InvokeOutcome(instances, catalogs, id, funcname, args, run) == Err(CallFailed(funcname))
    ensures |args| > |f.inputs| ==>
              InvokeOutcome(instances, catalogs, id, funcname, args, run) == Err(InputIndexOutOfRange(|f.inputs|))
  {
  }

  /** Invocation fails for an unregistered id, and for a registered one whose catalog was never built. */
  lemma InvokeNeedsInstanceAndCatalog(instances: map<int, string>, catalogs: map<int, seq<FuncInfo>>,
                                      id: int, funcname: string, args: seq<i64>, run: Runner)
    ensures id !in instances ==> InvokeOutcome(instances, catalogs, id, funcname, args, run) == Err(InstanceNotFound(id))
    ensures PathIn(instances, id) != "" && id !in catalogs ==>
              InvokeOutcome(instances, catalogs, id, funcname, args, run) == Err(CatalogNotFound(id))
    ensures InvokeOutcome(instances, catalogs, id, funcname, args, run).Ok? ==>
              id in instances && id in catalogs && FirstNamed(catalogs[id], funcname).Some?
  {
  }

  /**
   * A guest result of the catalogued kind reaches the caller unchanged: an
   * "integer" function's i32 result is sign-extended, a "bigint" one's passed on.
   */
  lemma InvokeReturnsGuestResult(instances: map<int, string>, catalogs: map<int, seq<FuncInfo>>,
                                 id: int, funcname: string, args: seq<i64>, run: Runner, f: FuncInfo, y: i64)
    requires PathIn(instances, id) != "" && id in catalogs
    requires FirstNamed(catalogs[id], funcname) == Some(f) && |args| <= |f.inputs|
    requires f.outputs == INTEGER ==>
               (-TWO_31 <= y < TWO_31 && run(instances[id], funcname, MarshalArgs(f.inputs, args)) == Returned(GenI32(y)))
    requires f.outputs != INTEGER ==> run(instances[id], funcname, MarshalArgs(f.inputs, args)) == Returned(GenI64(y))
    ensures InvokeOutcome(instances, catalogs, id, funcname, args, run) == Ok(y)
  {
    if f.outputs == INTEGER {
      GetGenI32(y);
    } else {
      GetGenI64(y);
    }
  }

  /** The listing row of each catalog entry, in catalog order. */
  function RowsOf(fs: seq<FuncInfo>): seq<FuncRow> {
    seq(|fs|, i requires 0 <= i < |fs| => FuncRow(fs[i].funcname, Join(fs[i].inputs), fs[i].outputs))
  }

  /** The per-row loop of the listing: each entry with its kinds rendered. */
  method RenderRows(fs: seq<FuncInfo>) returns (rows: seq<FuncRow>)
    ensures rows == RowsOf(fs)
  {
    rows := [];
    for i := 0 to |fs|
      invariant rows == RowsOf(fs[..i])
    {
      var inputs := RenderInputs(fs[i].inputs);
      rows := rows + [FuncRow(fs[i].funcname, inputs, fs[i].outputs)];
    }
    assert fs[..|fs|] == fs;
  }

  /** The catalog kept for an instance after its listing was asked for. */
  function CatalogsAfterQuery(instances: map<int, string>, catalogs: map<int, seq<FuncInfo>>,
                              id: int, exports: seq<ExportEntry>): map<int, seq<FuncInfo>>
  {
    if PathIn(instances, id) == "" || id in catalogs then catalogs
    else catalogs[id := BuildCatalog(Window(exports)).cached]
  }

  /**
   * The catalog is built at most once per instance: the first listing stores
   * what it built, whether or not an export stopped the build, and every later
   * listing answers that stored catalog whatever the runtime would now report.
   */
  lemma CatalogBuiltOnce(instances: map<int, string>, catalogs: map<int, seq<FuncInfo>>,
                         id: int, exports: seq<ExportEntry>, later: seq<ExportEntry>)
    requires PathIn(instances, id) != "" && id !in catalogs
    ensures var c := CatalogsAfterQuery(instances, catalogs, id, exports);
            && id in c && c[id] == BuildCatalog(Window(exports)).cached
            && CatalogsAfterQuery(instances, c, id, later) == c
    ensures BuildCatalog(Window(exports)).failure.Some? ==>
              |CatalogsAfterQuery(instances, catalogs, id, exports)[id]| < |Window(exports)|
  {
  }

  /** A catalog exists only for an id whose path is non-empty, and every catalog is well formed. */
  ghost predicate CatalogsConsistent(instances: map<int, string>, catalogs: map<int, seq<FuncInfo>>) {
    forall id :: id in catalogs ==> PathIn(instances, id) != "" && WellFormedCatalog(catalogs[id])
  }

  lemma CatalogsConsistentAfterBuild(instances: map<int, string>, catalogs: map<int, seq<FuncInfo>>,
                                     id: int, fs: seq<FuncInfo>)
    requires CatalogsConsistent(instances, catalogs)
    requires PathIn(instances, id) != "" && WellFormedCatalog(fs)
    ensures CatalogsConsistent(instances, catalogs[id := fs])
  {
  }

  /** Storing a well-formed catalog for a registered instance keeps the catalog map consistent. */
  lemma CachePut(instances: map<int, string>, es: Entries<seq<FuncInfo>>, id: int, fs: seq<FuncInfo>)
    requires Ascending(es) && CatalogsConsistent(instances, ToMap(es))
    requires PathIn(instances, id) != "" && WellFormedCatalog(fs)
    ensures Ascending(Put(es, id, fs))
    ensures ToMap(Put(es, id, fs)) == ToMap(es)[id := fs]
    ensures CatalogsConsistent(instances, ToMap(Put(es, id, fs)))
  {
    CatalogsConsistentAfterBuild(instances, ToMap(es), id, fs);
  }

  /**
   * The process-wide maps `instances` (id to canonical path) and
   * `exported_functions` (id to that instance's function catalog), each held
   * as the ascending walk of its std::map.
   */
  class Registry {
    var instances: Entries<string>
    var exportedFunctions: Entries<seq<FuncInfo>>

    ghost function Instances(): map<int, string>
      reads this
    {
      ToMap(instances)
    }

    ghost function Catalogs(): map<int, seq<FuncInfo>>
      reads this
    {
      ToMap(exportedFunctions)
    }

    /**
     * Both maps are ordered by key; a catalog exists only for an id whose
     * path is non-empty, and every catalog is well formed.
     */
    ghost predicate Valid()
      reads this
    {
      && Ascending(instances)
      && Ascending(exportedFunctions)
      && CatalogsConsistent(Instances(), Catalogs())
    }

    /** Both maps start empty when the library is loaded. */
    constructor ()
      ensures Valid() && instances == [] && exportedFunctions == []
    {
      instances := [];
      exportedFunctions := [];
    }

    /** find_wasm_file: the path stored for id, or "" when none is. */
    method FindWasmFile(id: int) returns (path: string)
      requires Valid()
      ensures id in Instances() ==> path == Instances()[id]
      ensures id !in Instances() ==> path == ""
    {
      var found := Find(instances, id);
      if found.Some? {
        return found.value;
      }
      return "";
    }

    /** find_exported_func_list: the catalog built for id, if any. */
    method FindExportedFuncList(id: int) returns (functions: Option<seq<FuncInfo>>)
      requires Valid()
      ensures id in Catalogs() ==> functions == Some(Catalogs()[id])
      ensures id !in Catalogs() ==> functions == None
    {
      functions := Find(exportedFunctions, id);
    }

    /** find_exported_func: the first catalog entry named funcname, walking the catalog in order. */
    method FindExportedFunc(id: int, funcname: string) returns (r: Result<FuncInfo>)
      requires Valid()
      ensures id !in Catalogs() ==> r == Err(CatalogNotFound(id))
      ensures id in Catalogs() && FirstNamed(Catalogs()[id], funcname).None? ==> r == Err(FunctionNotFound(id, funcname))
      ensures id in Catalogs() && FirstNamed(Catalogs()[id], funcname).Some? ==>
                r == Ok(FirstNamed(Catalogs()[id], funcname).value)
    {
      var functions := FindExportedFuncList(id);
      if functions.None? {
        return Err(CatalogNotFound(id));
      }
      var fs := functions.value;
      for i := 0 to |fs|
        invariant forall j :: 0 <= j < i ==> fs[j].funcname != funcname
      {
        if fs[i].funcname == funcname {
          return Ok(fs[i]);
        }
      }
      return Err(FunctionNotFound(id, funcname));
    }

    /**
     * wasm_create_instance, past the hashing of the path text into uuid and
     * the canonicalization of the path: create-or-get. An id that already has
     * a path is answered at once; otherwise the instance is registered only
     * if the file loads and validates.
     */
    method CreateInstance(uuid: u32, filepath: string, isSuperuser: bool, loadOk: bool, validateOk: bool)
      returns (r: Result<int>)
      requires Valid()
      modifies this
      ensures Valid()
      ensures exportedFunctions == old(exportedFunctions)
      ensures !isSuperuser ==> r == Err(NotSuperuser) && instances == old(instances)
      ensures isSuperuser && old(PathIn(Instances(), uuid)) != "" ==> r == Ok(uuid) && instances == old(instances)
      ensures isSuperuser && old(PathIn(Instances(), uuid)) == "" && !loadOk ==>
                r == Err(LoadFailed(filepath)) && instances == old(instances)
      ensures isSuperuser && old(PathIn(Instances(), uuid)) == "" && loadOk && !validateOk ==>
                r == Err(ValidationFailed(filepath)) && instances == old(instances)
      ensures isSuperuser && old(PathIn(Instances(), uuid)) == "" && loadOk && validateOk ==>
                && r == Ok(uuid)
                && instances == Insert(old(instances), uuid, filepath)
                && (uuid !in old(Instances()) ==> Instances() == old(Instances())[uuid := filepath])
                && (uuid in old(Instances()) ==> Instances() == old(Instances()))
    {
      if !isSuperuser {
        return Err(NotSuperuser);
      }
      var wasmFile := FindWasmFile(uuid);
      if wasmFile != "" {
        return Ok(uuid);
      }
      if !loadOk {
        return Err(LoadFailed(filepath));
      }
      if !validateOk {
        return Err(ValidationFailed(filepath));
      }
      ghost var before := Instances();
      instances := Insert(instances, uuid, filepath);
      assert forall id :: id in Catalogs() ==> PathIn(Instances(), id) == PathIn(before, id);
      return Ok(uuid);
    }

    /** wasm_get_instances: every (id, path) pair, walking the map in ascending id order. */
    method GetInstances() returns (rows: seq<(int, string)>)
      requires Valid()
      ensures Ascending(rows) && ToMap(rows) == Instances()
    {
      rows := [];
      var i := 0;
      while i < |instances|
        invariant 0 <= i <= |instances|
        invariant rows == instances[..i]
      {
        rows := rows + [instances[i]];
        i := i + 1;
      }
      assert instances[..i] == instances;
    }

    /**
     * wasm_export_funcs_query: answers a catalog already built for id as it
     * is; otherwise registers an empty catalog first and appends one entry per
     * accepted export, so a rejected export leaves the entries before it cached.
     */
    method ExportFuncsQuery(id: int, exports: seq<ExportEntry>) returns (r: Result<seq<FuncInfo>>)
      requires Valid()
      modifies this
      ensures Valid() && instances == old(instances)
      ensures Catalogs() == CatalogsAfterQuery(old(Instances()), old(Catalogs()), id, exports)
      ensures old(PathIn(Instances(), id)) == "" ==>
                r == Err(InstanceNotFound(id)) && exportedFunctions == old(exportedFunctions)
      ensures old(PathIn(Instances(), id)) != "" && id in old(Catalogs()) ==>
                r == Ok(old(Catalogs())[id]) && exportedFunctions == old(exportedFunctions)
      ensures old(PathIn(Instances(), id)) != "" && id !in old(Catalogs()) ==>
                var b := BuildCatalog(Window(exports));
                r == (if b.failure.None? then Ok(b.cached) else Err(b.failure.value))
    {
      var wasmFile := FindWasmFile(id);
      if wasmFile == "" {
        return Err(InstanceNotFound(id));
      }
      var existing := FindExportedFuncList(id);
      if existing.Some? {
        return Ok(existing.value);
      }
      r := BuildAndCache(id, exports);
    }

    /**
     * The first build of id's catalog: an empty catalog is registered before
     * the runtime's list is walked, and each accepted export is appended to it
     * in place, up to the BUF_LEN entries the buffers hold.
     */
    method BuildAndCache(id: int, exports: seq<ExportEntry>) returns (r: Result<seq<FuncInfo>>)
      requires Valid() && PathIn(Instances(), id) != "" && id !in Catalogs()
      modifies this
      ensures Valid() && instances == old(instances)
      ensures Catalogs() == old(Catalogs())[id := BuildCatalog(Window(exports)).cached]
      ensures var b := BuildCatalog(Window(exports));
              r == (if b.failure.None? then Ok(b.cached) else Err(b.failure.value))
    {
      var functions: seq<FuncInfo> := [];
      ToMapHasKey(exportedFunctions, id);
      exportedFunctions := Insert(exportedFunctions, id, functions);
      var i := 0;
      while i < |exports| && i < BUF_LEN
        invariant 0 <= i <= |exports| && i <= BUF_LEN
        invariant instances == old(instances)
        invariant exportedFunctions == Put(old(exportedFunctions), id, functions)
        invariant BuildCatalog(exports[..i]) == CatalogBuild(functions, None)
        invariant WellFormedCatalog(functions) && |functions| == i
      {
        var d := DescribeExport(exports[i]);
        BuildCatalogStep(exports, i);
        if d.Err? {
          WindowStops(exports, i + 1);
          CachePut(Instances(), old(exportedFunctions), id, functions);
          return Err(d.error);
        }
        DescribeAccepts(exports[i]);
        WellFormedAppend(functions, d.value);
        PutTwice(old(exportedFunctions), id, functions, functions + [d.value]);
        functions := functions + [d.value];
        exportedFunctions := Put(exportedFunctions, id, functions);
        i := i + 1;
      }
      CachePut(Instances(), old(exportedFunctions), id, functions);
      assert exports[..i] == Window(exports);
      return Ok(functions);
    }

    /**
     * wasm_get_exported_functions: the catalog of id as rows, each with its
     * parameter kinds rendered as one comma-separated column.
     */
    method GetExportedFunctions(id: int, exports: seq<ExportEntry>) returns (r: Result<seq<FuncRow>>)
      requires Valid()
      modifies this
      ensures Valid() && instances == old(instances)
      ensures Catalogs() == CatalogsAfterQuery(old(Instances()), old(Catalogs()), id, exports)
      ensures old(PathIn(Instances(), id)) == "" ==> r == Err(InstanceNotFound(id))
      ensures old(PathIn(Instances(), id)) != "" && id in old(Catalogs()) ==> r == Ok(RowsOf(old(Catalogs())[id]))
      ensures old(PathIn(Instances(), id)) != "" && id !in old(Catalogs()) ==>
                var b := BuildCatalog(Window(exports));
                r == (if b.failure.None? then Ok(RowsOf(b.cached)) else Err(b.failure.value))
    {
      var q := ExportFuncsQuery(id, exports);
      if q.Err? {
        return Err(q.error);
      }
      var rows := RenderRows(q.value);
      return Ok(rows);
    }

    /**
     * wasm_invoke_function: looks up the path and the catalog entry, fills
     * one parameter per argument by the catalogued kind, runs the function
     * and widens its result by the catalogued result kind.
     */
    method InvokeFunction(id: i64, funcname: string, args: seq<i64>, run: Runner) returns (r: Result<i64>)
      requires Valid()
      ensures r == InvokeOutcome(Instances(), Catalogs(), id, funcname, args, run)
    {
      var wasmFile := FindWasmFile(id);
      if wasmFile == "" {
        return Err(InstanceNotFound(id));
      }
      var found := FindExportedFunc(id, funcname);
      if found.Err? {
        return Err(found.error);
      }
      var info := found.value;
      var params := new Value[|args|];
      var i := 0;
      while i < |args|
        invariant 0 <= i <= |args| && i <= |info.inputs|
        invariant forall j :: 0 <= j < i ==> params[j] == MarshalArg(info.inputs[j], args[j])
      {
        if i >= |info.inputs| {
          return Err(InputIndexOutOfRange(i));
        }
        params[i] := MarshalArg(info.inputs[i], args[i]);
        i := i + 1;
      }
      assert params[..] == MarshalArgs(info.inputs, args);
      var outcome := run(wasmFile, funcname, params[..]);
      if outcome.Trap? {
        return Err(CallFailed(funcname));
      }
      return Ok(UnmarshalResult(info.outputs, outcome.result));
    }

    /*
     * wasm_invoke_function_0 .. wasm_invoke_function_10: the SQL entry points
     * for each arity, which collect their arguments in order and call
     * wasm_invoke_function.
     */

    method InvokeFunction0(id: i64, funcname: string, run: Runner) returns (r: Result<i64>)
      requires Valid()
      ensures r == InvokeOutcome(Instances(), Catalogs(), id, funcname, [], run)
    {
      r := InvokeFunction(id, funcname, [], run);
    }

    method InvokeFunction1(id: i64, funcname: string, a0: i64, run: Runner) returns (r: Result<i64>)
      requires Valid()
      ensures r == InvokeOutcome(Instances(), Catalogs(), id, funcname, [a0], run)
    {
      r := InvokeFunction(id, funcname, [a0], run);
    }

    method InvokeFunction2(id: i64, funcname: string, a0: i64, a1: i64, run: Runner) returns (r: Result<i64>)
      requires Valid()
      ensures r == InvokeOutcome(Instances(), Catalogs(), id, funcname, [a0, a1], run)
    {
      r := InvokeFunction(id, funcname, [a0, a1], run);
    }

    method InvokeFunction3(id: i64, funcname: string, a0: i64, a1: i64, a2: i64, run: Runner) returns (r: Result<i64>)
      requires Valid()
      ensures r == InvokeOutcome(Instances(), Catalogs(), id, funcname, [a0, a1, a2], run)
    {
      r := InvokeFunction(id, funcname, [a0, a1, a2], run);
    }

    method InvokeFunction4(id: i64, funcname: string, a0: i64, a1: i64, a2: i64, a3: i64, run: Runner) returns (r: Result<i64>)
      requires Valid()
      ensures r == InvokeOutcome(Instances(), Catalogs(), id, funcname, [a0, a1, a2, a3], run)
    {
      r := InvokeFunction(id, funcname, [a0, a1, a2, a3], run);
    }

    method InvokeFunction5(id: i64, funcname: string, a0: i64, a1: i64, a2: i64, a3: i64, a4: i64, run: Runner) returns (r: Result<i64>)
      requires Valid()
      ensures r == InvokeOutcome(Instances(), Catalogs(), id, funcname, [a0, a1, a2, a3, a4], run)
    {
      r := InvokeFunction(id, funcname, [a0, a1, a2, a3, a4], run);
    }

    method InvokeFunction6(id: i64, funcname: string, a0: i64, a1: i64, a2: i64, a3: i64, a4: i64, a5: i64, run: Runner) returns (r: Result<i64>)
      requires Valid()
      ensures r == InvokeOutcome(Instances(), Catalogs(), id, funcname, [a0, a1, a2, a3, a4, a5], run)
    {
      r := InvokeFunction(id, funcname, [a0, a1, a2, a3, a4, a5], run);
    }

    method InvokeFunction7(id: i64, funcname: string, a0: i64, a1: i64, a2: i64, a3: i64, a4: i64, a5: i64, a6: i64, run: Runner) returns (r: Result<i64>)
      requires Valid()
      ensures r == InvokeOutcome(Instances(), Catalogs(), id, funcname, [a0, a1, a2, a3, a4, a5, a6], run)
    {
      r := InvokeFunction(id, funcname, [a0, a1, a2, a3, a4, a5, a6], run);
    }

    method InvokeFunction8(id: i64, funcname: string, a0: i64, a1: i64, a2: i64, a3: i64, a4: i64, a5: i64, a6: i64, a7: i64, run: Runner) returns (r: Result<i64>)
      requires Valid()
      ensures r == InvokeOutcome(Instances(), Catalogs(), id, funcname, [a0, a1, a2, a3, a4, a5, a6, a7], run)
    {
      r := InvokeFunction(id, funcname, [a0, a1, a2, a3, a4, a5, a6, a7], run);
    }

    method InvokeFunction9(id: i64, funcname: string, a0: i64, a1: i64, a2: i64, a3: i64, a4: i64, a5: i64, a6: i64, a7: i64, a8: i64, run: Runner) returns (r: Result<i64>)
      requires Valid()
      ensures r == InvokeOutcome(Instances(), Catalogs(), id, funcname, [a0, a1, a2, a3, a4, a5, a6, a7, a8], run)
    {
      r := InvokeFunction(id, funcname, [a0, a1, a2, a3, a4, a5, a6, a7, a8], run);
    }

    method InvokeFunction10(id: i64, funcname: string, a0: i64, a1: i64, a2: i64, a3: i64, a4: i64, a5: i64, a6: i64, a7: i64, a8: i64, a9: i64, run: Runner) returns (r: Result<i64>)
      requires Valid()
      ensures r == InvokeOutcome(Instances(), Catalogs(), id, funcname, [a0, a1, a2, a3, a4, a5, a6, a7, a8, a9], run)
    {
      r := InvokeFunction(id, funcname, [a0, a1, a2, a3, a4, a5, a6, a7, a8, a9], run);
    }
  }
}

/**
 * A worked run of the entry points: register a module that exports
 * add(i64, i64) -> i64, list its functions, and call add(40, 2).
 */
module Example {
  import opened WasmValues
  import opened Outcomes
  import opened Catalog
  import opened Render
  import opened Executor

  /** A runtime whose every function adds its first two parameters as int64. */
  function AddingRuntime(path: string, name: string, params: seq<Value>): CallOutcome {
    if |params| < 2 then Trap
    else Returned(GenI64(Signed64((GetI64(params[0]) + GetI64(params[1])) % TWO_64)))
  }

  const ADD_EXPORT := ExportEntry("add", [I64, I64], [I64], I32)
  const ADD_INFO := FuncInfo("add", [BIGINT, BIGINT], BIGINT)

  /** add(i64, i64) -> i64 is catalogued with two "bigint" inputs and a "bigint" output. */
  lemma AddCatalogued()
    ensures Describe(ADD_EXPORT) == Ok(ADD_INFO)
    ensures BuildCatalog(Window([ADD_EXPORT])) == CatalogBuild([ADD_INFO], None)
  {
    var ks := ParamKinds(ADD_EXPORT.params);
    assert ks.Ok? && ks.value == [BIGINT, BIGINT];
    assert [ADD_EXPORT][..0] == [];
  }

  /** Its listing row renders the inputs as "bigint,bigint". */
  lemma AddListed()
    ensures RowsOf([ADD_INFO]) == [FuncRow("add", "bigint,bigint", "bigint")]
  {
    assert ADD_INFO.inputs[..1] == [BIGINT];
    assert Join(ADD_INFO.inputs) == BIGINT + "," + BIGINT;
    assert BIGINT + "," + BIGINT == "bigint,bigint";
  }

  /** Calling add(40, 2) once it is catalogued passes both arguments as I64 and returns 42. */
  lemma AddInvoked(instances: map<int, string>, catalogs: map<int, seq<FuncInfo>>)
    requires PathIn(instances, 7) != "" && 7 in catalogs && catalogs[7] == [ADD_INFO]
    ensures InvokeOutcome(instances, catalogs, 7, "add", [40, 2], AddingRuntime) == Ok(42)
  {
    var args := MarshalArgs(ADD_INFO.inputs, [40, 2]);
    assert args == [GenI64(40), GenI64(2)];
    GetGenI64(40);
    GetGenI64(2);
    GetGenI64(42);
  }

  method AddExample() returns (rows: Result<seq<FuncRow>>, sum: Result<i64>)
    ensures rows == Ok([FuncRow("add", "bigint,bigint", "bigint")])
    ensures sum == Ok(42)
  {
    var registry := new Registry();
    var created := registry.CreateInstance(7, "/opt/wasm/add.wasm", true, true, true);
    assert created == Ok(7);
    AddCatalogued();
    AddListed();
    rows := registry.GetExportedFunctions(7, [ADD_EXPORT]);
    AddInvoked(registry.Instances(), registry.Catalogs());
    sum := registry.InvokeFunction2(7, "add", 40, 2, AddingRuntime);
  }
}
