/**
 * The function catalog: how one entry of the runtime's exported-function
 * list is checked and turned into a WasmFuncInfo, how the list is built
 * entry by entry, and how a name is resolved in it.
 */
module Catalog {
  import opened WasmValues
  import opened Outcomes

  /** Length of the name buffer and of the function-list buffers. */
  const BUF_LEN: nat := 256
  const MAX_PARAMS: nat := 10
  const MAX_RETURNS: nat := 1

  /**
   * One entry of VMGetFunctionList: the export's name and its function type.
   * Names are byte strings: each char stands for one byte, and a name holds no
   * NUL byte. `residue` is whatever the first slot of the type buffer holds
   * when the function has neither parameters nor results (the buffer is read
   * without having been written in that case); it is an input because
   * wasm_export_funcs_query leaves it indeterminate.
   */
  datatype ExportEntry = ExportEntry(name: string, params: seq<ValType>, results: seq<ValType>, residue: ValType)

  /** WasmFuncInfo: the name, the parameter kinds and the result kind. */
  datatype FuncInfo = FuncInfo(funcname: string, inputs: seq<string>, outputs: string)

  /** The outcome of a catalog build: what got appended, and the error that stopped it, if any. */
  datatype CatalogBuild = CatalogBuild(cached: seq<FuncInfo>, failure: Option<Error>)

  predicate Supported(t: ValType) {
    t == I32 || t == I64
  }

  /** The kind name stored for a value type; only I32 and I64 have one. */
  function KindName(t: ValType): (r: Option<string>)
    ensures r.Some? <==> Supported(t)
    ensures r.Some? ==> IsKind(r.value)
    ensures r == Some(INTEGER) <==> t == I32
    ensures r == Some(BIGINT) <==> t == I64
  {
    match t
    case I32 => Some(INTEGER)
    case I64 => Some(BIGINT)
    case _ => None
  }

  /** What fits in a buffer of n slots: the first n elements, or all of them when there are fewer. */
  function Clip<T>(s: seq<T>, n: nat): (r: seq<T>)
    ensures |r| <= n && r <= s
    ensures |s| <= n ==> r == s
    ensures |s| > n ==> |r| == n
  {
    if |s| <= n then s else s[..n]
  }

  /** StringCopy into the BUF_LEN name buffer, then the string of the copied length. */
  function CopiedName(name: string): (r: string)
    ensures |r| <= BUF_LEN && r <= name
    ensures |name| <= BUF_LEN ==> r == name
  {
    Clip(name, BUF_LEN)
  }

  /**
   * The type read as the result kind: the first slot of the type buffer after
   * the results were written into it. With no result that slot still holds
   * the first parameter type, or nothing written at all.
   */
  function ReturnSlot(e: ExportEntry): ValType {
    if |e.results| > 0 then e.results[0]
    else if |e.params| > 0 then e.params[0]
    else e.residue
  }

  /** The type buffer after `written` was copied into its first slots over `buf`. */
  function Overwrite(buf: seq<ValType>, written: seq<ValType>): (r: seq<ValType>)
    requires |written| <= |buf|
    ensures |r| == |buf|
    ensures forall i :: 0 <= i < |written| ==> r[i] == written[i]
    ensures forall i :: |written| <= i < |buf| ==> r[i] == buf[i]
  {
    written + buf[|written|..]
  }

  /**
   * The ten-slot `param_buffer` as the result kind is read from it: never
   * written before (every slot holds the residue), then overwritten by the
   * parameter types, then by the result types.
   */
  function TypeBufferAtReturns(e: ExportEntry): seq<ValType>
    requires |e.params| <= MAX_PARAMS && |e.results| <= MAX_RETURNS
  {
    Overwrite(Overwrite(seq(MAX_PARAMS, _ => e.residue), e.params), e.results)
  }

  /** ReturnSlot is the first slot of that buffer, for every export that passed the count checks. */
  lemma ReturnSlotIsBufferHead(e: ExportEntry)
    requires |e.params| <= MAX_PARAMS && |e.results| <= MAX_RETURNS
    ensures ReturnSlot(e) == TypeBufferAtReturns(e)[0]
  {
  }

  /** The parameter kinds in order, or the first parameter type that has no kind. */
  function ParamKinds(ps: seq<ValType>): (r: Result<seq<string>>)
    ensures r.Ok? <==> forall i :: 0 <= i < |ps| ==> Supported(ps[i])
    ensures r.Ok? ==> |r.value| == |ps| && forall i :: 0 <= i < |ps| ==> KindName(ps[i]) == Some(r.value[i])
    ensures r.Err? ==> exists i :: 0 <= i < |ps| && !Supported(ps[i]) && r.error == UnsupportedType(ps[i])
                                   && forall j :: 0 <= j < i ==> Supported(ps[j])
    decreases |ps|
  {
    if ps == [] then Ok([])
    else
      var front := ps[..|ps| - 1];
      assert forall i :: 0 <= i < |front| ==> front[i] == ps[i];
      match ParamKinds(front)
      case Err(e) => Err(e)
      case Ok(ks) =>
        match KindName(ps[|ps| - 1])
        case None => Err(UnsupportedType(ps[|ps| - 1]))
        case Some(k) => Ok(ks + [k])
  }

  /** The checks and the translation wasm_export_funcs_query applies to one exported function, in its order. */
  function Describe(e: ExportEntry): Result<FuncInfo> {
    if |e.params| > MAX_PARAMS then Err(TooManyParams(CopiedName(e.name)))
    else if |e.results| > MAX_RETURNS then Err(TooManyReturns(CopiedName(e.name)))
    else
      match ParamKinds(e.params)
      case Err(err) => Err(err)
      case Ok(ks) =>
        match KindName(ReturnSlot(e))
        case None => Err(UnsupportedType(ReturnSlot(e)))
        case Some(k) => Ok(FuncInfo(CopiedName(e.name), ks, k))
  }

  ghost predicate WellFormedInfo(f: FuncInfo) {
    && |f.funcname| <= BUF_LEN
    && |f.inputs| <= MAX_PARAMS
    && (forall i :: 0 <= i < |f.inputs| ==> IsKind(f.inputs[i]))
    && IsKind(f.outputs)
  }

  /** Every catalog the executor keeps: at most BUF_LEN well-formed entries. */
  ghost predicate WellFormedCatalog(fs: seq<FuncInfo>) {
    |fs| <= BUF_LEN && forall i :: 0 <= i < |fs| ==> WellFormedInfo(fs[i])
  }

  /**
   * An export is accepted exactly when it has at most MAX_PARAMS parameters,
   * at most MAX_RETURNS results, and only I32/I64 parameter and result slot;
   * its entry then maps the parameters to kinds in order.
   */
  lemma DescribeAccepts(e: ExportEntry)
    ensures Describe(e).Ok? <==>
              && |e.params| <= MAX_PARAMS
              && |e.results| <= MAX_RETURNS
              && (forall i :: 0 <= i < |e.params| ==> Supported(e.params[i]))
              && Supported(ReturnSlot(e))
    ensures Describe(e).Ok? ==>
              var f := Describe(e).value;
              && f.funcname == CopiedName(e.name)
              && |f.inputs| == |e.params|
              && (forall i :: 0 <= i < |e.params| ==> KindName(e.params[i]) == Some(f.inputs[i]))
              && KindName(ReturnSlot(e)) == Some(f.outputs)
              && WellFormedInfo(f)
  {
    var r := ParamKinds(e.params);
    if Describe(e).Ok? {
      var f := Describe(e).value;
      assert forall i :: 0 <= i < |f.inputs| ==> KindName(e.params[i]) == Some(f.inputs[i]);
    }
  }

  /**
   * The kinds of an accepted export name its types back: a parameter or the
   * result slot is "integer" exactly when it is I32, which is what decides the
   * 32-bit path when the function is invoked.
   */
  lemma KindMatchesType(e: ExportEntry)
    requires Describe(e).Ok?
    ensures forall i :: 0 <= i < |e.params| ==> (Describe(e).value.inputs[i] == INTEGER <==> e.params[i] == I32)
    ensures forall i :: 0 <= i < |e.params| ==> (Describe(e).value.inputs[i] == BIGINT <==> e.params[i] == I64)
    ensures Describe(e).value.outputs == INTEGER <==> ReturnSlot(e) == I32
  {
    DescribeAccepts(e);
  }

  /** The rejections, in the order wasm_export_funcs_query checks them. */
  lemma DescribeRejects(e: ExportEntry)
    ensures |e.params| > MAX_PARAMS ==> Describe(e) == Err(TooManyParams(CopiedName(e.name)))
    ensures |e.params| <= MAX_PARAMS && |e.results| > MAX_RETURNS ==> Describe(e) == Err(TooManyReturns(CopiedName(e.name)))
    ensures |e.params| <= MAX_PARAMS && |e.results| <= MAX_RETURNS && Describe(e).Err? ==>
              Describe(e).error.UnsupportedType? &&
              ((exists i :: 0 <= i < |e.params| && !Supported(e.params[i]) && Describe(e).error.ty == e.params[i]) ||
               Describe(e).error.ty == ReturnSlot(e))
  {
  }

  /**
   * A function with no result is not rejected: with at least one parameter it
   * is catalogued with its first parameter's kind as its result kind.
   */
  lemma NoResultTakesFirstParamKind(e: ExportEntry)
    requires e.results == [] && 0 < |e.params| <= MAX_PARAMS
    requires forall i :: 0 <= i < |e.params| ==> Supported(e.params[i])
    ensures Describe(e).Ok?
    ensures Describe(e).value.outputs == Describe(e).value.inputs[0]
  {
    DescribeAccepts(e);
  }

  /**
   * The catalog built from an export list: entries are appended in list order
   * until the first rejected export, which stops the build with its error.
   */
  function BuildCatalog(es: seq<ExportEntry>): (b: CatalogBuild)
    ensures |b.cached| <= |es|
    ensures forall i :: 0 <= i < |b.cached| ==> Describe(es[i]) == Ok(b.cached[i])
    ensures b.failure.None? ==> |b.cached| == |es|
    ensures b.failure.Some? ==> |b.cached| < |es| && Describe(es[|b.cached|]) == Err(b.failure.value)
    decreases |es|
  {
    if es == [] then CatalogBuild([], None)
    else
      var front := es[..|es| - 1];
      assert forall i :: 0 <= i < |front| ==> front[i] == es[i];
      var b := BuildCatalog(front);
      if b.failure.Some? then b
      else
        match Describe(es[|es| - 1])
        case Err(e) => CatalogBuild(b.cached, Some(e))
        case Ok(f) => CatalogBuild(b.cached + [f], None)
  }

  /** One more export either extends an unfinished build or stops it with its error. */
  lemma BuildCatalogStep(es: seq<ExportEntry>, i: nat)
    requires i < |es| && BuildCatalog(es[..i]).failure.None?
    ensures Describe(es[i]).Ok? ==>
              BuildCatalog(es[..i + 1]) == CatalogBuild(BuildCatalog(es[..i]).cached + [Describe(es[i]).value], None)
    ensures Describe(es[i]).Err? ==>
              BuildCatalog(es[..i + 1]) == CatalogBuild(BuildCatalog(es[..i]).cached, Some(Describe(es[i]).error))
  {
    assert es[..i + 1][..i] == es[..i];
  }

  lemma WellFormedAppend(fs: seq<FuncInfo>, f: FuncInfo)
    requires WellFormedCatalog(fs) && WellFormedInfo(f) && |fs| < BUF_LEN
    ensures WellFormedCatalog(fs + [f])
  {
  }

  /** Once a build has failed, looking at further exports changes nothing. */
  lemma {:induction false} BuildCatalogStops(es: seq<ExportEntry>, k: nat)
    requires k <= |es| && BuildCatalog(es[..k]).failure.Some?
    ensures BuildCatalog(es) == BuildCatalog(es[..k])
    decreases |es| - k
  {
    if k == |es| {
      assert es[..k] == es;
    } else {
      assert es[..k + 1][..k] == es[..k];
      BuildCatalogStops(es, k + 1);
    }
  }

  /** Every entry of a built catalog is well formed, and there are at most as many as exports. */
  lemma BuildCatalogWellFormed(es: seq<ExportEntry>)
    requires |es| <= BUF_LEN
    ensures WellFormedCatalog(BuildCatalog(es).cached)
  {
    var b := BuildCatalog(es);
    forall i | 0 <= i < |b.cached|
      ensures WellFormedInfo(b.cached[i])
    {
      DescribeAccepts(es[i]);
    }
  }

  /** The part of the runtime's function list that fits the BUF_LEN buffers. */
  function Window(es: seq<ExportEntry>): seq<ExportEntry> {
    Clip(es, BUF_LEN)
  }

  /** A build that fails within the window is the build of the whole window. */
  lemma WindowStops(es: seq<ExportEntry>, k: nat)
    requires k <= |es| && k <= BUF_LEN && BuildCatalog(es[..k]).failure.Some?
    ensures BuildCatalog(Window(es)) == BuildCatalog(es[..k])
  {
    var w := Window(es);
    assert w[..k] == es[..k];
    BuildCatalogStops(w, k);
  }

  /** The first entry with the given name, in catalog order. */
  function FirstNamed(fs: seq<FuncInfo>, name: string): (r: Option<FuncInfo>)
    ensures r.Some? <==> exists i :: 0 <= i < |fs| && fs[i].funcname == name
    ensures r.Some? ==> exists i :: 0 <= i < |fs| && fs[i] == r.value && fs[i].funcname == name
                                    && forall j :: 0 <= j < i ==> fs[j].funcname != name
    decreases |fs|
  {
    if fs == [] then None
    else if fs[0].funcname == name then Some(fs[0])
    else
      var r := FirstNamed(fs[1..], name);
      assert forall i :: 0 <= i < |fs| - 1 ==> fs[1..][i] == fs[i + 1];
      r
  }

  /**
   * The body of the catalog loop for one export (the parameter kinds are
   * pushed back one by one), giving the same outcome as Describe.
   */
  method DescribeExport(e: ExportEntry) returns (r: Result<FuncInfo>)
    ensures r == Describe(e)
  {
    var name := CopiedName(e.name);
    if |e.params| > MAX_PARAMS {
      return Err(TooManyParams(name));
    }
    if |e.results| > MAX_RETURNS {
      return Err(TooManyReturns(name));
    }
    var inputs: seq<string> := [];
    var j := 0;
    while j < |e.params|
      invariant 0 <= j <= |e.params|
      invariant ParamKinds(e.params[..j]) == Ok(inputs)
    {
      assert e.params[..j + 1][..j] == e.params[..j];
      var k := KindName(e.params[j]);
      if k.None? {
        return Err(UnsupportedType(e.params[j]));
      }
      inputs := inputs + [k.value];
      j := j + 1;
    }
    assert e.params[..j] == e.params;
    var slot := ReturnSlot(e);
    var out := KindName(slot);
    if out.None? {
      return Err(UnsupportedType(slot));
    }
    return Ok(FuncInfo(name, inputs, out.value));
  }
}
