# wasm_executor in Dafny

This project models the openGauss `wasm_executor` extension, which hosts
WebAssembly modules in the database through the WasmEdge runtime. It covers
five parts of the extension:

- **The instance registry.** This is the process-wide `std::map` from an
  instance id to the canonical path of a `.wasm` file, used by
  `wasm_create_instance` (create-or-get), `find_wasm_file` and
  `wasm_get_instances`.
- **The function catalog.** This is the process-wide `std::map` from an
  instance id to a vector of `WasmFuncInfo`, used by
  `wasm_export_funcs_query`, `find_exported_func_list` and
  `find_exported_func`. The catalog is built lazily and once per instance.
  It is registered empty before it is built, so an export that stops the
  build leaves the entries before it cached.
- **Catalog validation.** An export is accepted only with at most 10
  parameters and at most 1 result, and only with I32/I64 slots. An I32 slot
  becomes `"integer"`, an I64 slot `"bigint"`.
- **Invocation.** `wasm_invoke_function` and its eleven per-arity entry
  points `wasm_invoke_function_0` through `wasm_invoke_function_10` handle
  calls:
  - each int64 argument is narrowed to an i32 for an `"integer"` slot and
    passed through as an i64 otherwise;
  - the result cell is widened back by the catalogued result kind.
- **Listing.** `wasm_get_exported_functions` renders each function's
  parameter kinds as one comma-joined column.

Modules:

- `WasmValues` (`values.dfy`): the fixed-width integers, the WasmEdge value
  types and value cells, and the conversions `ValueGenI32/I64` and
  `ValueGetI32/I64`.
- `Outcomes` (`outcomes.dfy`): `Option`, `Result`, and `Error`, which has one
  constructor per kind of `ereport(ERROR, …)`. `InstanceNotFound` covers
  lines 111 and 155, and `UnsupportedType` covers lines 214 and 226.
  `InputIndexOutOfRange` is not an ereport: it stands for the out-of-range
  `inputs[i]` read at line 121.
- `OrderedMap` (`ordered_map.dfy`): a `std::map<int64, V>` held as the
  strictly ascending sequence of its (key, value) pairs. This is exactly
  what the iterator loops of the find functions and of `wasm_get_instances`
  walk. `ToMap` gives the dictionary it stands for. `Insert` is
  `std::map::insert`, which never overwrites. `Put` is an update of the
  value stored under a key.
- `Catalog` (`catalog.dfy`): one export's checks (`Describe`, and the
  imperative `DescribeExport`), and the build of a whole catalog
  (`BuildCatalog`).
- `Render` (`render.dfy`): the comma-join of the parameter kinds and its
  inverse.
- `Executor` (`executor.dfy`): the class `Registry` holding both maps, with
  one method per entry point, and the specification functions
  `InvokeOutcome` and `CatalogsAfterQuery`.
- `Example` (`executor.dfy`): registers a module exporting
  `add(i64, i64) -> i64`, lists it and calls `add(40, 2)`.

Everything WasmEdge decides is an input to the model:

- whether loading and validating a file succeed;
- the function list `VMGetFunctionList` reports (`seq<ExportEntry>`);
- what `VMRunWasmFromFile` returns (a `Runner` function).

Whether the caller is a superuser is also an input, a boolean.

## Model

| member | source | states |
|---|---|---|
| WasmValues.Signed32 | wasm/wasm_executor.cpp:139 | the i32 read from a 32-bit pattern is congruent to it mod 2^32 and is negative exactly when the top bit is set |
| WasmValues.Signed64 | wasm/wasm_executor.cpp:141 | the i64 read from a 64-bit pattern is congruent to it mod 2^64 and is negative exactly when the top bit is set |
| WasmValues.Wrap32 | wasm/wasm_executor.cpp:122 | the int64 to int32 conversion keeps the value mod 2^32 |
| WasmValues.Wrap32Fixes | wasm/wasm_executor.cpp:122 | that conversion leaves a value unchanged exactly when it fits in 32 bits |
| WasmValues.GetGenI32 | wasm/wasm_executor.cpp:122 | reading an I32 cell back gives the i32 it was generated from |
| WasmValues.GetGenI64 | wasm/wasm_executor.cpp:124 | reading an I64 cell back gives the i64 it was generated from |
| WasmValues.GenI32 | wasm/wasm_executor.cpp:122 | defines `WasmEdge_ValueGenI32`: an I32 cell holding the i32's 32-bit pattern |
| WasmValues.GenI64 | wasm/wasm_executor.cpp:124 | defines `WasmEdge_ValueGenI64`: an I64 cell holding the i64's 64-bit pattern |
| WasmValues.GetI32 | wasm/wasm_executor.cpp:139 | defines `WasmEdge_ValueGetI32`: the low 32 bits of the cell read as an i32, whatever the tag |
| WasmValues.GetI64 | wasm/wasm_executor.cpp:141 | defines `WasmEdge_ValueGetI64`: the 64-bit cell read as an i64, whatever the tag |
| WasmValues.MarshalArg | wasm/wasm_executor.cpp:121-125 | defines the cell passed for one argument: `ValueGenI32` of the argument narrowed to 32 bits for an "integer" kind, `ValueGenI64` of the argument for any other kind |
| WasmValues.UnmarshalResult | wasm/wasm_executor.cpp:138-142 | defines the int64 a result cell becomes: `ValueGetI32`, sign-extended, for an "integer" result kind, `ValueGetI64` otherwise |
| WasmValues.MarshalArgSeenByGuest | wasm/wasm_executor.cpp:119-126 | an "integer" slot receives an I32 holding the argument wrapped to 32 bits; any other slot receives an I64 holding the argument itself |
| WasmValues.MarshalRoundTrip | wasm/wasm_executor.cpp:119-142 | marshalling an argument and unmarshalling it with the same kind is the identity for "bigint", and for "integer" on values that fit in 32 bits |
| WasmValues.UnmarshalGuestResult | wasm/wasm_executor.cpp:137-142 | an i32 result of an "integer" function and an i64 result of a "bigint" function reach the caller unchanged |
| WasmValues.UnmarshalIntegerSignExtends | wasm/wasm_executor.cpp:138-139 | an "integer" result is always within 32 bits and keeps the low 32 bits of the cell |
| OrderedMap.ToMap | wasm/wasm_executor.cpp:53 | every key of the walk is a key of the map |
| OrderedMap.ToMapHasKey | wasm/wasm_executor.cpp:53 | a key is in the map exactly when it occurs in the walk |
| OrderedMap.ToMapAt | wasm/wasm_executor.cpp:53 | in an ascending walk, each pair's value is the map's value for its key |
| OrderedMap.ToMapTail | wasm/wasm_executor.cpp:53 | dropping the first pair of an ascending walk removes exactly the least key |
| OrderedMap.FirstIsLeast | wasm/wasm_executor.cpp:53 | the first pair of an ascending walk holds the least key of the map |
| OrderedMap.AscendingUnique | wasm/wasm_executor.cpp:53 | two ascending walks of the same map are the same walk, so the walk order depends only on the keys |
| OrderedMap.Put | wasm/wasm_executor.cpp:230 | updating a key keeps the walk ascending and gives the map updated at that key |
| OrderedMap.PutTwice | wasm/wasm_executor.cpp:230 | two updates of one key leave only the second value |
| OrderedMap.Insert | wasm/wasm_executor.cpp:277 | `std::map::insert` keeps the walk ascending, adds the pair when the key is absent and otherwise leaves the map unchanged |
| OrderedMap.InsertOrderIrrelevant | wasm/wasm_executor.cpp:277 | inserting two distinct ids in either order gives the same walk, so the order is by id, not by insertion |
| OrderedMap.Find | wasm/wasm_executor.cpp:58-69 | the iterator loop finds the value stored under a key, and reports none exactly when the key is absent |
| Catalog.KindName | wasm/wasm_executor.cpp:207-210 | a value type has a kind exactly when it is I32 or I64; the kind is "integer" exactly for I32 and "bigint" exactly for I64 |
| Catalog.KindMatchesType | wasm/wasm_executor.cpp:206-222 | in an accepted export's entry, a parameter kind is "integer" exactly when the parameter is I32 and "bigint" exactly when it is I64, and the result kind is "integer" exactly when the result slot is I32 |
| Catalog.TypeBufferAtReturns | wasm/wasm_executor.cpp:204-218 | defines the ten-slot `param_buffer` when the result kind is read: unwritten content, overwritten by the parameter types, then by the result types |
| Catalog.Clip | wasm/wasm_executor.cpp:182-185 | what a BUF_LEN buffer keeps, for the export name and for the function list alike: a prefix, at most BUF_LEN long, the whole input when it fits and exactly BUF_LEN elements otherwise |
| Catalog.CopiedName | wasm/wasm_executor.cpp:185 | the stored name is a prefix of the export name, at most BUF_LEN long, and the whole name when it fits (line 229 keeps the copied length) |
| Catalog.ReturnSlot | wasm/wasm_executor.cpp:204-222 | defines the type read as the result kind: the first result type, else the first parameter type left in `param_buffer`, else the buffer's unwritten content |
| Catalog.Overwrite | wasm/wasm_executor.cpp:205 | the type buffer after a copy holds the copied types in its first slots and its earlier content in the rest |
| Catalog.ReturnSlotIsBufferHead | wasm/wasm_executor.cpp:204-222 | for every export that passed the count checks, `ReturnSlot` is slot 0 of `param_buffer` after the parameter types and then the result types were written into it |
| Catalog.Describe | wasm/wasm_executor.cpp:188-229 | defines one export's outcome, checked in order: too many parameters, too many results, the first unsupported parameter, an unsupported result slot; otherwise the entry with the copied name, the parameter kinds and the result kind |
| Catalog.ParamKinds | wasm/wasm_executor.cpp:205-216 | the parameters map to kinds in order when all are I32/I64; otherwise the error names the first unsupported one |
| Catalog.DescribeAccepts | wasm/wasm_executor.cpp:188-230 | an export is accepted exactly when it has at most 10 parameters, at most 1 result, and I32/I64 parameter and result slots; its entry then holds the copied name, the parameter kinds in order and the result slot's kind |
| Catalog.DescribeRejects | wasm/wasm_executor.cpp:188-227 | too many parameters is reported first, then too many results, then an unsupported parameter or result slot |
| Catalog.NoResultTakesFirstParamKind | wasm/wasm_executor.cpp:218-222 | an export with no result and at least one parameter is accepted, with its first parameter's kind as its result kind |
| Catalog.BuildCatalog | wasm/wasm_executor.cpp:183-231 | the catalog holds the accepted exports in list order, up to the first rejected export, whose error stops the build |
| Catalog.BuildCatalogStep | wasm/wasm_executor.cpp:183-231 | one more export appends its entry to an unfinished build, or stops the build with its error |
| Catalog.BuildCatalogStops | wasm/wasm_executor.cpp:189-227 | once an export has stopped the build, the exports after it change nothing |
| Catalog.Window | wasm/wasm_executor.cpp:176-183 | defines the part of the runtime's function list the loop looks at: its first BUF_LEN entries |
| Catalog.WindowStops | wasm/wasm_executor.cpp:182-183 | a build stopped within the first BUF_LEN exports is the build of the whole window |
| Catalog.BuildCatalogWellFormed | wasm/wasm_executor.cpp:183-231 | every built catalog has at most BUF_LEN entries, each with a name of at most BUF_LEN characters, at most 10 kinds and a valid result kind |
| Catalog.WellFormedAppend | wasm/wasm_executor.cpp:230 | appending a well-formed entry below BUF_LEN entries keeps a catalog well formed |
| Catalog.FirstNamed | wasm/wasm_executor.cpp:90-97 | a name is found exactly when some entry has it, and the entry found is the first one with that name |
| Catalog.DescribeExport | wasm/wasm_executor.cpp:184-229 | the loop body for one export, with its inner loop over the parameters, gives exactly the outcome `Describe` specifies |
| Render.Join | wasm/wasm_executor.cpp:374-381 | defines the rendered column: the kinds separated by single commas, "" for no kinds |
| Render.Terminated | wasm/wasm_executor.cpp:375-378 | defines the string before `pop_back`: every kind followed by a comma |
| Render.TerminatedIsJoinThenComma | wasm/wasm_executor.cpp:375-378 | the loop that appends each kind and a comma produces the comma-joined kinds followed by one comma |
| Render.LastIndexOf | wasm/wasm_executor.cpp:374-381 | the index found holds the character, and no later character is it |
| Render.LastCommaAfterJoin | wasm/wasm_executor.cpp:374-381 | the last comma of the joined column is the one before the last kind |
| Render.SplitFieldsSnoc | wasm/wasm_executor.cpp:374-381 | splitting a column that ends in a comma and a comma-free field yields that field last |
| Render.SplitFields | wasm/wasm_executor.cpp:374-381 | splitting at commas always gives at least one field |
| Render.SplitJoin | wasm/wasm_executor.cpp:374-381 | the rendered column loses nothing: splitting it at its commas gives back the kinds in order |
| Render.JoinNonEmpty | wasm/wasm_executor.cpp:379-381 | the column of at least one non-empty kind is non-empty |
| Render.JoinShape | wasm/wasm_executor.cpp:379-381 | the column is empty exactly for a function without parameters, and ends with the last kind's last character, so never in a comma when the last kind has none (as "integer" and "bigint") |
| Render.RenderInputs | wasm/wasm_executor.cpp:374-381 | the append-then-pop_back loop produces exactly the comma-joined kinds |
| Executor.MarshalArgs | wasm/wasm_executor.cpp:119-126 | defines the parameter array: one cell per argument, marshalled by the kind at the same index |
| Executor.InvokeOutcome | wasm/wasm_executor.cpp:106-149 | defines a call's outcome: no path, no catalog and no such name are errors; more arguments than kinds is the out-of-range read; otherwise the run's failure or its result widened by the result kind |
| Executor.CatalogsAfterQuery | wasm/wasm_executor.cpp:158-167 | defines the catalogs after a listing: unchanged for an unknown id or one already built, otherwise the build of the window stored under the id, whether or not it stopped early |
| Executor.MarshalledCellsHaveDeclaredTypes | wasm/wasm_executor.cpp:119-126 | invoking an accepted export with no more arguments than parameters passes each argument in a cell of the type declared for that parameter |
| Executor.PathIn | wasm/wasm_executor.cpp:58-69 | defines what `find_wasm_file` answers: the stored path of an id, or "" |
| Executor.RowsOf | wasm/wasm_executor.cpp:372-383 | defines the listing rows: per catalog entry in order, its name, its comma-joined kinds and its result kind |
| Executor.MarshalArgsSeenByGuest | wasm/wasm_executor.cpp:119-126 | one parameter per argument, each an I32 holding the wrapped argument for an "integer" kind and an I64 holding the argument otherwise |
| Executor.InvokeHasNoArityCheck | wasm/wasm_executor.cpp:119-135 | with no more arguments than kinds, only a failed run can make a call fail; with more, the call reads past the catalogued kinds |
| Executor.InvokeNeedsInstanceAndCatalog | wasm/wasm_executor.cpp:108-113 | a call fails for an unregistered id and for one whose catalog was never built; a call that succeeds had an instance, a catalog and a matching function |
| Executor.InvokeReturnsGuestResult | wasm/wasm_executor.cpp:128-148 | when the guest returns a value of the catalogued kind, the call returns that value |
| Executor.RenderRows | wasm/wasm_executor.cpp:363-383 | each row holds an entry's name, its rendered kinds and its result kind, in catalog order |
| Executor.CatalogBuiltOnce | wasm/wasm_executor.cpp:158-167 | the first listing stores what it built, even when the build stopped early, and every later listing keeps it whatever the runtime reports |
| Executor.CatalogsConsistentAfterBuild | wasm/wasm_executor.cpp:166-167 | storing a well-formed catalog for a registered id keeps every catalog tied to a registered id and well formed |
| Executor.CachePut | wasm/wasm_executor.cpp:166-230 | storing a catalog in the ordered map keeps the map ascending, updates exactly that id and keeps the catalogs consistent |
| Executor.Registry.constructor | wasm/wasm_executor.cpp:53-56 | both maps start empty |
| Executor.Registry.FindWasmFile | wasm/wasm_executor.cpp:58-69 | the stored path of an id, or "" when there is none |
| Executor.Registry.FindExportedFuncList | wasm/wasm_executor.cpp:71-82 | the stored catalog of an id, or none |
| Executor.Registry.FindExportedFunc | wasm/wasm_executor.cpp:84-98 | a missing catalog and a missing name are errors; otherwise the result is the first entry with the name |
| Executor.Registry.CreateInstance | wasm/wasm_executor.cpp:242-282 | a non-superuser is refused; an id that already has a path returns at once; otherwise a load or validation failure is an error, and success inserts (id, path) without touching the catalogs |
| Executor.Registry.GetInstances | wasm/wasm_executor.cpp:285-334 | the listing is every registered pair, once each, in ascending id order |
| Executor.Registry.ExportFuncsQuery | wasm/wasm_executor.cpp:151-239 | an unknown id is an error; a built catalog is returned as it is; otherwise the catalog is built from the first BUF_LEN exports and stored even if an export stops the build |
| Executor.Registry.BuildAndCache | wasm/wasm_executor.cpp:166-238 | registering the empty catalog and appending in place leaves exactly `BuildCatalog` of the window cached, and returns it or the error that stopped it |
| Executor.Registry.GetExportedFunctions | wasm/wasm_executor.cpp:337-394 | the rows of the queried catalog, with the same effect on the catalogs as the query |
| Executor.Registry.InvokeFunction | wasm/wasm_executor.cpp:106-149 | the result is exactly `InvokeOutcome` of the current maps |
| Executor.Registry.InvokeFunction0 | wasm/wasm_executor.cpp:396-405 | a call with no arguments |
| Executor.Registry.InvokeFunction1 | wasm/wasm_executor.cpp:407-417 | a call with its one argument |
| Executor.Registry.InvokeFunction2 | wasm/wasm_executor.cpp:419-430 | a call with its two arguments in order |
| Executor.Registry.InvokeFunction3 | wasm/wasm_executor.cpp:432-444 | a call with its three arguments in order |
| Executor.Registry.InvokeFunction4 | wasm/wasm_executor.cpp:446-459 | a call with its four arguments in order |
| Executor.Registry.InvokeFunction5 | wasm/wasm_executor.cpp:461-475 | a call with its five arguments in order |
| Executor.Registry.InvokeFunction6 | wasm/wasm_executor.cpp:477-492 | a call with its six arguments in order |
| Executor.Registry.InvokeFunction7 | wasm/wasm_executor.cpp:494-510 | a call with its seven arguments in order |
| Executor.Registry.InvokeFunction8 | wasm/wasm_executor.cpp:512-529 | a call with its eight arguments in order |
| Executor.Registry.InvokeFunction9 | wasm/wasm_executor.cpp:531-549 | a call with its nine arguments in order |
| Executor.Registry.InvokeFunction10 | wasm/wasm_executor.cpp:551-570 | a call with its ten arguments in order |
| Example.AddCatalogued | wasm/wasm_executor.cpp:183-231 | add(i64, i64) -> i64 is catalogued with kinds "bigint","bigint" and result "bigint" |
| Example.AddListed | wasm/wasm_executor.cpp:372-383 | its listing row renders the inputs as "bigint,bigint" |
| Example.AddInvoked | wasm/wasm_executor.cpp:106-149 | calling it with 40 and 2 returns 42 |
| Example.AddExample | wasm/wasm_executor.cpp:242-570 | create, list, then call through the two-argument entry point yields the listing row and 42 |

Four behaviours of the code are easy to miss; the model follows the code in
each:

- A function with no result is not rejected. The code rejects only more
  than one result. The result kind is then read from a slot of the type
  buffer that still holds the first parameter type. With no parameters
  either, the slot holds whatever the buffer held before; the model takes
  that as an input (`ExportEntry.residue`).
- The empty catalog is stored before the build runs. A rejected export
  therefore leaves the entries before it cached, and later queries return
  that prefix instead of retrying the build.
- Instances are listed in ascending id order, the order of `std::map`, not
  in registration order.
- There is no arity check at call time:
  - each argument is marshalled by the kind at its own index, so more
    arguments than kinds reads past the kind list;
  - fewer arguments are passed to the runtime as they are, and only the
    runtime can refuse them.

## Left out

- WasmEdge itself is not modelled. Creating configuration, VM and store
  contexts, WASI host registration, load, validate and instantiate, and
  releasing every context and string are outside the model. Their outcomes
  enter as inputs: `loadOk`, `validateOk`, the export list and the
  `Runner`.
- The catalog build ignores the results of its own load, validate and
  instantiate calls (lines 172-174). Their effect is whatever function list
  the runtime then reports, which is an input.
- Host-database plumbing is not modelled: `PG_FUNCTION_ARGS` decoding, text
  conversions, tuple descriptors, and the set-returning-function protocol
  that hands rows out one per call. The listing methods return all rows at
  once.
- Instance ids are not computed:
  - `generate_uuid` (hashtext of the path text) is left out;
  - `canonicalize_path` and `atol` of the id text are left out;
  - the id is given as a parameter.
- Executor.Registry.CreateInstance: the id is a `u32`. For such ids,
  `UInt32GetDatum(uuid)` on the early-return path and `Int64GetDatum(uuid)`
  on the insert path give the same number.
- Error message text and the DEBUG1/NOTICE logging are not modelled. An
  error is a value of `Error`, and `ereport(ERROR)` aborting the statement
  is a returned `Err`.
- Executor.Registry.InvokeFunction: reading `inputs[i]` past the end of the
  kind list is undefined behaviour in the code. The model returns
  `InputIndexOutOfRange` at the first such index instead of guessing what
  is read.
- Executor.Registry.InvokeFunction: the result buffer is not initialized.
  For a function without results, the returned cell is whatever the
  `Runner` gives back.
- Catalog.CopiedName: names are modelled as strings of one char per byte
  with no NUL byte. `WasmEdge_StringCopy` at line 185 counts bytes, so a
  name with multi-byte UTF-8 characters is clipped at 256 bytes, which is
  fewer than 256 characters. An embedded NUL would also end the name in the
  listing (line 373) and in the lookup key (lines 84 and 113), and the model
  does not capture that.
- Allocation failure of `new(std::nothrow)` (a NULL catalog or entry) is
  not modelled.
- Concurrency is not modelled, because the code holds the two maps in
  unsynchronized process-wide state. Memory teardown is not modelled either.
- Example.AddExample: the id, the path and the runtime are literal values.
  It stands for one session, not for the extension's SQL test scripts.
