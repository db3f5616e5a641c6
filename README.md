# webgl-dsl, modelled in Dafny

This project models the sequential core of webgl-dsl, a TypeScript library for
WebGL. The library does three things. It writes GLSL shaders from a small
expression language. It keeps a scoped cache of WebGL state, so that a GL call
is made only when a value changes and every change is undone when the scope
ends. It packs user records into float arrays and picks a draw call.

The model is split into modules that follow the source files:

- `GlslType` (glsl_type.dfy): the `Type` and `Precision` enums of src/dsl.ts
  and their size and result-type rules.
- `GlslBuild` (glsl_builder.dfy): `GlslBuilder`, a class with the `global` and
  `local` text and an emit-once cache that child builders share.
- `Glsl` (glsl_node.dfy): an expression node is an abstract syntax tree.
  - `ValueOf` gives the `{ type, content }` a node evaluates to.
  - `Emit` gives what evaluating the node appends to a builder, and which cache
    keys it records.
  - The method `GetValue` evaluates a node against a real `GlslBuilder` and is
    proved to do what those two functions say.
  - The process-wide `id()` counter is the class `IdSequence`.
- `TypeMaps` (type_map.dfy): `TypeMap.getType/getPrecision/withoutPrecision/values/stride/layout`.
- `Sources` (source.dfy): `source()`, which assembles the vertex and fragment
  texts. The user's `vertex` and `fragment` callbacks are functions of their
  inputs and of the id counter.
- `Objects` (objects.dfy): JavaScript objects and `Map`s as ordered entry
  lists, and the object spread `{ ...a, ...b }`.
- `WebGl` (web_gl.dfy): the enums of src/webgl-enums.ts with their codes,
  `PixelFormat.getChannelsCount`, GPU objects as handles, and the native GL
  calls as log events.
- `StateCache` (state_cache.dfy): the `SettingsCache` and `Settings` of
  src/settings.ts.
  - A chain of scopes is a sequence of steps.
  - The callback is a `Body`: the calls it makes and how it ends.
  - The pure function `RunSteps` says what `apply` does. The class `Gl` holds
    the cache, the call log and the frame-buffer counter, and its method
    `Apply` is proved against `RunSteps`.
- `LegacyStateCache` (legacy_state_cache.dfy): the older `Settings` of
  src/webgl.ts, which the draw command uses. It has the set-diffing
  `enabledAttributes` and `instancedAttributes` scopes and the component
  counts of `Program.setAttribute`.
- `Packing` (packing.dfy): `prepareData`, which fills a typed array in place
  (a Dafny `array`). It is proved against a pure list of writes.
- `Command` (command.dfy): the `Command` class.
  - The constructor sets the attribute pointers and assigns the sampler
    texture indexes.
  - `setAttributes`, `setInstances`, `setElements`, `setUniforms`.
  - `draw`, with its default counts and dispatch rule.
  - The `setContent` of the two buffer classes.
- `Disposables` (disposable.dfy): `use`, `uses`, `join`,
  `JoinedDisposable` and `dispose`. Their effects are events in a trace, in
  order.

Where the library's tests (src/disposable.test.ts, src/disposable/uses.test.ts)
and the code differ, the model follows the code: `uses` disposes the created
items in creation order, as `values.forEach` does (src/disposable.ts:58),
while the tests expect the reverse order (src/disposable.test.ts:104,
src/disposable/uses.test.ts:25).

The model also reproduces three oddities of the code as written. The corrected
forms are kept beside them (see "## Findings"):

- `ceil` renders the GLSL `floor` (src/dsl.ts:249).
- The fragment callback's `gl_PointCoord` has the content `gl_FragCoord`
  (src/dsl.ts:1073), and `source()` hands the callback that input.
- `ElementsBuffer.setContent` binds `ELEMENT_ARRAY_BUFFER` and uploads to
  `ARRAY_BUFFER` (src/webgl.ts:851-853), and `setElements` uses it.

The varyings of the fragment stage are evaluated against the vertex builder
(src/dsl.ts:1057-1059). So the fragment text declares a varying only where its
colour reads it.

## Model

| member | source | states |
|---|---|---|
| GlslType.Name | src/dsl.ts:10-20 | every type has a non-empty GLSL spelling |
| GlslType.NameInjective | src/dsl.ts:10-20 | distinct types have distinct spellings, so the GLSL text names the type |
| GlslType.PrecisionName | src/dsl.ts:22-26 | every precision has a non-empty qualifier |
| GlslType.Size | src/dsl.ts:36-52 | the component count is 1 to 4, and it is 1 exactly for float, bool and sampler2D |
| GlslType.Vector | src/dsl.ts:58-67 | for 2 to 4 it gives the vector type of that size; any other count gives `undefined` |
| GlslType.Matrix | src/dsl.ts:131-136 | for 2 to 4 it gives a matrix type of that dimension |
| GlslType.Numeric | src/dsl.ts:74-85 | for 1 to 4 it gives float or the vector type of that size; any other count gives `undefined` |
| GlslType.SizeOf | src/dsl.ts:36-52 | the runtime size, equal to `Size` on enum members and no size for `undefined` |
| GlslType.CatType | src/dsl.ts:765-777 | the numeric type of the summed sizes while the sum is at most 4; `undefined` beyond that or for an operand without a size |
| GlslType.ArithType | src/dsl.ts:405-411 | a scalar left operand gives the right operand's type; any other left operand gives its own type |
| GlslType.MulType | src/dsl.ts:471-487 | scalar on either side, or equal types, give the other or common type; a vector against a non-scalar gives a vector |
| GlslType.SizeDeterminesShape | src/dsl.ts:36-67 | a vector or matrix type comes back from its size |
| GlslType.MulTypeMatrixVector | src/dsl.ts:462-487 | matrix times vector and vector times matrix of one dimension give that vector type |
| GlslBuild.EmitCache.constructor | src/dsl.ts:148 | a new cache holds no key |
| GlslBuild.EmitCache.Has | src/dsl.ts:150-158 | `has(key)` holds exactly for recorded keys |
| GlslBuild.EmitCache.Remember | src/dsl.ts:150-158 | `once` records its key after the callback ran |
| GlslBuild.GlslBuilder.constructor | src/dsl.ts:144-148 | a new builder has empty texts and a fresh, empty cache |
| GlslBuild.GlslBuilder.Sharing | src/dsl.ts:148 | a builder over a given cache has empty texts and that very cache |
| GlslBuild.GlslBuilder.AddGlobal | src/dsl.ts:162-165 | appends to `global` and leaves `local` alone |
| GlslBuild.GlslBuilder.AddLocal | src/dsl.ts:169-172 | appends to `local` and leaves `global` alone |
| GlslBuild.GlslBuilder.Child | src/dsl.ts:174-176 | a fresh builder with empty texts that shares the parent's cache |
| Glsl.NatToString | src/dsl.ts:535 | a counter value is written as a non-empty string of decimal digits, with no leading zero |
| Glsl.NatToStringRoundTrip | src/dsl.ts:535 | the decimal text of a counter value reads back, digit by digit, as that value |
| Glsl.NatToStringInjective | src/dsl.ts:535 | distinct counter values give distinct texts |
| Glsl.KeysDistinct | src/dsl.ts:535-581 | distinct ids give distinct `memN` names and distinct `condN` names, and no `memN` name is a `condN` name, so each memoized or conditional node has its own emit-once key |
| Glsl.Join | src/dsl.ts:217 | joining one part gives that part |
| Glsl.ValuesOfAt | src/dsl.ts:207 | the values of a call's arguments are the arguments' values, position by position |
| Glsl.EmitGrows | src/dsl.ts:150-158 | evaluating a node only ever adds keys to the cache |
| Glsl.EmitAllGrows | src/dsl.ts:207 | evaluating arguments left to right only ever adds keys |
| Glsl.DoneMonotone | src/dsl.ts:150-158 | a node that appends nothing against some keys still appends nothing against more keys |
| Glsl.AllDoneMonotone | src/dsl.ts:150-158 | the same for a list of arguments |
| Glsl.DoneEmitsNothing | src/dsl.ts:150-158 | a node whose once-keys are all recorded appends no text and records no key |
| Glsl.AllDoneEmitsNothing | src/dsl.ts:150-158 | the same for a list of arguments |
| Glsl.EmitMakesDone | src/dsl.ts:534-617 | after a node ran against a cache, all its once-keys are recorded there |
| Glsl.EmitAllMakesDone | src/dsl.ts:207 | the same for a list of arguments |
| Glsl.RunTwiceEmitsOnce | src/dsl.ts:534-617 | evaluating a node a second time against the same cache, or any builder sharing it, appends nothing |
| Glsl.RunAgainLaterEmitsNothing | src/dsl.ts:534-617 | that stays true whatever else ran on the cache in between |
| Glsl.MemFirstRun | src/dsl.ts:534-547 | the first run of `mem` appends the inner text and then one `<precision> <type> memN = <content>;` line and records `memN`; the value is `memN` with the inner type |
| Glsl.Numeral | src/dsl.ts:836-842 | a numeral without `.` or `e` gets `.0` appended; any other is kept, so the result always has one of them |
| Glsl.Single | src/dsl.ts:825-843 | one `val` argument: a node is returned as is; a number is a `float` whose text starts with the number's text, contains a `.` or an `e`, and equals the number's text exactly when that already had one; a boolean is a `bool` reading `1` exactly when it is true and `0` exactly when it is false |
| Glsl.Val | src/dsl.ts:824-846 | `val` of one argument is that argument wrapped; of several, its type is the numeric type of the summed argument sizes while the sum is at most 4, and `undefined` beyond it or when some argument has no size |
| Glsl.Singles | src/dsl.ts:839-841 | every argument is wrapped by `val` on its own, position by position |
| Glsl.ValSeveral | src/dsl.ts:838-845 | several arguments are wrapped and then concatenated from the left |
| Glsl.ValContent | src/dsl.ts:838-845 | for every list of two or more arguments, `val` is the `cat` of the fold of all but the last wrapped argument with the last one: the text `<type>(<fold>, <last>)`, typed as their concatenation |
| Glsl.FoldContent | src/dsl.ts:838-845 | the left fold of two or more wrapped arguments renders as the `cat` of the fold of all but the last with the last |
| Glsl.CatAllSplit | src/dsl.ts:838-845 | folding a list with one more node appended is one more `cat` |
| Glsl.CatAllUndefined | src/dsl.ts:765-777 | a concatenation with an operand of no size has no size |
| Glsl.OperatorNames | src/dsl.ts:194 | `+ - * / < > <= >= == && \|\| !` are substrings of the operator string |
| Glsl.NotEqualIsNotOperator | src/dsl.ts:194 | `!=` is not a substring of the operator string |
| Glsl.BinaryOperatorContent | src/dsl.ts:203-212 | a two-argument operator call renders `((a) op (b))` |
| Glsl.AddContent | src/dsl.ts:405-411 | `add` renders infix `+` with the arithmetic result type |
| Glsl.MulRule | src/dsl.ts:471-487 | `mul` renders infix `*` with the product result type |
| Glsl.NotEqualContent | src/dsl.ts:490-514 | `neq` renders the prefix form `!=(a, b)` and has type bool |
| Glsl.UnaryContent | src/dsl.ts:225-229 | a one-argument call renders `name(x)` with the operand's type, even for `!` |
| Glsl.InfixPair | src/dsl.ts:204-213 | a two-argument call whose name is an operator renders `((a) name (b))` with the type its rule gives the two operand types |
| Glsl.FirstOfThree | src/dsl.ts:214-222 | a three-argument call typed by its first operand renders `name(a, b, c)` with the first operand's type |
| Glsl.SubContent | src/dsl.ts:425-431 | `sub` renders infix `((a) - (b))`, a number operand wrapped by `val` first, with the arithmetic result type (the other operand's type when the first is a scalar) |
| Glsl.DivContent | src/dsl.ts:445-451 | `div` renders infix `((a) / (b))`, a number operand wrapped by `val` first, with the arithmetic result type |
| Glsl.CompareContent | src/dsl.ts:490-514 | `lt`, `gt`, `lte`, `gte` and `eq` render infix `((a) op (b))`; every comparison, `neq` included, has type bool |
| Glsl.AndContent | src/dsl.ts:516-522 | `and` renders `((a) && (b))` and has type bool |
| Glsl.OrContent | src/dsl.ts:523-529 | `or` renders the same infix form with the logical-or operator and has type bool |
| Glsl.NotContent | src/dsl.ts:257 | `not` renders `!(x)` and keeps the operand's type |
| Glsl.SmoothstepContent | src/dsl.ts:339-341 | `x.smoothstep(e1, e2)` renders `smoothstep(e1, e2, x)`, numbers wrapped by `val`, with the type of `e1` |
| Glsl.VecContent | src/dsl.ts:674-699 | `vec2`, `vec3` and `vec4` give a vector of that size rendering `vecN(x)` |
| Glsl.TakeContent | src/dsl.ts:654-672 | one to four indexes give a scalar for one index and a vector of that many components otherwise; the text is `(v).` followed by one letter of `xyzw` per index, in order |
| Glsl.SwizzleLetters | src/dsl.ts:665-669 | the swizzle has one letter per index, the `xyzw` letter at that index |
| Glsl.Component1Content | src/dsl.ts:701-749 | `x`…`w` and `r`…`a` take component 0…3: a scalar rendering `(v).x` and so on |
| Glsl.CatWithContent | src/dsl.ts:760-779 | `cat` with a number wraps it by `val`, so it joins as a float literal of size one and adds one component; with a `Glsl` it is the plain concatenation |
| Glsl.CeilRendersFloor | src/dsl.ts:249 | `ceil` as written renders `floor(x)`, never `ceil(x)` |
| Glsl.CeilRendersCeil | src/dsl.ts:249 | the corrected `ceil` renders `ceil(x)` with the operand's type |
| Glsl.RoundContent | src/dsl.ts:253-255 | `round` renders `floor` of `x + 0.5`, with the number written `0.5` |
| Glsl.CatAllType | src/dsl.ts:843-844 | folding `cat` over values with sizes gives the numeric type of the total size while it is at most 4, and `undefined` beyond |
| Glsl.ValOfTwoNumbers | src/dsl.ts:824-846 | `val(1, 2)` is `vec2(1.0, 2.0)` |
| Glsl.ValOfThreeNumbers | src/dsl.ts:824-846 | `val(1, 2, 3)` folds from the left to `vec3(vec2(1.0, 2.0), 3.0)` |
| Glsl.GetValue | src/dsl.ts:196-197 | evaluating any node returns its value and appends to the builder and its cache exactly what `Emit` says |
| Glsl.GetValues | src/dsl.ts:207 | evaluating the arguments left to right returns their values and appends what `EmitAll` says |
| Glsl.GetCallValue | src/dsl.ts:199-223 | a call's value is its name and type rule applied to its evaluated arguments |
| Glsl.RunBranch | src/dsl.ts:585-589 | a branch runs against a fresh child builder that shares the cache and holds only the branch's text |
| Glsl.RunCondParts | src/dsl.ts:585-591 | the true branch, then the false branch, each against its own child, then the condition against the builder itself |
| Glsl.FirstCond | src/dsl.ts:585-608 | on the first run against a cache the builder receives the condition's text, both branches' globals and one if/else block holding the branch locals, and the cache gains the key |
| Glsl.Splice | src/dsl.ts:595-609 | the branch globals go to the parent globals, and one if/else block with the branch locals goes to the parent locals |
| Glsl.GetCondValue | src/dsl.ts:575-617 | `cond` returns `condN` with the true-branch type; it emits its block once per cache and nothing on later runs |
| Glsl.IdSequence.constructor | src/dsl.ts:3-8 | the counter starts at 0 |
| Glsl.IdSequence.Id | src/dsl.ts:3-8 | `id()` returns the current value and then adds one |
| Glsl.IdSequence.MakeMem | src/dsl.ts:534-535 | `mem` takes its name from the counter when the node is built |
| Glsl.IdSequence.MakeCond | src/dsl.ts:575-581 | `cond` takes its name from the counter when the node is built |
| TypeMaps.GetPrecision | src/dsl.ts:878-880 | a bare type means `highp`; a pair carries its own precision |
| TypeMaps.EntryParts | src/dsl.ts:875-880 | `getType` and `getPrecision` take an entry apart without loss: a bare type is rebuilt from its type and reads `highp`, a pair from its type and precision |
| TypeMaps.WithoutPrecision | src/dsl.ts:882-892 | the same keys in the same order, each with its bare type |
| TypeMaps.Values | src/dsl.ts:894-914 | one input node per field of the type map |
| TypeMaps.ValueDeclaresOnce | src/dsl.ts:894-914 | a value evaluates to its name with its type; against a new key it appends one `<storage> <precision> <type> <name>;` line, otherwise nothing |
| TypeMaps.SameNameSharesDeclaration | src/dsl.ts:900-904 | the once-key ignores the storage, so a uniform and a varying of one name declare only the first that runs |
| TypeMaps.ValuesDeclareAll | src/dsl.ts:894-914 | running all values of an object against a fresh cache declares every field once, in key order, and records every key |
| TypeMaps.StrideOf | src/dsl.ts:916-922 | the stride lies between the field count and four times it |
| TypeMaps.Stride | src/dsl.ts:916-922 | the `for` loop sums `Type.size` over the fields |
| TypeMaps.StrideSplit | src/dsl.ts:916-922 | the stride of an object is the sum of the strides of any split of its fields |
| TypeMaps.LexLeTotal | src/dsl.ts:934 | the default string sort order is total |
| TypeMaps.LexLeTransitive | src/dsl.ts:934 | the default string sort order is transitive |
| TypeMaps.LexLeAntisymmetric | src/dsl.ts:934 | the default string sort order is antisymmetric |
| TypeMaps.SortByNameSorted | src/dsl.ts:934 | sorting by name gives an ordered sequence |
| TypeMaps.SortByNamePermutes | src/dsl.ts:934 | sorting by name permutes the fields and keeps the stride |
| TypeMaps.SortByNamePermutesNames | src/dsl.ts:934 | sorting by name permutes the names |
| TypeMaps.ItemsAt | src/dsl.ts:935-945 | item `k` of the `reduce` has the size of field `k` and sits after the sizes of the fields before it |
| TypeMaps.Layout | src/dsl.ts:931-946 | one layout item per field |
| TypeMaps.LayoutOffsets | src/dsl.ts:931-946 | the first offset is 0, each next offset is the previous offset plus its size, and every item carries the full stride |
| TypeMaps.LayoutFits | src/dsl.ts:931-946 | every item ends inside the record: offset plus size is at most the stride |
| TypeMaps.LayoutNames | src/dsl.ts:931-946 | the item names are the names of the fields sorted |
| TypeMaps.LayoutSorted | src/dsl.ts:931-946 | the items are sorted by name and hold exactly the object's keys |
| TypeMaps.LayoutSizes | src/dsl.ts:931-946 | each item's size is `Type.size` of the type its name has in the object |
| TypeMaps.LayoutNamesDistinct | src/dsl.ts:931-946 | with distinct keys no name appears twice in the layout |
| Sources.BuiltInsRenderTheirNames | src/dsl.ts:1064-1081 | the corrected built-ins render their own names; `gl_PointCoord` as written renders `gl_FragCoord` under a `vec2` type |
| Sources.PointCoordRendersFragCoord | src/dsl.ts:1061-1089 | a fragment colour that reads `gl_PointCoord` gives the fragment text `gl_FragColor = gl_FragCoord;` |
| Sources.AssembleVertex | src/dsl.ts:1041-1052 | the vertex text is the globals, `void main() {`, the locals, one `name = content;` per output in key order, and `}` |
| Sources.AssembleFragment | src/dsl.ts:1083-1089 | the fragment text comes from a builder of its own and assigns only `gl_FragColor` |
| Sources.Source | src/dsl.ts:1006-1099 | `source()` returns the two texts and the precision-stripped maps that `SourceOf` gives, and moves the id counter as the callbacks do |
| Sources.VaryingsDeclaredFirst | src/dsl.ts:1031-1035 | with distinct varying names the vertex text starts with one `varying` line per varying, in key order |
| Sources.MainTextStartsWithGlobal | src/dsl.ts:1047-1052 | a shader text starts with the builder's global text |
| Sources.SecondVaryingPassIsNoOp | src/dsl.ts:1057-1059 | the second varying pass appends nothing, since every varying is already declared |
| Sources.FragmentDeclaresOnlyWhatItReads | src/dsl.ts:1055 | a colour that reads no input gives a fragment text with no declaration at all |
| Sources.FragmentBuiltInsWin | src/dsl.ts:1061-1082 | the fragment callback of `source()` sees the three built-ins as written over any uniform or varying of the same name, so its `gl_PointCoord` is a `vec2` reading `gl_FragCoord` |
| Sources.IntendedBuiltInsWin | src/dsl.ts:1061-1082 | over the corrected built-ins, the callback's `gl_PointCoord` reads the point coordinate, and the built-ins still hide same-named inputs |
| Sources.VertexInputsPreferAttributes | src/dsl.ts:1023-1040 | the vertex callback reads an attribute over a uniform of one name, and an instance field over an attribute |
| Sources.MemoizedVertexText | src/dsl.ts:1031-1052 | a memoized position gives the vertex text `void main() {`, one `highp vec4 memN` line, `gl_Position = memN;`, `}` |
| Sources.MemoizedVertex | src/dsl.ts:1031-1052 | in that text the digit of `memN` follows the declaration prefix |
| Sources.SourceDependsOnCounter | src/dsl.ts:3-8 | two `source()` runs on one description can give different texts (`mem0`, then `mem1`) |
| Objects.Get | src/command.ts:147 | a lookup finds an entry exactly when the key is present, and the entry has that key |
| Objects.PutAbsent | src/command.ts:67 | setting a key the map lacks appends the entry last |
| Objects.PutGet | src/command.ts:148 | after a set, the key reads the new entry and every other key reads as before |
| Objects.SpreadGet | src/dsl.ts:1037-1040 | a spread reads a key from the right operand when it has it, otherwise from the left |
| Objects.SpreadKeepsDistinct | src/dsl.ts:1024-1027 | the spread of two objects holds no key twice |
| Objects.SpreadKeepsPlaces | src/dsl.ts:1024-1027 | the left operand's keys keep their places at the front of a spread |
| Objects.Keys | src/settings.ts:629 | `keys()` lists the keys in entry order |
| Objects.RemoveGet | src/settings.ts:577 | after `delete(k)`, `k` is absent and every other key reads as before |
| WebGl.ChannelsCount | src/webgl-enums.ts:117-127 | a count is defined exactly for the codes of the pixel formats |
| WebGl.ChannelsCountTotal | src/webgl-enums.ts:117-127 | Rgb gives 3, Rgba 4, Alpha 1; the switch is total over the enum with results in {1, 3, 4} |
| WebGl.CodesDistinct | src/webgl-enums.ts:63-69 | distinct blend equations, Min 0x8007 and Max 0x8008 included, have distinct codes, and so do pixel formats |
| Packing.Axes | src/command.ts:89-99 | destructuring reads three coordinates: a coordinate the object has is read as its number, one it lacks is `NaN`, and a value that is no object gives three `NaN` |
| Packing.Destructure | src/command.ts:89-99 | destructuring fails exactly for `undefined`; otherwise it gives the first `n` coordinates |
| Packing.Run | src/command.ts:83-85 | the writes of a list go to `offset + j`, value `j`, in order |
| Packing.StartIsProduct | src/command.ts:81 | record `i` starts at `stride * i` |
| Packing.Zeros | src/command.ts:77 | a fresh typed array of `n` floats holds zeros |
| Packing.Store | src/command.ts:84 | a write keeps the array length |
| Packing.Fill | src/command.ts:77-108 | the writes keep the array length |
| Packing.StoreAt | src/command.ts:84 | `data[k] = x` on the typed array does what `Store` says |
| Packing.WriteList | src/command.ts:82-85 | the array branch writes the elements from the offset on |
| Packing.WriteAxes | src/command.ts:88-100 | the `{x, y}` and `{x, y, z}` branches write two or three coordinates from the offset |
| Packing.WriteField | src/command.ts:80-105 | one field writes its values, or fails exactly when the value is unsupported, with that error |
| Packing.WriteRecord | src/command.ts:79-106 | a record writes its fields in layout order and stops at the first field that fails |
| Packing.PrepareData | src/command.ts:72-109 | `prepareData` returns a fresh array holding what `PreparedData` says, or the error it says |
| Packing.LayoutWritesSticky | src/command.ts:101-105 | once a field fails, longer prefixes of the layout fail with the same error |
| Packing.ItemsWritesSticky | src/command.ts:78-107 | once a record fails, longer prefixes of the items fail with the same error |
| Packing.FillPoint | src/command.ts:77-108 | each position of the array holds the last value written there |
| Packing.LayoutInside | src/command.ts:79-106 | a record's writes give each of its positions its slot value |
| Packing.LayoutOutside | src/command.ts:79-106 | a record whose fields fit writes nothing outside its own range |
| Packing.ItemsUntouched | src/command.ts:78-107 | after `n` records nothing is written from `stride * n` on |
| Packing.ItemsPoint | src/command.ts:78-107 | position `r` of record `i` holds what record `i` wrote there |
| Packing.RecordWrites | src/command.ts:78-107 | the last write to a position of record `i` is one made by record `i` |
| Packing.PreparedPoint | src/command.ts:77-108 | position `r` of record `i` of the filled array is that record's slot value |
| Packing.PreparedAt | src/command.ts:72-109 | when the fields fit, the array has `stride * items.length` floats, and position `stride * i + r` holds slot `r` of record `i` |
| Packing.OffsetsGrow | src/dsl.ts:940-942 | a later layout item starts after an earlier one ends |
| Packing.LayoutDisjoint | src/dsl.ts:931-946 | every field of a layout has its own range of the record |
| Packing.SlotOfField | src/command.ts:80-105 | the numbers a field writes are what its slots hold |
| Packing.SlotUnwritten | src/command.ts:77 | a position no field writes keeps its 0 |
| Packing.CountAtMostSize | src/command.ts:82-100 | a field writes at most `size` numbers when no array given for it is longer |
| Packing.LayoutFitsItems | src/command.ts:111-119 | with no array longer than its field, the fields of every record fit in the stride |
| Packing.FieldPoint | src/command.ts:80-85 | number `j` of field `l` of record `i` lands at `stride * i + offset + j` |
| Packing.PackedPoint | src/command.ts:111-119 | the same for the stride and layout of a type map |
| Packing.PackedFields | src/command.ts:111-129 | `setAttributes` and `setInstances` put number `j` of field `l` of record `i` at `stride * i + offset + j` |
| Packing.LayoutWritesErr | src/command.ts:101-105 | a record fails exactly when one of its fields is unsupported |
| Packing.RecordsErr | src/command.ts:72-109 | the records' writes fail exactly when the writes of one record fail |
| Packing.ItemsWritesErr | src/command.ts:72-109 | `prepareData` fails exactly when some field of some record is unsupported |
| StateCache.Read | src/settings.ts:154-550 | `read` of a texture-unit setter gives a texture unit, and of any other setter a value that is no texture unit |
| StateCache.Gl.constructor | src/settings.ts:62-91 | a context starts from the initial cache with an empty log |
| StateCache.Gl.Attributes | src/settings.ts:628-646 | `attributes(map)` reads the held locations when it is called and builds the chain that sets each entry and nulls the missing ones |
| StateCache.Gl.Apply | src/settings.ts:105-152 | `apply` does what `RunSteps` says: the outcome, the new cache and the calls |
| StateCache.Gl.ApplyCached | src/settings.ts:127-141 | the scope of a `cached` setter does what `RunSteps` says |
| StateCache.Gl.ApplyAttribute | src/settings.ts:596-626 | the `attribute` scope does what `RunSteps` says |
| StateCache.Gl.ApplyRenderTarget | src/settings.ts:552-562 | the `renderTarget` scope does what `RunSteps` says |
| StateCache.Gl.Run | src/settings.ts:127-141 | running the callback does what `RunBody` says |
| StateCache.Gl.ApplySetting | src/settings.ts:154-550 | a setter's `apply` does what `Applied` says |
| StateCache.Gl.WriteAttributePointer | src/settings.ts:564-594 | `writeAttributePointer` does what `PointerWritten` says |
| StateCache.BlendEquations | src/settings.ts:340-342 | the alpha equation defaults to the RGB one |
| StateCache.BlendFunctions | src/settings.ts:368-375 | the alpha factors default to the RGB ones |
| StateCache.TextureOf | src/settings.ts:431-466 | `texture(i, t)` adds one unit step for `0 <= i < 16` and throws for any other `i` |
| StateCache.Textures | src/settings.ts:468-477 | `textures(list)` adds exactly 16 unit steps after the chain; unit `i` gets `list[i]`, or null past the end of the list |
| StateCache.ReadWrite | src/settings.ts:154-550 | reading back a write gives the written value; writing back the read restores the cache; a null texture deletes the key and a texture sets it |
| StateCache.CachedEnter | src/settings.ts:131-140 | a changed value is written and applied, the inner scopes run, then the old value is written and applied |
| StateCache.CachedScope | src/settings.ts:127-141 | around a callback, a scope is elided when the value is cached, otherwise entered and left in order |
| StateCache.AppliedCalls | src/settings.ts:154-550 | a setter's `apply` leaves the cache and makes the listed calls; a texture unit is bound inside an `activeTexture(i)` scope |
| StateCache.PointerWrittenEffect | src/settings.ts:564-594 | `writeAttributePointer` changes only the pointer at its location and makes the listed calls: disable and delete for null; otherwise enable, pointer call under a scoped buffer binding, divisor, store |
| StateCache.StepsRestore | src/settings.ts:113-152 | whatever the chain and the callback `Body`, `apply` leaves the cache as it found it, up to the order of the attribute Map, and ends as the callback ended |
| StateCache.CachedRestores | src/settings.ts:127-141 | a `cached` scope restores the cache, up to the order of the attribute Map, on return and on throw |
| StateCache.AttributeRestores | src/settings.ts:596-626 | an `attribute` scope restores every pointer and the rest of the cache, up to the order of the attribute Map, on return and on throw |
| StateCache.RenderTargetRestores | src/settings.ts:552-562 | a `renderTarget` scope restores the cache, up to the order of the attribute Map, on return and on throw |
| StateCache.ThenNests | src/settings.ts:146-152 | `a.then(b).apply(cb)` is `a.apply(() => b.apply(cb))` |
| StateCache.ScopesNestLastInFirstOut | src/settings.ts:127-152 | two changing scopes are entered in chain order and left in reverse order, each exit re-issuing the value its entry replaced |
| StateCache.AttributeElided | src/settings.ts:605-616 | an `attribute` scope is elided when both pointers are null or all five fields agree |
| StateCache.CachedElided | src/settings.ts:128-130 | a scope is elided when the cache holds its value: no write, no call |
| StateCache.AttributeScope | src/settings.ts:618-623 | any other `attribute` scope writes the new pointer, runs the callback and writes back the old one |
| StateCache.AttributeRestoreMovesLocation | src/settings.ts:596-626 | the restore is by location: a location removed for the callback comes back last in the Map |
| StateCache.SetAllSteps | src/settings.ts:630-634 | the first `reduce` adds one `attribute` step per entry, in Map order |
| StateCache.NullMissingSteps | src/settings.ts:635-645 | the second `reduce` appends the null steps after the first |
| StateCache.NullsOfExactly | src/settings.ts:635-645 | a null step is made exactly for an old location that the map lacks |
| StateCache.AttributesChainSteps | src/settings.ts:628-646 | `attributes(map)` sets every entry in order, then nulls exactly the held locations the map lacks |
| StateCache.TargetScope | src/settings.ts:555-559 | with the frame buffer made, the frame buffer and the full-texture viewport are bound around the callback and restored |
| StateCache.ViewportScope | src/settings.ts:204-215 | a viewport scope makes its entry and exit calls and changes nothing else |
| StateCache.RenderTargetScope | src/settings.ts:552-562 | the frame buffer is created and attached, bound with the viewport for the callback, both restored, then deleted; the earlier chain plays no part |
| StateCache.InitialHoldsDefaults | src/settings.ts:62-91 | on a fresh context a scope makes no call exactly when it asks for the default value, and no pointer is held |
| LegacyStateCache.Read | src/webgl.ts:273-476 | `read` of a texture-unit setter gives a texture unit, and of any other setter a value that is no texture unit |
| LegacyStateCache.SetOf | src/webgl.ts:545 | `new Set(locations)` has no repeats and the same members |
| LegacyStateCache.Gl.constructor | src/webgl.ts:201-228 | a context starts from the initial cache with an empty log |
| LegacyStateCache.Gl.Apply | src/webgl.ts:231-271 | `apply` does what `RunSteps` says |
| LegacyStateCache.Gl.ApplyCached | src/webgl.ts:247-260 | the scope of a `cached` setter does what `RunSteps` says |
| LegacyStateCache.Gl.ApplyDiffed | src/webgl.ts:541-599 | the diffing scopes do what `RunSteps` says |
| LegacyStateCache.Gl.ApplyRenderTarget | src/webgl.ts:601-610 | the `renderTarget` scope does what `RunSteps` says |
| LegacyStateCache.Gl.Run | src/webgl.ts:247-260 | running the callback does what `RunBody` says |
| LegacyStateCache.Gl.ApplySetting | src/webgl.ts:273-451 | a setter's `apply` does what `Applied` says |
| LegacyStateCache.Gl.SetAttributeOf | src/webgl.ts:984-1021 | `setAttribute` does what `SetAttribute` says |
| LegacyStateCache.Gl.ApplyDiff | src/webgl.ts:548-558 | the two `forEach` loops of `applyDiff` append the calls `DiffCalls` lists |
| LegacyStateCache.TextureOf | src/webgl.ts:453-476 | `texture(i, t)` adds one unit step for `0 <= i < 16` and throws for any other `i` |
| LegacyStateCache.Textures | src/webgl.ts:478-484 | `textures(list)` adds exactly 16 unit steps; unit `i` gets `list[i]`, or null past the end |
| LegacyStateCache.ReadWrite | src/webgl.ts:273-476 | reading back a write gives the value, writing back the read restores the cache, and the location sets are untouched |
| LegacyStateCache.AppliedCalls | src/webgl.ts:453-476 | a setter's `apply` leaves the cache and makes the listed calls; a texture unit is bound inside an `activeTexture(i)` scope |
| LegacyStateCache.CachedEnter | src/webgl.ts:251-259 | a changed value is written and applied, the inner scopes run, then the old value is written and applied |
| LegacyStateCache.CachedElided | src/webgl.ts:249-250 | a scope is elided when the cache holds its value |
| LegacyStateCache.CachedScope | src/webgl.ts:247-260 | around a callback, a scope is elided or entered and left in order |
| LegacyStateCache.DiffedScope | src/webgl.ts:541-569 | a diffing scope makes the difference from the old set to the new one, then the callback's calls, then the difference back, and ends with the old set |
| LegacyStateCache.StepsRestore | src/webgl.ts:231-271 | `apply` leaves the cache exactly as it found it, only appends calls, and ends as the callback ended |
| LegacyStateCache.CachedRestores | src/webgl.ts:247-260 | a `cached` scope restores on return and on throw |
| LegacyStateCache.DiffedRestores | src/webgl.ts:563-567 | a diffing scope restores the old set on return and on throw |
| LegacyStateCache.RenderTargetRestores | src/webgl.ts:601-610 | a `renderTarget` scope restores on return and on throw |
| LegacyStateCache.ThenNests | src/webgl.ts:265-271 | `a.then(b).apply(cb)` is `a.apply(() => b.apply(cb))` |
| LegacyStateCache.ScopesNestLastInFirstOut | src/webgl.ts:240-271 | two changing scopes are entered in chain order and left in reverse order |
| LegacyStateCache.OffsEffect | src/webgl.ts:549-553 | the first loop switches off exactly the locations only the source holds |
| LegacyStateCache.OnsEffect | src/webgl.ts:554-558 | the second loop switches on exactly the locations only the target holds |
| LegacyStateCache.DiffMoves | src/webgl.ts:548-558 | `applyDiff(source, target)` moves the GL from the source set to the target set |
| LegacyStateCache.DiffRoundTrip | src/webgl.ts:560-567 | the exit difference undoes the entry one, location by location |
| LegacyStateCache.OffsMembers | src/webgl.ts:549-553 | an off call is made exactly for a location only in the source, and no on call |
| LegacyStateCache.OnsMembers | src/webgl.ts:554-558 | an on call is made exactly for a location only in the target, and no off call |
| LegacyStateCache.DiffMembers | src/webgl.ts:548-558 | each location is switched off exactly when only the source holds it, and on exactly when only the target does |
| LegacyStateCache.DiffOfSameSet | src/webgl.ts:548-558 | sets with the same members differ by no call |
| LegacyStateCache.OnsFromEmpty | src/webgl.ts:548-558 | from the empty set the difference switches on every target location, in order |
| LegacyStateCache.ViewportScope | src/webgl.ts:288-303 | a viewport scope makes its entry and exit calls and changes nothing else |
| LegacyStateCache.TargetScope | src/webgl.ts:604-607 | with the frame buffer made, it and the full-texture viewport are bound around the callback and restored |
| LegacyStateCache.RenderTargetScope | src/webgl.ts:601-610 | the frame buffer is created and attached, bound with the viewport for the callback, both restored, then deleted; the earlier chain plays no part |
| LegacyStateCache.InitialHoldsDefaults | src/webgl.ts:201-228 | on a fresh context a scope makes no call exactly for the default value; both sets start empty, so a first diffing scope switches on each location once, in order |
| LegacyStateCache.ComponentCount | src/webgl.ts:992-1015 | FLOAT 1, VEC2 2, VEC3 3, VEC4 4, MAT2 4, MAT3 9, MAT4 16; any other type throws with that type |
| LegacyStateCache.SetAttributeCalls | src/webgl.ts:984-1021 | a missing name makes no call; otherwise the pointer call, with stride and offset times 4, under a restored buffer binding, or the error after the restore |
| Command.IndexOfUnknown | src/command.ts:65-69 | a name that is no uniform has no texture index |
| Command.IndexesSize | src/command.ts:65-69 | the index map holds one entry per sampler uniform |
| Command.IndexOfSampler | src/command.ts:65-69 | sampler uniforms get the indexes 0, 1, 2, … in key order; other uniforms get none |
| Command.NoTextures | src/command.ts:204 | the list starts as sixteen nulls |
| Command.Slots | src/command.ts:198-205 | the texture list has sixteen slots |
| Command.SlotsAt | src/command.ts:198-205 | slot `k` holds the texture recorded at index `k`, and null when there is none |
| Command.Convert | src/command.ts:139-164 | a number, an array or a texture converts; any other value converts exactly when the uniform is `vec2` or `vec3` and the value can be destructured; otherwise it throws |
| Command.ConvertAccepted | src/command.ts:142-159 | a value of the declared type is never rejected: `[v]`, the array, the coordinates, or the sampler's index with the texture recorded there |
| Command.ConvertTexture | src/command.ts:146-149 | a texture for a sampler uniform becomes `[index]` with the texture recorded at that index |
| Command.ConvertPoint | src/command.ts:150-156 | a point for a `vec2` or `vec3` uniform becomes its first two or three coordinates |
| Command.DeclaredTypeAt | src/command.ts:150-153 | `uniforms[name]` reads the type a uniform was declared with |
| Command.UniformsSticky | src/command.ts:138-166 | the loop ends at the first entry that throws, with the entries before it done |
| Command.UniformsRestore | src/command.ts:136-168 | `setUniforms` leaves the settings cache as it found it, only appends calls, and keeps one texture per index, whether or not it throws |
| Command.SerialKept | src/webgl.ts:945-982 | a uniform upload creates no frame buffer |
| Command.TextureRecorded | src/command.ts:146-149 | a texture passed for a uniform is recorded at its index unless a later entry takes that index |
| Command.TextureDrawn | src/command.ts:198-205 | that texture is what `draw` gives to unit `k` |
| Command.Indices | src/webgl.ts:843 | `new Uint16Array(data)` keeps the length; each index becomes the whole number in 0..65535 congruent to it modulo 2^16, so an index already in that range is kept |
| Command.UploadLog | src/webgl.ts:800-815 | an upload restores the binding and only appends calls |
| Command.UploadReaches | src/webgl.ts:809-811 | an upload inside the binding of its own target fills the bound buffer |
| Command.AppendedReaches | src/webgl.ts:809-811 | the calls of such an upload fill the buffer of the scope |
| Command.ArrayUploadReaches | src/webgl.ts:800-815 | an array buffer's content reaches that buffer, and the binding is restored |
| Command.ElementsUploadReaches | src/webgl.ts:842-857 | the corrected element upload reaches the elements buffer whatever is bound |
| Command.ElementsUploadMisses | src/webgl.ts:851-853 | as written, the element indexes go to the buffer bound to `ARRAY_BUFFER`, or to none on a fresh context |
| Command.UploadMisses | src/webgl.ts:851-853 | an `ARRAY_BUFFER` upload inside an elements binding fills whatever is bound to `ARRAY_BUFFER` |
| Command.AppendedMisses | src/webgl.ts:851-853 | the calls of that upload fill the array binding |
| Command.ArrayBuffer.constructor | src/webgl.ts:788-798 | a new buffer has its handle and length 0 |
| Command.ArrayBuffer.SetContent | src/webgl.ts:800-815 | `setContent` stores the length and uploads to the buffer |
| Command.ElementsBuffer.constructor | src/webgl.ts:830-840 | a new buffer has its handle and length 0 |
| Command.ElementsBuffer.SetContent | src/webgl.ts:842-857 | `setContent` stores the length and makes the as-written upload: the 16-bit indexes go to `ARRAY_BUFFER` inside the `ELEMENT_ARRAY_BUFFER` binding |
| Command.PointersSticky | src/command.ts:47-63 | the `forEach` of `setAttribute` stops at the first type that throws |
| Command.PointersRestore | src/command.ts:47-63 | setting the pointers leaves the settings cache as it was, whether or not a type throws |
| Command.DefaultCount | src/command.ts:170-176 | the default count is null for a zero stride, and otherwise the whole number of records in the buffer |
| Command.DefaultCountOfRecords | src/command.ts:170-176 | a buffer of `n` records of `stride` floats gives the count `n` |
| Command.Dispatch | src/command.ts:208-237 | first match wins: instanced elements, instanced arrays, elements, arrays for a truthy vertex count; with none it throws |
| Command.DefaultDispatch | src/command.ts:170-237 | with the default counts, a draw is instanced exactly when there are instance fields and elements or attribute fields; without elements and without instance fields it throws exactly when there is not one whole vertex |
| Command.EnabledLocations | src/command.ts:183-189 | every active attribute's location is enabled |
| Command.DrawEnds | src/command.ts:179-238 | every draw leaves the settings cache as it found it, only appends calls, and returns exactly when the dispatch picked a call; otherwise it throws after restoring |
| Command.Command.constructor | src/command.ts:31-45 | the program, the three new buffers, and the strides and layouts of the source's type maps |
| Command.Command.New | src/command.ts:31-70 | the pointers of every attribute field and then every instance field, then the texture indexes; a type without a component count throws and no command is made |
| Command.Command.SetPointers | src/command.ts:47-63 | one `forEach` of `setAttribute` does what `PointersRun` says |
| Command.Command.AssignIndexes | src/command.ts:65-69 | the `for … in` loop builds the sampler index map |
| Command.Command.SetAttributes | src/command.ts:111-119 | the records are packed and stored in the attributes buffer, or the error is returned and nothing is stored |
| Command.Command.SetInstances | src/command.ts:121-129 | the same for the instances buffer |
| Command.Command.SetElements | src/command.ts:131-134 | the elements buffer records the index count and the as-written upload is made, which sends the indexes to `ARRAY_BUFFER` |
| Command.Command.SetUniform | src/webgl.ts:945-982 | one upload inside a `program` scope; a name the program lacks is skipped |
| Command.Command.SetUniforms | src/command.ts:136-168 | entry by entry, convert, record and upload, as `UniformsRun` says; the index map is unchanged |
| Command.Command.Draw | src/command.ts:170-239 | the program, both attribute sets and the sixteen units around the chosen draw call, with the defaults for missing counts |
| Disposables.Trace.constructor | src/disposable.ts:50 | a trace starts empty |
| Disposables.Trace.Dispose | src/disposable/dispose.ts:4 | `item.dispose()` is one event |
| Disposables.Trace.Construct | src/disposable.ts:52-54 | a constructor gives its resource or throws, and the run is one event |
| Disposables.Trace.Enter | src/disposable.ts:56 | entering the callback is one event, with the items |
| Disposables.Disposals | src/disposable/dispose.ts:3-5 | one `dispose()` per item, in item order |
| Disposables.DisposeAll | src/disposable/dispose.ts:3-5 | `dispose(...items)` disposes every argument once, in argument order; no arguments, no call |
| Disposables.Use | src/disposable/use.ts:3-12 | `use` returns or rethrows what the callback gives for the same item, and disposes the item once afterwards |
| Disposables.ConstructAll | src/disposable.ts:52-54 | the constructors run in order until one throws |
| Disposables.Uses | src/disposable.ts:38-60 | `uses` returns what `UsesResult` says and makes the events `UsesEvents` lists |
| Disposables.JoinedDisposable.constructor | src/disposable/join.ts:4 | the joined object keeps the items it was given |
| Disposables.JoinedDisposable.Dispose | src/disposable/join.ts:5-7 | `dispose()` disposes every value once, in list order |
| Disposables.Join | src/disposable/join.ts:10-14 | `join` keeps the items in order and disposes nothing yet |
| Disposables.CreatedPrefix | src/disposable.ts:51-56 | the created items come from a prefix of the constructors, all of them when none throws, and the next constructor is the one that threw |
| Disposables.DisposalsCount | src/disposable.ts:58 | each item is disposed as often as it occurs, and nothing else happens |
| Disposables.ConstructingEvents | src/disposable.ts:52-54 | the loop only constructs, and constructs each created item as often as it was created |
| Disposables.UsesParts | src/disposable.ts:51-59 | a `uses` trace is the constructor runs, then the callback when none threw, then the disposals |
| Disposables.UsesCounts | src/disposable.ts:51-59 | every created item is disposed as often as it was constructed; the callback runs once, with the created items, exactly when no constructor threw |
| Disposables.UsesOrder | src/disposable.ts:57-59 | nothing is constructed or called after the first disposal |

## Findings

| source | as written | input that shows it | evidently intended | confidence | as-written member | corrected member |
|---|---|---|---|---|---|---|
| src/dsl.ts:249 | `ceil` is bound to the GLSL `floor` built-in | any node `x`: `x.ceil()` renders `floor(x)` | `ceil(x)` | not executed | Glsl.CeilRendersFloor | Glsl.CeilRendersCeil |
| src/dsl.ts:1073 | the `gl_PointCoord` input has the content `gl_FragCoord` | a fragment colour that reads `gl_PointCoord` renders `gl_FragCoord`, a `vec4`, where a `vec2` is declared | the content `gl_PointCoord` | not executed | Sources.PointCoordRendersFragCoord | Sources.IntendedBuiltInsWin |
| src/webgl.ts:851-853 | `ElementsBuffer.setContent` binds `ELEMENT_ARRAY_BUFFER` but uploads to `ARRAY_BUFFER` | `setElements([0, 1, 2])` on a fresh context: no buffer is bound to `ARRAY_BUFFER`, so no buffer receives the indexes | upload to `ELEMENT_ARRAY_BUFFER`, as src/elements-buffer.ts does | not executed | Command.ElementsUploadMisses | Command.ElementsUploadReaches |

Each row keeps both definitions.

- `Glsl.CeilAsWritten` is the `ceil` as written, and `Glsl.Ceil` is `ceil` corrected.
- `Sources.FragmentBuiltInsAsWritten` is the built-in list as written, which `Sources.Source` and `Sources.FragmentInputs` use. `Sources.FragmentBuiltIns` is the corrected list, and `Sources.FragmentInputsOver` builds the callback inputs over either.
- `Command.ElementsUploadAsWritten` is the element upload as written, which `Command.ElementsBuffer.SetContent` and `Command.Command.SetElements` use. `Command.ElementsUpload` is the corrected upload.

## Left out

- Floating point: numbers are real values or `NaN`. There is no rounding to 32 bits, and `Number.prototype.toString` is not modelled: a number argument of `val` arrives as its already printed text.
- The text of error messages built with `JSON.stringify`, and `console.warn`: an error is a datatype value naming its kind and the name involved, and a warning makes no call.
- The thin wrappers over the native WebGL context (src/gl.ts, src/program.ts, src/texture.ts, src/render-buffer.ts, src/frame-buffer.ts, src/array-buffer.ts, src/elements-buffer.ts, and `Gl`, `Shader`, `Texture`, `RenderBuffer` of src/webgl.ts): each is a foreign call. It appears only as a log event, and the objects it creates are handles that the caller passes in.
- Command.Command.SetUniform: the nine kind-specific uniform calls (`uniform1i`, `uniform2fv`, `uniformMatrix4fv`, …) are one `Uniform` event carrying the numbers, and the boolean case's `value[0] ? 1 : 0` is not modelled.
- Command.DrawBody: the draw events `DrawArrays`, `DrawElements` and their instanced forms carry only the counts, not the primitive mode (`this.primitivesType`) that src/command.ts:212-234 passes to every draw call. The mode is fixed when the command is built and never changes, so no property here depends on it.
- StateCache.Body: a callback is either a run of calls that ends in an outcome, or exactly one nested `apply` chain, whose own callback has the same form, and the outcome of that chain. Calls made before or after a nested `apply`, or two nested `apply`s one after the other, cannot be written, so `StateCache.StepsRestore` covers every callback of that shape and not every callback.
- LegacyStateCache.Body: the same shape limit as `StateCache.Body`, and the same limit on `LegacyStateCache.StepsRestore`.
- Command.DefaultCount: the division of the default counts is integer division. A buffer length that is no multiple of the stride would give a fraction in the source.
- Command.Command.SetElements: `Uint8Array` and `Uint16Array` inputs are not modelled; a plain array is converted modulo 2^16.
- TypeMaps.LexLe: names are ordered by Unicode scalar value, while JavaScript's default `sort()` (src/dsl.ts:934) compares UTF-16 code units. The two orders differ only for names with characters outside the Basic Multilingual Plane.
- LegacyStateCache.Setting: the blend-equation setting admits `MIN` and `MAX`, which the legacy `BlendEquation` enum of src/webgl.ts:6-10 does not list. The model can state a legacy setting the source's types reject, and everything proved holds for those values too.
- Command.Slots: a texture recorded at index 16 or higher, or at the `undefined` index of a uniform that is no sampler, is dropped, because `textures` reads only the first sixteen slots.
- `Command.dispose` and the `command()` wrapper of src/command.ts: each only forwards to wrappers that are left out.
- The optional `depthBuffer` of the `FrameBuffer` constructor: `renderTarget` never passes one.
- `null` as a user value: a value the user passes is a number, an array, a texture, another object or `undefined`.
- The face-culling setters, which src/webgl.ts does not have, are absent from `LegacyStateCache`. Its other setters are those of src/settings.ts.
- Disposables.Use: a `dispose()` that itself throws, and side effects of the callback on the trace, are not modelled. Every resource's `dispose()` returns normally.
- Disposables.Uses: `uses(...constructors)` is applied to its callback in one method instead of returning a function.
- src/disposable/uses.test.ts imports `.`, an index module that is not part of this model, and expects reverse-order disposal. The model follows src/disposable.ts, which disposes in creation order.
- src/disposable.test.ts imports src/disposable.ts, the modelled file, but tests an API that file does not have: a `Disposable.create`, and `uses` constructors that receive the items created before them. It also expects reverse-order disposal. The model follows the code of src/disposable.ts.
- src/disposable/disposable.ts only re-exports the other helpers.
- The example applications and the build and test tooling.
- The process-wide id counter is an `IdSequence` object that the caller passes in, not a hidden global.
- TypeScript's overloads and conditional types, which have no runtime behaviour.
