# rust-security-lints in Dafny

A model of the four lint passes of `rust-security-lints`. Each pass is a
late lint pass: the compiler calls it once for every HIR node of a given
kind, and it may report diagnostics on that node.

- `missing_type` has two warn-level lints:
  - `MISSING_LET_TYPE` reports a `let` binding without a type annotation;
  - `MISSING_CLOSURE_PARAM_TYPE` reports each closure parameter without one.
- `security_indexing_usage` (deny) reports every index or slice expression and every impl of `Index` or `IndexMut`.
- `security_panic_usage` (deny) reports:
  - `unwrap` and `expect` method calls;
  - calls whose callee's definition path contains one of the panic backends' signatures, such as the standard library's panic machinery. These are reported at the user-written site of the macro that produced them.
- `security_unsafe_usage` (deny) reports `unsafe` blocks whose check mode is `UnsafeBlock(UserProvided)`, `unsafe fn`, `unsafe trait` and `unsafe impl Trait for T`.

Each pass is one module:
- `MissingType`;
- `IndexingUsage`;
- `PanicUsage`;
- `UnsafeUsage`.

They share these modules:
- `Spans`: spans with their syntax context, `from_expansion`, `desugaring_kind`, `is_empty` and `source_callsite`.
- `Lints`: lint declarations and diagnostics.
- `Strings`: `str::contains`.
- `Hir`: the node kinds the passes inspect, plus the compiler queries they make.

### How each hook is modelled

Most hooks are functions from the visited node to an `Option<Diagnostic>`. The diagnostic records:
- the lint's name;
- its level;
- the span it is reported at;
- its primary message, as the exact string the source emits.

The closure-parameter check of `missing_type` is different, because it is a loop over the parameters with a `continue`. It is an imperative `method` with a `for` loop. That method is proved equal to the function `ClosureDiagnostics`, the function model of `check_expr`. Its loop invariant ties the parameters seen so far to `ParamDiagnostics`, and the properties of the loop's output are lemmas about that function.

### Compiler facilities as inputs

- `hir_body` is resolved in advance: a closure node carries its `Body`.
- `qpath_res` is resolved in advance: a path expression carries its `Res`.
- `def_path_str` and the `Index` / `IndexMut` lang items are fields of `Hir.Context`:
  - `def_path_str` is a function from `DefId` to string;
  - each lang item is an `Option<DefId>`.

### Sample programs

The sample programs the passes are exercised with appear as lemmas named `Sample…`. Each states the diagnostics its construct yields.

### Behaviour worth knowing

The model follows the code, and these consequences of the code are stated as lemmas:

- **The desugaring guard never fires.** `check_local` has a desugaring guard of its own (rules/missing_type/src/lib.rs:66-69), placed after the expansion guard. In the compiler's span model every desugared span is an expansion span, so the expansion guard at lines 62-64 excludes those spans already (`Spans.DesugaredIsExpansion`). The model keeps both guards, in the source's order.
- **Accessor calls may be reported at generated spans.** `unwrap`/`expect` calls are reported at the expression's own span (rules/panic_usage/src/lib.rs:94-96), which may be an expansion span. Only backend calls are moved to `source_callsite` (line 116; the last ensures of `PanicUsage.CheckExpr`).
- **Async closures go through the parameter loop.** The closure check skips only `ClosureKind::Coroutine` bodies (rules/missing_type/src/lib.rs:111-113). The parameters of a `CoroutineClosure`, which is an `async` closure, go through the same loop as any other closure's. Whether an untyped one is then reported depends on the spans the compiler's async lowering gives that parameter's pattern and type. The model takes those spans as inputs and does not fix them.
- **Unsafe blocks and index expressions are reported inside macro expansions.** Neither `check_expr` of `unsafe_usage` (unsafe_usage/src/lib.rs:47-49) nor that of `indexing_usage` (rules/indexing_usage/src/lib.rs:36-37) has an expansion guard. An `unsafe { }` or an `a[i]` written inside a macro body is reported at its expansion span (`UnsafeUsage.ExpandedUnsafeBlockReported`, `IndexingUsage.ExpandedIndexReported`).
- **Slicing means a `Struct` operand, not a range.** The comment at rules/indexing_usage/src/lib.rs:52 and the doc at lines 118-120 speak of range slicing, but the test is on the operand's node kind. Every range but `a..=b` lowers to a `Struct` expression. `a..=b` lowers to a call of `RangeInclusive::new`, so `a[1..=3]` gets the indexing message. Conversely, a struct-literal key such as `m[Key { id: 1 }]` gets the slicing message (`IndexingUsage.SampleOperandKinds`).
- **Classification is by first match.** `from_def_path` (rules/panic_usage/src/lib.rs:58-72) returns the first signature, in its fixed order, that the path contains. A path containing `panicking::` is therefore classified `PanickingModule`, whatever else it contains (`PanicUsage.FromDefPath`, `PanicUsage.PanickingModuleWins`). The test is on substrings, not on the defining crate, so a user's own `mycrate::panicking::log` is classified and reported the same way (`PanicUsage.AnyPanickingPath`), as is any function whose path merely contains `assert_failed` or another signature. A path without `panicking::`, such as `std::rt::begin_panic`, falls through to the later signatures (`PanicUsage.BeginPanicThroughRt`). Which string `def_path_str` renders for a given callee is an input to the model.

## Model

| member | source | states |
|---|---|---|
| Spans.SourceCallsite | rules/panic_usage/src/lib.rs:116 | the call-site walk ends at a span that is not from an expansion, and leaves a user-written span unchanged |
| Spans.SourceCallsiteIdempotent | rules/panic_usage/src/lib.rs:116 | resolving an already resolved call site changes nothing |
| Spans.NestedExpansionReachesOutermostSite | rules/panic_usage/src/lib.rs:112-117 | a span expanded inside a macro expansion resolves to the outermost macro's user-written call site |
| Spans.DesugaredIsExpansion | rules/missing_type/src/lib.rs:62-69 | a span with a desugaring kind is always an expansion span, so the desugaring guard cannot fire once the expansion guard has passed |
| Strings.ContainsIffOccurs | rules/panic_usage/src/lib.rs:59-67 | the left-to-right search succeeds exactly when the pattern occurs at some position of the string |
| Strings.ContainsSlice | rules/panic_usage/src/lib.rs:59-67 | every slice of a string is contained in it |
| Hir.OptDefId | rules/indexing_usage/src/lib.rs:99 | a resolution yields a definition id exactly when it is a definition, and then yields that definition's id |
| MissingType.CheckLocal | rules/missing_type/src/lib.rs:49-84 | a `let` is reported exactly when its pattern is not `_`, its span is user-written and it has no type; the report is at the pattern, with the let-binding lint at warn level and its message |
| MissingType.WildcardLetNeverReported | rules/missing_type/src/lib.rs:54-57 | `let _ = e;` is never reported, typed or not |
| MissingType.GeneratedLetNeverReported | rules/missing_type/src/lib.rs:58-69 | a `let` from a macro expansion or a desugaring is never reported |
| MissingType.AnnotationDecidesUserLet | rules/missing_type/src/lib.rs:71-83 | for a user-written named `let`, adding a type silences it and removing the type makes it reported at the pattern, whatever the initialiser |
| MissingType.CheckExpr | rules/missing_type/src/lib.rs:94-141 | the closure check emits its closure's parameter diagnostics: nothing for expanded spans, non-closures and coroutine bodies; otherwise one per non-`_` parameter without a written type, in order |
| MissingType.ParamDiagnostics | rules/missing_type/src/lib.rs:121-140 | the loop emits at most one diagnostic per parameter |
| MissingType.NoClosureDiagnostics | rules/missing_type/src/lib.rs:99-113 | macro-produced expressions, non-closures and coroutine bodies yield no parameter diagnostics |
| MissingType.ParamDiagnosticsAppend | rules/missing_type/src/lib.rs:121-140 | the loop treats the parameters independently: the output for a concatenation is the concatenation of the outputs |
| MissingType.WildcardParamSkipped | rules/missing_type/src/lib.rs:122-125 | inserting a `_` parameter anywhere leaves the diagnostics unchanged |
| MissingType.ReportablePositions | rules/missing_type/src/lib.rs:121-140 | the positions of the parameters the loop reports, all within the parameter list |
| MissingType.ReportablePositionsExact | rules/missing_type/src/lib.rs:121-140 | those positions are strictly increasing, and a position is among them exactly when its parameter is not `_` and has no written type |
| MissingType.ParamDiagnosticsInOrder | rules/missing_type/src/lib.rs:127-139 | the k-th diagnostic is the one for the k-th reportable parameter, at its pattern span, and there is no other diagnostic |
| MissingType.ParamDiagnosticsCount | rules/missing_type/src/lib.rs:121-140 | the number of diagnostics equals the number of reportable parameters |
| MissingType.SampleLets | rules/missing_type/ui/main.rs:10-17 | `let x = 5;` is reported at `x`; `let y: i32 = 10;` and `let _ = 42;` are not |
| MissingType.SampleUntypedClosure | rules/missing_type/ui/main.rs:19-20 | `\|a, b\| a + b` yields two diagnostics, at `a` and then at `b` |
| MissingType.SampleTypedClosure | rules/missing_type/ui/main.rs:22-23 | a closure whose parameters are all typed yields nothing, while the untyped `let sub` holding it is reported |
| MissingType.SampleHalfTypedClosure | rules/missing_type/ui/main.rs:25-26 | `\|a: i32, b\| a * b` is reported once, at `b` |
| MissingType.SampleWildcardClosure | rules/missing_type/ui/main.rs:29-30 | `\|_\| 0` is not reported |
| MissingType.SampleWildcardFirstParam | rules/missing_type/src/lib.rs:21-22 | `\|_, b\| b` is reported only at `b` |
| MissingType.SampleAsyncFn | rules/missing_type/ui/main.rs:33-47 | the async-desugared rebinding `let` and the coroutine body of an `async fn` are not reported |
| IndexingUsage.ClassifyOperand | rules/indexing_usage/src/lib.rs:38-77 | an operand slices exactly when it is a `Struct` expression, which every range except `a..=b` lowers to; literals and all other operands index |
| IndexingUsage.CheckExpr | rules/indexing_usage/src/lib.rs:31-82 | exactly index expressions are reported, at the whole expression, with the deny-level lint; the message is the slicing one exactly when the operand is a `Struct` expression (every range except `a..=b`) and the indexing one otherwise |
| IndexingUsage.ExpandedIndexReported | rules/indexing_usage/src/lib.rs:36-44 | an index expression inside a macro expansion is reported at its expansion span |
| IndexingUsage.CheckExprMessage | rules/indexing_usage/src/lib.rs:37-77 | the reported message is the one for the operand's access kind |
| IndexingUsage.ImplementedTrait | rules/indexing_usage/src/lib.rs:97-99 | exactly for a trait impl the result is `opt_def_id` of its trait path's resolution, and nothing is found for any other item |
| IndexingUsage.CheckItem | rules/indexing_usage/src/lib.rs:92-115 | an item is reported exactly when it is a trait impl whose trait path names the `Index` or the `IndexMut` lang item; the report is at the item with the impl message |
| IndexingUsage.CheckItemIgnores | rules/indexing_usage/src/lib.rs:97-103 | non-impls, inherent impls, unresolved trait paths and other traits are never reported |
| IndexingUsage.SampleIndexExprs | indexing_usage/ui/main.rs:14-26 | `array[0]` and `self.0[index]` are reported as indexing, `&array[1..]` as slicing |
| IndexingUsage.SampleOperandKinds | rules/indexing_usage/src/lib.rs:52-76 | `a[1..=3]`, whose operand is a call of `RangeInclusive::new`, gets the indexing message; `m[Key { id: 1 }]`, whose operand is a struct literal, gets the slicing message |
| IndexingUsage.SampleIndexImpl | indexing_usage/ui/main.rs:22-28 | `impl Index<usize> for MyVec` is reported at the impl |
| PanicUsage.FromMethod | rules/panic_usage/src/lib.rs:35-41 | exactly the names `unwrap` and `expect` are recognised, each as its own kind |
| PanicUsage.FromMethodInverse | rules/panic_usage/src/lib.rs:29-41 | method name and kind are inverse: a kind's name maps back to it, and a recognised name is that kind's name |
| PanicUsage.FromDefPath | rules/panic_usage/src/lib.rs:58-72 | no backend exactly when the path contains no signature; otherwise the path contains the chosen backend's signature and none tried before it |
| PanicUsage.FirstMatchDetermines | rules/panic_usage/src/lib.rs:58-72 | a path containing a backend's signature and none of the earlier ones is classified as that backend |
| PanicUsage.NotContainedByChar | rules/panic_usage/src/lib.rs:58-72 | a pattern holding a character the string lacks is not contained in it |
| PanicUsage.SignatureExcludesEarlier | rules/panic_usage/src/lib.rs:58-72 | no signature contains a signature tried before it |
| PanicUsage.FromDefPathSignature | rules/panic_usage/src/lib.rs:49-72 | each backend's signature, as a path on its own, classifies back to that backend |
| PanicUsage.InCorePanicking | rules/panic_usage/src/lib.rs:59-60 | every path under `core::panicking::` contains the module signature |
| PanicUsage.AnyPanickingPath | rules/panic_usage/src/lib.rs:59-60 | every path containing `panicking::`, whatever precedes or follows it and whichever crate defines it, classifies as the `panicking` module |
| PanicUsage.PanickingModuleWins | rules/panic_usage/src/lib.rs:59-62 | `core::panicking::panic_fmt` is classified as the `panicking` module, not as `panic_fmt` |
| PanicUsage.BeginPanicThroughRt | rules/panic_usage/src/lib.rs:58-72 | a path that lacks `panicking::`, such as `std::rt::begin_panic`, is classified by a later signature, here `BeginPanic` |
| PanicUsage.PanicMessageInjective | rules/panic_usage/src/lib.rs:96-102 | distinct accessor kinds and backends yield distinct messages |
| PanicUsage.TagNameInjective | rules/panic_usage/src/lib.rs:29-55 | distinct variants have distinct debug names |
| PanicUsage.AccessorKind | rules/panic_usage/src/lib.rs:90-92 | for a method call the result is exactly `from_method` of its name, so a kind is found exactly for a method call with a recognised name |
| PanicUsage.CalleeBackend | rules/panic_usage/src/lib.rs:107-112 | for a call whose callee is a path resolving to a definition, the result is exactly `from_def_path` of that definition's path; nothing is found for any other expression |
| PanicUsage.CheckExpr | rules/panic_usage/src/lib.rs:84-124 | an expression is reported exactly when it is a recognised accessor call or a backend call. Accessors are reported at the call, backends at the source call site (never an expansion span), each with its tag's message |
| PanicUsage.UnresolvedCallNotReported | rules/panic_usage/src/lib.rs:107-111 | a call whose callee is not a path, or resolves to no definition, is not reported |
| PanicUsage.MacroBackendAtCallSite | rules/panic_usage/src/lib.rs:107-123 | a macro-expanded call into the `panicking` module, at any depth of expansion, is reported once, at the user-written site its call-site chain ends in |
| PanicUsage.SampleAccessors | rules/panic_usage/ui/main.rs:9-11 | `x.unwrap()` and `x.expect("")` are reported at the call with the `Unwrap` and `Expect` messages |
| PanicUsage.SampleAssertEq | rules/panic_usage/ui/main.rs:16 | `assert_eq!(0, 1)` is reported at the macro call, tagged `PanickingModule` |
| UnsafeUsage.CheckExpr | unsafe_usage/src/lib.rs:41-60 | a block is reported, at the block, exactly when its check mode is `UnsafeBlock(UserProvided)` |
| UnsafeUsage.ExpandedUnsafeBlockReported | unsafe_usage/src/lib.rs:47-59 | an `unsafe` block with check mode `UnsafeBlock(UserProvided)` inside a macro expansion is reported at its expansion span |
| UnsafeUsage.SafeOrGeneratedBlockNotReported | unsafe_usage/src/lib.rs:47-49 | ordinary blocks and compiler-generated unsafe blocks are not reported |
| UnsafeUsage.BlockContentsIrrelevant | unsafe_usage/src/lib.rs:47-59 | the verdict on a block does not depend on its statements or tail expression |
| UnsafeUsage.CheckItem | unsafe_usage/src/lib.rs:69-124 | per item kind: a fn exactly when its header is plain `unsafe`, a trait exactly when it is `unsafe`, an impl exactly when it is an `unsafe` trait impl, nothing else; each report at the item with its kind's message |
| UnsafeUsage.CheckItemIffUnsafe | unsafe_usage/src/lib.rs:69-124 | an item is reported exactly when it is declared unsafe |
| UnsafeUsage.ItemBodyIrrelevant | unsafe_usage/src/lib.rs:76-120 | a function's body and a trait's or impl's members do not affect the verdict |
| UnsafeUsage.TargetFeatureFnNotReported | unsafe_usage/src/lib.rs:77-80 | a function with target-feature safety is not reported |
| UnsafeUsage.SampleItems | rules/unsafe_usage/ui/main.rs:3-12 | the `unsafe fn`, `unsafe trait` and `unsafe impl` are reported and their safe counterparts are not; an inherent impl, a case not in the sample, is not reported either |
| UnsafeUsage.SampleBlocks | rules/unsafe_usage/ui/main.rs:20-28 | the `unsafe { }` block in `main` is reported and the plain block is not; a plain block nested inside an unsafe block, a case not in the sample, is not reported either |

## Left out

- Lint registration (`register_lints`, the lint store, the `declare_lint_pass!` plumbing, the dylint library entry point): this is glue code from the host, with no decisions in it.
- The tree walk that calls the hooks, and the diagnostic sink: the compiler owns these. Each hook is modelled for one node, returning what it would emit.
- Lint-level configuration is not modelled. This covers `#![warn(...)]` in the sample programs and command-line overrides. Diagnostics carry the lint's declared default level.
- The declarations' rendering into compiler output, and the help notes and suggestions a diagnostic may carry: the passes set only a primary message, and the model records that.
- The UI test harness (`dylint_testing`): its expected-output files are not part of this model. The sample programs appear as `Sample…` lemmas instead.
- Node kinds and fields the passes never inspect are folded into catch-all variants (`OtherExpr`, `OtherItem`, `OtherPat`), and nodes carry no ids. Bodies of items are referred to by number only.
- `Strings.Contains` models `str::contains` on `char` sequences. UTF-8 byte layout is not modelled, which does not change the answer for the ASCII signatures searched for.
- `PanicUsage.SampleAssertEq`: the `def_path_str` result for the expanded callee is taken as a parameter, `core::panicking::assert_failed`. The exact strings the compiler produces for every panicking macro are not modelled.
