/** The `missing_type` pass: `let` bindings and closure parameters written
    without an explicit type. */
module MissingType {
  import opened Spans
  import opened Lints
  import opened Hir

  const MISSING_LET_TYPE: Lint :=
    Lint("MISSING_LET_TYPE", Warn, "Detects missing explicit type annotation on let bindings.")

  const MISSING_CLOSURE_PARAM_TYPE: Lint :=
    Lint("MISSING_CLOSURE_PARAM_TYPE", Warn, "Detects missing explicit type annotation on closure parameters.")

  const LET_MESSAGE: string := "Missing explicit type annotation on let binding."

  const PARAM_MESSAGE: string := "Closure parameter missing explicit type annotation."

  predicate IsWild(p: Pat) {
    p.kind.Wild?
  }

  /** The span was written by the user: neither a macro expansion nor a
      desugaring produced it. */
  predicate UserWritten(s: Span) {
    !FromExpansion(s) && DesugaringKindOf(s).None?
  }

  // ---------------------------------------------------------------------
  // `let` bindings (`check_local`)
  // ---------------------------------------------------------------------

  /** `check_local`: a `let` is reported, once and at its pattern, exactly
      when it binds something other than `_`, was written by the user and
      has no type annotation. */
  function CheckLocal(local: LetStmt): (r: Option<Diagnostic>)
    ensures r.Some? <==> !IsWild(local.pat) && UserWritten(local.span) && local.ty.None?
    ensures r.Some? ==> r.value.span == local.pat.span && r.value.message == LET_MESSAGE
    ensures r.Some? ==> r.value.lint == "MISSING_LET_TYPE" && r.value.level == Warn
  {
    if IsWild(local.pat) then None
    else if FromExpansion(local.span) then None
    else if DesugaringKindOf(local.span).Some? then None
    else if local.ty.None? then Some(SpanLint(MISSING_LET_TYPE, local.pat.span, LET_MESSAGE))
    else None
  }

  /** `let _ = e;` is never reported, with or without a type. */
  lemma WildcardLetNeverReported(local: LetStmt)
    requires IsWild(local.pat)
    ensures CheckLocal(local).None?
  {
  }

  /** A `let` produced by a macro or by a desugaring is never reported,
      whatever it looks like. */
  lemma GeneratedLetNeverReported(local: LetStmt)
    requires FromExpansion(local.span) || DesugaringKindOf(local.span).Some?
    ensures CheckLocal(local).None?
  {
  }

  /** Adding a type annotation to a reported `let` silences it, and removing
      the annotation from an annotated user `let` with a named pattern makes
      it reported; nothing else about the binding matters. */
  lemma AnnotationDecidesUserLet(local: LetStmt, ty: Ty, init: Option<Expr>)
    requires !IsWild(local.pat) && UserWritten(local.span)
    ensures CheckLocal(local.(ty := Some(ty))).None?
    ensures CheckLocal(local.(ty := None, init := init)).Some?
    ensures CheckLocal(local.(ty := None, init := init)).value.span == local.pat.span
  {
  }

  // ---------------------------------------------------------------------
  // Closure parameters (`check_expr`)
  // ---------------------------------------------------------------------

  /** The parameter has no written type: its type span is empty or is the
      pattern's own span. */
  predicate LacksAnnotation(p: Param) {
    IsEmpty(p.tySpan) || p.tySpan == p.pat.span
  }

  /** The parameter loop reports this parameter. */
  predicate Reportable(p: Param) {
    !IsWild(p.pat) && LacksAnnotation(p)
  }

  function ParamDiagnostic(p: Param): Diagnostic {
    SpanLint(MISSING_CLOSURE_PARAM_TYPE, p.pat.span, PARAM_MESSAGE)
  }

  /** The diagnostics the parameter loop emits for `params`, in order. */
  function ParamDiagnostics(params: seq<Param>): (r: seq<Diagnostic>)
    ensures |r| <= |params|
  {
    if params == [] then []
    else
      var last := params[|params| - 1];
      ParamDiagnostics(params[..|params| - 1]) + (if Reportable(last) then [ParamDiagnostic(last)] else [])
  }

  /** What `check_expr` reports for one expression. */
  function ClosureDiagnostics(e: Expr): seq<Diagnostic> {
    if FromExpansion(e.span) then []
    else
      match e.kind
      case Closure(kind, body) => if kind.Coroutine? then [] else ParamDiagnostics(body.params)
      case _ => []
  }

  /** `check_expr`: walks the closure's parameters, skipping `_`, and emits
      one diagnostic per parameter without a written type. */
  method CheckExpr(e: Expr) returns (diags: seq<Diagnostic>)
    ensures diags == ClosureDiagnostics(e)
  {
    if FromExpansion(e.span) {
      return [];
    }
    if !e.kind.Closure? {
      return [];
    }
    if e.kind.closureKind.Coroutine? {
      return [];
    }
    var params := e.kind.body.params;
    diags := [];
    for i := 0 to |params|
      invariant diags == ParamDiagnostics(params[..i])
    {
      var param := params[i];
      assert params[..i + 1][..i] == params[..i];
      if IsWild(param.pat) {
        continue;
      }
      if IsEmpty(param.tySpan) || param.tySpan == param.pat.span {
        diags := diags + [ParamDiagnostic(param)];
      }
    }
    assert params[..|params|] == params;
  }

  /** Expressions that are not closures, closures produced by a macro, and
      coroutine bodies report nothing. */
  lemma NoClosureDiagnostics(e: Expr)
    requires FromExpansion(e.span) || !e.kind.Closure? || e.kind.closureKind.Coroutine?
    ensures ClosureDiagnostics(e) == []
  {
  }

  /** The loop's output for a concatenation is the output for each part. */
  lemma {:induction false} ParamDiagnosticsAppend(a: seq<Param>, b: seq<Param>)
    ensures ParamDiagnostics(a + b) == ParamDiagnostics(a) + ParamDiagnostics(b)
    decreases |b|
  {
    if b == [] {
      assert a + b == a;
    } else {
      var b' := b[..|b| - 1];
      assert (a + b)[..|a + b| - 1] == a + b';
      assert (a + b)[|a + b| - 1] == b[|b| - 1];
      ParamDiagnosticsAppend(a, b');
    }
  }

  /** A `_` parameter contributes nothing and does not disturb the others:
      inserting one anywhere leaves the diagnostics unchanged. */
  lemma {:induction false} WildcardParamSkipped(params: seq<Param>, i: nat, w: Param)
    requires i <= |params| && IsWild(w.pat)
    ensures ParamDiagnostics(params[..i] + [w] + params[i..]) == ParamDiagnostics(params)
  {
    var front, back := params[..i], params[i..];
    assert ParamDiagnostics([w]) == [] by {
      assert [w][..0] == [];
    }
    ParamDiagnosticsAppend(front, [w]);
    ParamDiagnosticsAppend(front + [w], back);
    ParamDiagnosticsAppend(front, back);
    assert front + back == params;
  }

  /** The positions of the reportable parameters, in increasing order. */
  ghost function ReportablePositions(params: seq<Param>): (r: seq<nat>)
    ensures forall k :: 0 <= k < |r| ==> r[k] < |params|
  {
    if params == [] then []
    else
      var n := |params| - 1;
      ReportablePositions(params[..n]) + (if Reportable(params[n]) then [n] else [])
  }

  /** The positions are strictly increasing and hold exactly the reportable
      parameters. */
  lemma {:induction false} ReportablePositionsExact(params: seq<Param>)
    ensures forall k, l :: 0 <= k < l < |ReportablePositions(params)| ==>
      ReportablePositions(params)[k] < ReportablePositions(params)[l]
    ensures forall i :: 0 <= i < |params| ==> (Reportable(params[i]) <==> i in ReportablePositions(params))
  {
    if params != [] {
      var n := |params| - 1;
      ReportablePositionsExact(params[..n]);
      assert forall i :: 0 <= i < n ==> params[..n][i] == params[i];
    }
  }

  /** The k-th diagnostic of a closure is for its k-th reportable parameter,
      at that parameter's pattern span: the loop emits one diagnostic per
      reportable parameter, in parameter order, and nothing else. */
  lemma {:induction false} ParamDiagnosticsInOrder(params: seq<Param>)
    ensures |ParamDiagnostics(params)| == |ReportablePositions(params)|
    ensures forall k :: 0 <= k < |ParamDiagnostics(params)| ==>
      ParamDiagnostics(params)[k] == ParamDiagnostic(params[ReportablePositions(params)[k]])
  {
    if params != [] {
      var n := |params| - 1;
      ParamDiagnosticsInOrder(params[..n]);
      var pos := ReportablePositions(params[..n]);
      assert forall k :: 0 <= k < |pos| ==> params[..n][pos[k]] == params[pos[k]];
    }
  }

  /** The number of diagnostics is the number of reportable parameters. */
  lemma {:induction false} ParamDiagnosticsCount(params: seq<Param>)
    ensures |ParamDiagnostics(params)| == |set i | 0 <= i < |params| && Reportable(params[i])|
  {
    ParamDiagnosticsInOrder(params);
    ReportablePositionsExact(params);
    var pos := ReportablePositions(params);
    var indices := set i | 0 <= i < |params| && Reportable(params[i]);
    assert indices == set k | 0 <= k < |pos| :: pos[k];
    DistinctCard(pos);
  }

  /** A strictly increasing sequence has as many elements as its range. */
  lemma {:induction false} DistinctCard(pos: seq<nat>)
    requires forall k, l :: 0 <= k < l < |pos| ==> pos[k] < pos[l]
    ensures |set k | 0 <= k < |pos| :: pos[k]| == |pos|
  {
    if pos != [] {
      var n := |pos| - 1;
      DistinctCard(pos[..n]);
      var front := set k | 0 <= k < n :: pos[..n][k];
      assert (set k | 0 <= k < |pos| :: pos[k]) == front + {pos[n]};
      assert pos[n] !in front;
    }
  }

  // ---------------------------------------------------------------------
  // The sample program the pass is tested against
  // ---------------------------------------------------------------------


  function Named(name: string, lo: nat): Pat {
    Pat(Binding(name), At(lo, lo + |name|))
  }

  /** `|p|`: the type span is the pattern's own span. */
  function Untyped(p: Pat): Param {
    Param(p, p.span)
  }

  /** `|p: T|`: the type has a span of its own after the pattern. */
  function Typed(p: Pat): Param {
    Param(p, At(p.span.hi + 2, p.span.hi + 5))
  }

  function ClosureOf(lo: nat, params: seq<Param>): Expr {
    Expr(ExprKind.Closure(ClosureKind.Closure, Body(params, Expr(OtherExpr([]), At(lo, lo)))), At(lo, lo + 10))
  }

  /** `let x = 5;` is reported at `x`; `let y: i32 = 10;` and `let _ = 42;`
      are not. */
  lemma SampleLets(five: Expr)
    ensures CheckLocal(LetStmt(Named("x", 4), None, Some(five), At(0, 10))) ==
      Some(Diagnostic("MISSING_LET_TYPE", Warn, At(4, 5), LET_MESSAGE))
    ensures CheckLocal(LetStmt(Named("y", 4), Some(Ty(At(7, 10))), Some(five), At(0, 16))).None?
    ensures CheckLocal(LetStmt(Pat(Wild, At(4, 5)), None, Some(five), At(0, 11))).None?
  {
  }

  /** `|a, b| a + b` is reported twice, at `a` and then at `b`. */
  lemma SampleUntypedClosure()
    ensures ClosureDiagnostics(ClosureOf(30, [Untyped(Named("a", 31)), Untyped(Named("b", 34))])) ==
      [ParamDiagnostic(Untyped(Named("a", 31))), ParamDiagnostic(Untyped(Named("b", 34)))]
  {
    var ps := [Untyped(Named("a", 31)), Untyped(Named("b", 34))];
    assert ps[..1][..0] == [];
  }

  /** `let sub = |a: i32, b: i32| a - b;` is reported only for the `let`:
      both parameters carry types. */
  lemma SampleTypedClosure(init: Expr)
    ensures ClosureDiagnostics(ClosureOf(10, [Typed(Named("a", 11)), Typed(Named("b", 19))])) == []
    ensures CheckLocal(LetStmt(Named("sub", 4), None, Some(init), At(0, 40))).Some?
  {
    var ps := [Typed(Named("a", 11)), Typed(Named("b", 19))];
    assert ps[..1][..0] == [];
  }

  /** `|a: i32, b| a * b` is reported once, at `b`. */
  lemma SampleHalfTypedClosure()
    ensures ClosureDiagnostics(ClosureOf(10, [Typed(Named("a", 11)), Untyped(Named("b", 19))])) ==
      [ParamDiagnostic(Untyped(Named("b", 19)))]
  {
    var ps := [Typed(Named("a", 11)), Untyped(Named("b", 19))];
    assert ps[..1][..0] == [];
  }

  /** `|_| 0` is not reported. */
  lemma SampleWildcardClosure()
    ensures ClosureDiagnostics(ClosureOf(10, [Untyped(Pat(Wild, At(11, 12)))])) == []
  {
  }

  /** `|_, b| b` is reported only at `b`. */
  lemma SampleWildcardFirstParam()
    ensures ClosureDiagnostics(ClosureOf(10, [Untyped(Pat(Wild, At(11, 12))), Untyped(Named("b", 14))])) ==
      [ParamDiagnostic(Untyped(Named("b", 14)))]
  {
    var ps := [Untyped(Pat(Wild, At(11, 12))), Untyped(Named("b", 14))];
    assert ps[..1][..0] == [];
    assert ps[..1] == [Untyped(Pat(Wild, At(11, 12)))];
  }

  /** In `async fn async_example(x: i32)` the lowering rebinds `x` inside
      the body with a `let` whose span is marked as async desugaring, and the
      body itself is a coroutine: neither is reported. */
  lemma SampleAsyncFn(arg: Expr, site: Span, params: seq<Param>, value: Expr)
    ensures CheckLocal(LetStmt(Named("x", 20), None, Some(arg), Span(20, 26, Expansion(Desugaring(Async), site)))).None?
    ensures ClosureDiagnostics(Expr(ExprKind.Closure(ClosureKind.Coroutine(Desugared(AsyncDesugaring)), Body(params, value)), At(40, 60))) == []
  {
  }
}
