/** The `panic_usage` pass: `unwrap` / `expect` method calls, and calls
    into the standard library's panic machinery, which the panicking and
    assertion macros expand into. */
module PanicUsage {
  import opened Spans
  import opened Lints
  import opened Strings
  import opened Hir

  const SECURITY_PANIC_USAGE: Lint :=
    Lint("SECURITY_PANIC_USAGE", Deny, "Detects constructs that may panic at runtime.")

  // ---------------------------------------------------------------------
  // Accessor methods (`PanicKind`)
  // ---------------------------------------------------------------------

  datatype PanicKind = Unwrap | Expect

  /** The method name each kind stands for. */
  function MethodName(k: PanicKind): string {
    match k
    case Unwrap => "unwrap"
    case Expect => "expect"
  }

  /** `PanicKind::from_method`: an exact match on the method name. */
  function FromMethod(name: string): (r: Option<PanicKind>)
    ensures r == Some(Unwrap) <==> name == "unwrap"
    ensures r == Some(Expect) <==> name == "expect"
    ensures r.None? <==> name != "unwrap" && name != "expect"
  {
    if name == "unwrap" then Some(Unwrap)
    else if name == "expect" then Some(Expect)
    else None
  }

  /** `from_method` recognises exactly the kinds' own names and gives back
      the kind that was named. */
  lemma FromMethodInverse(name: string, k: PanicKind)
    ensures FromMethod(MethodName(k)) == Some(k)
    ensures FromMethod(name) == Some(k) ==> name == MethodName(k)
  {
  }

  // ---------------------------------------------------------------------
  // Panic backends (`PanicBackend`)
  // ---------------------------------------------------------------------

  datatype PanicBackend = PanickingModule | PanicFmt | PanicDisplay | AssertFailed | BeginPanic

  /** The substring that identifies each backend in a definition path. */
  function Signature(b: PanicBackend): string {
    match b
    case PanickingModule => "panicking::"
    case PanicFmt => "panic_fmt"
    case PanicDisplay => "panic_display"
    case AssertFailed => "assert_failed"
    case BeginPanic => "begin_panic"
  }

  /** The position of each backend in the order the signatures are tried. */
  function Rank(b: PanicBackend): nat {
    match b
    case PanickingModule => 0
    case PanicFmt => 1
    case PanicDisplay => 2
    case AssertFailed => 3
    case BeginPanic => 4
  }

  /** `PanicBackend::from_def_path`: the first backend, in the fixed order,
      whose signature occurs in the path; none when no signature occurs. */
  function FromDefPath(path: string): (r: Option<PanicBackend>)
    ensures r.None? <==> forall b :: !Contains(path, Signature(b))
    ensures r.Some? ==> Contains(path, Signature(r.value))
    ensures r.Some? ==> forall b :: Rank(b) < Rank(r.value) ==> !Contains(path, Signature(b))
  {
    if Contains(path, Signature(PanickingModule)) then Some(PanickingModule)
    else if Contains(path, Signature(PanicFmt)) then Some(PanicFmt)
    else if Contains(path, Signature(PanicDisplay)) then Some(PanicDisplay)
    else if Contains(path, Signature(AssertFailed)) then Some(AssertFailed)
    else if Contains(path, Signature(BeginPanic)) then Some(BeginPanic)
    else None
  }

  /** A character of the pattern that the string lacks rules the pattern out. */
  lemma NotContainedByChar(s: string, sub: string, c: char)
    requires c in sub && c !in s
    ensures !Contains(s, sub)
  {
    ContainsIffOccurs(s, sub);
  }

  /** The first-match rule read backwards: a path containing a backend's
      signature and none of the signatures tried before it classifies as
      that backend. */
  lemma FirstMatchDetermines(path: string, b: PanicBackend)
    requires Contains(path, Signature(b))
    requires forall b' :: Rank(b') < Rank(b) ==> !Contains(path, Signature(b'))
    ensures FromDefPath(path) == Some(b)
  {
  }

  /** A character that occurs in the backend's signature and in none of
      the signatures tried after it. */
  function DistinctiveChar(b: PanicBackend): char {
    match b
    case PanickingModule => ':'
    case PanicFmt => 'm'
    case PanicDisplay => 'y'
    case AssertFailed => 's'
    case BeginPanic => 'b'
  }

  /** No signature contains one that is tried before it. */
  lemma SignatureExcludesEarlier(b: PanicBackend, earlier: PanicBackend)
    requires Rank(earlier) < Rank(b)
    ensures !Contains(Signature(b), Signature(earlier))
  {
    NotContainedByChar(Signature(b), Signature(earlier), DistinctiveChar(earlier));
  }

  /** Each signature, taken as a path on its own, classifies as its own
      backend. */
  lemma FromDefPathSignature(b: PanicBackend)
    ensures FromDefPath(Signature(b)) == Some(b)
  {
    var path := Signature(b);
    ContainsSlice(path, 0, |path|);
    assert path[0..|path|] == path;
    forall earlier | Rank(earlier) < Rank(b)
      ensures !Contains(path, Signature(earlier))
    {
      SignatureExcludesEarlier(b, earlier);
    }
    FirstMatchDetermines(path, b);
  }

  /** Every path under `core::panicking::` contains the module's signature. */
  lemma InCorePanicking(name: string)
    ensures Contains("core::panicking::" + name, Signature(PanickingModule))
  {
    var path := "core::panicking::" + name;
    assert path[6..17] == "core::panicking::"[6..17];
    ContainsSlice(path, 6, 17);
  }

  /** The test is on substrings, not on the crate: any path with
      `panicking::` in it, such as a user's own `mycrate::panicking::log`,
      classifies as the `panicking` module. */
  lemma AnyPanickingPath(prefix: string, rest: string)
    ensures FromDefPath(prefix + Signature(PanickingModule) + rest) == Some(PanickingModule)
  {
    var path := prefix + Signature(PanickingModule) + rest;
    assert path[|prefix|..|prefix| + |Signature(PanickingModule)|] == Signature(PanickingModule);
    ContainsSlice(path, |prefix|, |prefix| + |Signature(PanickingModule)|);
    FirstMatchDetermines(path, PanickingModule);
  }

  /** First match wins: a path inside the `panicking` module is classified
      as that module even when it also names `panic_fmt`. */
  lemma PanickingModuleWins()
    ensures FromDefPath("core::panicking::panic_fmt") == Some(PanickingModule)
  {
    InCorePanicking("panic_fmt");
    assert "core::panicking::" + "panic_fmt" == "core::panicking::panic_fmt";
    FirstMatchDetermines("core::panicking::panic_fmt", PanickingModule);
  }

  /** A path outside any `panicking` module falls through to the later
      signatures: `std::rt::begin_panic` is classified as `BeginPanic`. */
  lemma BeginPanicThroughRt()
    ensures FromDefPath("std::rt::begin_panic") == Some(BeginPanic)
  {
    var prefix := "std::rt::";
    var path := prefix + Signature(BeginPanic);
    assert path[|prefix|..|path|] == Signature(BeginPanic);
    ContainsSlice(path, |prefix|, |path|);
    assert Contains(path, Signature(BeginPanic));
    // Each earlier signature holds a letter the path lacks.
    assert 'k' !in path && 'f' !in path && 'y' !in path;
    forall earlier | Rank(earlier) < Rank(BeginPanic)
      ensures !Contains(path, Signature(earlier))
    {
      var c := if earlier == PanickingModule then 'k' else if earlier == PanicDisplay then 'y' else 'f';
      NotContainedByChar(path, Signature(earlier), c);
    }
    FirstMatchDetermines(path, BeginPanic);
    assert path == "std::rt::begin_panic";
  }

  // ---------------------------------------------------------------------
  // Messages
  // ---------------------------------------------------------------------

  /** What a diagnostic of this pass names: an accessor kind or a backend. */
  datatype PanicTag = MethodTag(kind: PanicKind) | BackendTag(backend: PanicBackend)

  /** The `Debug` rendering of the tag: the variant's own name. */
  function TagName(t: PanicTag): string {
    match t
    case MethodTag(Unwrap) => "Unwrap"
    case MethodTag(Expect) => "Expect"
    case BackendTag(PanickingModule) => "PanickingModule"
    case BackendTag(PanicFmt) => "PanicFmt"
    case BackendTag(PanicDisplay) => "PanicDisplay"
    case BackendTag(AssertFailed) => "AssertFailed"
    case BackendTag(BeginPanic) => "BeginPanic"
  }

  const MESSAGE_PREFIX: string := "Call to panic backend `"

  const MESSAGE_SUFFIX: string := "` detected."

  function PanicMessage(t: PanicTag): string {
    MESSAGE_PREFIX + TagName(t) + MESSAGE_SUFFIX
  }

  /** Distinct tags render to distinct messages, so a diagnostic's message
      tells which accessor or backend was found. */
  lemma {:induction false} PanicMessageInjective(t: PanicTag, u: PanicTag)
    requires PanicMessage(t) == PanicMessage(u)
    ensures t == u
  {
    var m, n := PanicMessage(t), PanicMessage(u);
    var p := |MESSAGE_PREFIX|;
    assert |TagName(t)| == |TagName(u)|;
    assert m[p..p + |TagName(t)|] == TagName(t);
    assert n[p..p + |TagName(u)|] == TagName(u);
    TagNameInjective(t, u);
  }

  lemma TagNameInjective(t: PanicTag, u: PanicTag)
    requires TagName(t) == TagName(u)
    ensures t == u
  {
    var s, v := TagName(t), TagName(u);
    assert s[0] == v[0] && |s| == |v|;
    if |s| > 6 {
      assert s[5] == v[5];
    }
  }

  // ---------------------------------------------------------------------
  // The pass (`check_expr`)
  // ---------------------------------------------------------------------

  /** The accessor kind of a method call with a recognised name. */
  function AccessorKind(e: Expr): (r: Option<PanicKind>)
    ensures r.Some? ==> e.kind.MethodCall? && FromMethod(e.kind.segment.name) == r
    ensures e.kind.MethodCall? ==> r == FromMethod(e.kind.segment.name)
  {
    match e.kind
    case MethodCall(segment, _, _) => FromMethod(segment.name)
    case _ => None
  }

  /** The backend a direct call lands in: the callee is a path, the path
      resolves to a definition, and the definition's path classifies. */
  function CalleeBackend(ctx: Context, e: Expr): (r: Option<PanicBackend>)
    ensures r.Some? ==> e.kind.Call? && e.kind.callee.kind.Path? && e.kind.callee.kind.res.Def?
    ensures r.Some? ==> FromDefPath(ctx.defPathStr(e.kind.callee.kind.res.defId)) == r
    ensures e.kind.Call? && e.kind.callee.kind.Path? && e.kind.callee.kind.res.Def? ==>
      r == FromDefPath(ctx.defPathStr(e.kind.callee.kind.res.defId))
  {
    match e.kind
    case Call(callee, _) =>
      (match callee.kind
       case Path(res) =>
         (match OptDefId(res)
          case Some(d) => FromDefPath(ctx.defPathStr(d))
          case None => None)
       case _ => None)
    case _ => None
  }

  /** `check_expr`: at most one diagnostic per expression. A recognised
      accessor call is reported at the call; a call into a panic backend is
      reported at the user-written site of the macro that produced it. */
  function CheckExpr(ctx: Context, e: Expr): (r: Option<Diagnostic>)
    ensures r.Some? <==> AccessorKind(e).Some? || CalleeBackend(ctx, e).Some?
    ensures AccessorKind(e).Some? ==>
      r == Some(SpanLint(SECURITY_PANIC_USAGE, e.span, PanicMessage(MethodTag(AccessorKind(e).value))))
    ensures CalleeBackend(ctx, e).Some? ==>
      r == Some(SpanLint(SECURITY_PANIC_USAGE, SourceCallsite(e.span), PanicMessage(BackendTag(CalleeBackend(ctx, e).value))))
    ensures r.Some? && e.kind.Call? ==> !FromExpansion(r.value.span)
  {
    match AccessorKind(e)
    case Some(kind) =>
      Some(SpanLint(SECURITY_PANIC_USAGE, e.span, PanicMessage(MethodTag(kind))))
    case None =>
      (match CalleeBackend(ctx, e)
       case Some(backend) =>
         Some(SpanLint(SECURITY_PANIC_USAGE, SourceCallsite(e.span), PanicMessage(BackendTag(backend))))
       case None => None)
  }

  /** Fail-open: a call whose callee is not a path, or whose path resolves to
      no definition, is not reported. */
  lemma UnresolvedCallNotReported(ctx: Context, e: Expr)
    requires e.kind.Call?
    requires !e.kind.callee.kind.Path? || !e.kind.callee.kind.res.Def?
    ensures CheckExpr(ctx, e).None?
  {
  }

  /** A macro that expands into a call of a function of the `panicking`
      module is reported once, at the user-written site the expansion chain
      ends in, tagged with that module, however deeply the call was
      expanded: `mid` is the call's immediate call site, itself possibly an
      expansion span. */
  lemma MacroBackendAtCallSite(ctx: Context, d: DefId, args: seq<Expr>, lo: nat, hi: nat, kind: ExpnKind, callee: Expr, mid: Span, site: Span)
    requires callee.kind == Path(Def(d))
    requires Contains(ctx.defPathStr(d), "panicking::")
    requires SourceCallsite(mid) == site
    ensures CheckExpr(ctx, Expr(Call(callee, args), Span(lo, hi, Expansion(kind, mid)))) ==
      Some(SpanLint(SECURITY_PANIC_USAGE, site, PanicMessage(BackendTag(PanickingModule))))
  {
  }

  // ---------------------------------------------------------------------
  // The sample program the pass is tested against
  // ---------------------------------------------------------------------


  /** `x.unwrap()` and `x.expect("")` are reported at the call, each with
      its own accessor kind. */
  lemma SampleAccessors(ctx: Context, x: Expr, msg: Expr)
    ensures CheckExpr(ctx, Expr(MethodCall(PathSegment("unwrap"), x, []), At(4, 14))) ==
      Some(Diagnostic("SECURITY_PANIC_USAGE", Deny, At(4, 14), "Call to panic backend `Unwrap` detected."))
    ensures CheckExpr(ctx, Expr(MethodCall(PathSegment("expect"), x, [msg]), At(20, 32))) ==
      Some(Diagnostic("SECURITY_PANIC_USAGE", Deny, At(20, 32), "Call to panic backend `Expect` detected."))
  {
    assert PanicMessage(MethodTag(Unwrap)) == "Call to panic backend `Unwrap` detected.";
    assert PanicMessage(MethodTag(Expect)) == "Call to panic backend `Expect` detected.";
  }

  /** `assert_eq!(0, 1)` expands into a call of the assertion-failure
      helper of the `panicking` module. The diagnostic lands on the macro
      call, and because the path lies in that module, it is tagged as the
      module rather than as `AssertFailed`. */
  lemma SampleAssertEq(ctx: Context, d: DefId, args: seq<Expr>, callee: Expr)
    requires callee.kind == Path(Def(d))
    requires ctx.defPathStr(d) == "core::panicking::assert_failed"
    ensures CheckExpr(ctx, Expr(Call(callee, args), Span(200, 240, Expansion(Macro("assert_eq"), At(100, 116))))) ==
      Some(Diagnostic("SECURITY_PANIC_USAGE", Deny, At(100, 116), "Call to panic backend `PanickingModule` detected."))
  {
    InCorePanicking("assert_failed");
    assert "core::panicking::" + "assert_failed" == "core::panicking::assert_failed";
    assert PanicMessage(BackendTag(PanickingModule)) == "Call to panic backend `PanickingModule` detected.";
    MacroBackendAtCallSite(ctx, d, args, 200, 240, Macro("assert_eq"), callee, At(100, 116), At(100, 116));
  }
}
