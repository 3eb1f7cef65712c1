/** Source locations as the compiler hands them to a lint pass.

    A span is a byte range together with the syntax context it was produced
    in. A span written directly by the user has the root context; a span
    produced by a macro expansion or by a desugaring carries the kind of that
    expansion and the call site it came from, which may itself be expanded
    (macros inside macros). */
module Spans {

  datatype Option<T> = None | Some(value: T)

  datatype Span = Span(lo: nat, hi: nat, ctxt: SyntaxContext)

  datatype SyntaxContext =
    | Root
    | Expansion(kind: ExpnKind, callSite: Span)

  datatype ExpnKind =
    | Macro(name: string)
    | AstPass
    | Desugaring(desugaring: DesugaringKind)

  /** The compiler-internal lowerings that mark the spans they produce. */
  datatype DesugaringKind =
    | CondTemporary
    | QuestionMark
    | TryBlock
    | YeetExpr
    | OpaqueTy
    | Async
    | Await
    | ForLoop
    | WhileLoop
    | BoundModifier
    | FormatLiteral

  /** The span of bytes `lo..hi` as the user wrote them. */
  function At(lo: nat, hi: nat): (s: Span)
    ensures !FromExpansion(s) && SourceCallsite(s) == s
  {
    Span(lo, hi, Root)
  }

  /** `Span::from_expansion`: the span was not written directly by the user. */
  predicate FromExpansion(s: Span) {
    s.ctxt.Expansion?
  }

  /** `Span::desugaring_kind`: the desugaring the outermost expansion stands for, if any. */
  function DesugaringKindOf(s: Span): Option<DesugaringKind> {
    match s.ctxt
    case Root => None
    case Expansion(kind, _) => if kind.Desugaring? then Some(kind.desugaring) else None
  }

  /** `Span::is_empty`: the span covers no bytes. */
  predicate IsEmpty(s: Span) {
    s.hi == s.lo
  }

  /** `Span::source_callsite`: walks the chain of expansion call sites out to
      the outermost one, which is a span the user wrote. */
  function SourceCallsite(s: Span): (r: Span)
    ensures !FromExpansion(r)
    ensures !FromExpansion(s) ==> r == s
  {
    match s.ctxt
    case Root => s
    case Expansion(_, callSite) => SourceCallsite(callSite)
  }

  /** A span that carries a desugaring kind is always an expansion span. */
  lemma DesugaredIsExpansion(s: Span)
    ensures DesugaringKindOf(s).Some? ==> FromExpansion(s)
  {
  }

  /** Resolving an already resolved call site changes nothing. */
  lemma {:induction false} SourceCallsiteIdempotent(s: Span)
    ensures SourceCallsite(SourceCallsite(s)) == SourceCallsite(s)
  {
  }

  /** Nested expansions resolve to the site of the outermost macro call:
      a span expanded inside an expansion whose call site is `site` ends at
      the same user-written span as `site` itself. */
  lemma {:induction false} NestedExpansionReachesOutermostSite(inner: ExpnKind, outer: ExpnKind, lo: nat, hi: nat, mid: Span, site: Span)
    requires mid.ctxt == Expansion(outer, site)
    requires !FromExpansion(site)
    ensures SourceCallsite(Span(lo, hi, Expansion(inner, mid))) == site
  {
  }
}
