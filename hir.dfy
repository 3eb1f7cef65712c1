/** The part of the compiler's high-level tree (HIR) that the four lint
    passes look at, and the read-only facilities of the type context they
    query. Every node kind the passes never inspect is folded into one
    catch-all variant. */
module Hir {
  import opened Spans

  datatype DefId = DefId(krate: nat, index: nat)

  /** What a path resolves to (`Res`); only a definition carries a `DefId`. */
  datatype Res =
    | Def(defId: DefId)
    | PrimTy
    | SelfTyParam
    | Local(hirId: nat)
    | NonMacroAttr
    | Err

  /** `Res::opt_def_id`. */
  function OptDefId(res: Res): (r: Option<DefId>)
    ensures r.Some? <==> res.Def?
    ensures r.Some? ==> r.value == res.defId
  {
    match res
    case Def(d) => Some(d)
    case _ => None
  }

  datatype PatKind =
    | Wild
    | Binding(name: string)
    | OtherPat

  datatype Pat = Pat(kind: PatKind, span: Span)

  datatype Ty = Ty(span: Span)

  datatype Safety = Safe | Unsafe

  /** Where an `unsafe` block comes from: the user's own `unsafe { }`, or a
      block the compiler generated. */
  datatype UnsafeSource = CompilerGenerated | UserProvided

  datatype BlockCheckMode =
    | DefaultBlock
    | UnsafeBlock(source: UnsafeSource)

  datatype CoroutineDesugaring = AsyncDesugaring | GenDesugaring | AsyncGenDesugaring

  datatype CoroutineKind =
    | Desugared(desugaring: CoroutineDesugaring)
    | Coroutine

  /** `ClosureKind`: an ordinary closure, the body of a coroutine (an `async`
      block or function body, a generator), or an `async` closure. */
  datatype ClosureKind =
    | Closure
    | Coroutine(coroutine: CoroutineKind)
    | CoroutineClosure(desugaring: CoroutineDesugaring)

  /** A closure parameter. A parameter written without a type gets a type
      span that is empty or equal to the pattern's own span. */
  datatype Param = Param(pat: Pat, tySpan: Span)

  /** The body `hir_body` returns for a closure, resolved into the node. */
  datatype Body = Body(params: seq<Param>, value: Expr)

  datatype PathSegment = PathSegment(name: string)

  datatype Expr = Expr(kind: ExprKind, span: Span)

  /** `ExprKind`. A range expression `a..b`, `a..`, `..b`, `..` has been
      lowered to a `Struct` expression by the time a late pass sees it. */
  datatype ExprKind =
    | Lit
    | Path(res: Res)
    | Call(callee: Expr, args: seq<Expr>)
    | MethodCall(segment: PathSegment, receiver: Expr, args: seq<Expr>)
    | Index(base: Expr, index: Expr)
    | Struct(fields: seq<Expr>)
    | Block(stmts: seq<Stmt>, tail: Option<Expr>, rules: BlockCheckMode)
    | Closure(closureKind: ClosureKind, body: Body)
    | OtherExpr(children: seq<Expr>)

  datatype Stmt =
    | Let(local: LetStmt)
    | Semi(expr: Expr)
    | ExprStmt(expr: Expr)
    | ItemStmt(itemId: nat)

  /** `let pat: ty = init;` */
  datatype LetStmt = LetStmt(pat: Pat, ty: Option<Ty>, init: Option<Expr>, span: Span)

  datatype HeaderSafety =
    | SafeTargetFeatures
    | Normal(safety: Safety)

  datatype FnHeader = FnHeader(safety: HeaderSafety)

  datatype FnSig = FnSig(header: FnHeader)

  datatype HirPath = HirPath(res: Res, span: Span)

  datatype TraitRef = TraitRef(path: HirPath)

  /** The `unsafe impl Trait for T` part of a trait impl. */
  datatype TraitImplHeader = TraitImplHeader(safety: Safety, traitRef: TraitRef)

  datatype Item = Item(kind: ItemKind, span: Span)

  /** `ItemKind`. Bodies and member lists are referred to by id, as in the
      compiler's tree; the passes never look inside them. */
  datatype ItemKind =
    | Fn(sig: FnSig, body: nat)
    | Trait(safety: Safety, traitItems: seq<nat>)
    | Impl(ofTrait: Option<TraitImplHeader>, implItems: seq<nat>)
    | OtherItem

  /** The compiler queries the passes make: `def_path_str` and the lang
      items `index_trait` and `index_mut_trait`. */
  datatype Context = Context(
    defPathStr: DefId -> string,
    indexTrait: Option<DefId>,
    indexMutTrait: Option<DefId>)
}
