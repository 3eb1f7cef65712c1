/** The `unsafe_usage` pass: `unsafe` blocks whose check mode is
    `UnsafeBlock(UserProvided)`, and `unsafe` functions, traits and trait
    impls. */
module UnsafeUsage {
  import opened Spans
  import opened Lints
  import opened Hir

  const SECURITY_UNSAFE_USAGE: Lint :=
    Lint("SECURITY_UNSAFE_USAGE", Deny,
         "Detects usage of unsafe blocks, unsafe functions, unsafe\n    traits and unsafe implementations.")

  const BLOCK_MESSAGE: string := "Usage of unsafe block detected."

  const FN_MESSAGE: string := "Unsafe function detected."

  const TRAIT_MESSAGE: string := "Unsafe trait detected."

  const IMPL_MESSAGE: string := "Unsafe impl detected."

  /** `check_expr`: a block is reported, at the block expression, exactly
      when its check mode is `UnsafeBlock(UserProvided)`; its contents play
      no part. */
  function CheckExpr(e: Expr): (r: Option<Diagnostic>)
    ensures r.Some? <==> e.kind.Block? && e.kind.rules == UnsafeBlock(UserProvided)
    ensures r.Some? ==> r.value == Diagnostic("SECURITY_UNSAFE_USAGE", Deny, e.span, BLOCK_MESSAGE)
  {
    match e.kind
    case Block(_, _, rules) =>
      if rules == UnsafeBlock(UserProvided) then
        Some(SpanLint(SECURITY_UNSAFE_USAGE, e.span, BLOCK_MESSAGE))
      else None
    case _ => None
  }

  /** No expansion guard: an `unsafe { }` written inside a macro body is
      `UserProvided` too, and is reported at its expansion span. */
  lemma ExpandedUnsafeBlockReported(stmts: seq<Stmt>, tail: Option<Expr>, lo: nat, hi: nat, kind: ExpnKind, site: Span)
    ensures CheckExpr(Expr(Block(stmts, tail, UnsafeBlock(UserProvided)), Span(lo, hi, Expansion(kind, site)))) ==
      Some(Diagnostic("SECURITY_UNSAFE_USAGE", Deny, Span(lo, hi, Expansion(kind, site)), BLOCK_MESSAGE))
  {
  }

  /** Ordinary blocks and compiler-generated `unsafe` blocks are not
      reported. */
  lemma SafeOrGeneratedBlockNotReported(e: Expr)
    requires e.kind.Block?
    requires e.kind.rules == DefaultBlock || e.kind.rules == UnsafeBlock(CompilerGenerated)
    ensures CheckExpr(e).None?
  {
  }

  /** Only the visited block's own check mode counts: changing what the
      block contains changes nothing, so an ordinary block nested in an
      `unsafe` block is judged, and passed, on its own. */
  lemma BlockContentsIrrelevant(e: Expr, stmts: seq<Stmt>, tail: Option<Expr>)
    requires e.kind.Block?
    ensures CheckExpr(e.(kind := e.kind.(stmts := stmts, tail := tail))) == CheckExpr(e)
  {
  }

  /** The item is declared `unsafe` in a way the pass looks for. */
  predicate DeclaredUnsafe(item: Item) {
    match item.kind
    case Fn(sig, _) => sig.header.safety == Normal(Unsafe)
    case Trait(safety, _) => safety == Unsafe
    case Impl(ofTrait, _) => ofTrait.Some? && ofTrait.value.safety == Unsafe
    case OtherItem => false
  }

  /** The message for each kind of unsafe declaration. */
  function ItemMessage(kind: ItemKind): string
    requires !kind.OtherItem?
  {
    match kind
    case Fn(_, _) => FN_MESSAGE
    case Trait(_, _) => TRAIT_MESSAGE
    case Impl(_, _) => IMPL_MESSAGE
    case OtherItem => assert false; ""
  }

  /** `check_item`: an `unsafe fn` (and no other header safety), an
      `unsafe trait` and an `unsafe impl Trait for T` are each reported once,
      at the item; inherent impls and every other item are not. */
  function CheckItem(item: Item): (r: Option<Diagnostic>)
    ensures item.kind.Fn? ==> (r.Some? <==> item.kind.sig.header.safety == Normal(Unsafe))
    ensures item.kind.Trait? ==> (r.Some? <==> item.kind.safety == Unsafe)
    ensures item.kind.Impl? ==> (r.Some? <==> item.kind.ofTrait.Some? && item.kind.ofTrait.value.safety == Unsafe)
    ensures item.kind.OtherItem? ==> r.None?
    ensures r.Some? ==> r.value == Diagnostic("SECURITY_UNSAFE_USAGE", Deny, item.span, ItemMessage(item.kind))
  {
    match item.kind
    case Fn(sig, _) =>
      if sig.header.safety == Normal(Unsafe) then
        Some(SpanLint(SECURITY_UNSAFE_USAGE, item.span, FN_MESSAGE))
      else None
    case Trait(safety, _) =>
      if safety == Unsafe then Some(SpanLint(SECURITY_UNSAFE_USAGE, item.span, TRAIT_MESSAGE))
      else None
    case Impl(ofTrait, _) =>
      if ofTrait.Some? && ofTrait.value.safety == Unsafe then
        Some(SpanLint(SECURITY_UNSAFE_USAGE, item.span, IMPL_MESSAGE))
      else None
    case OtherItem => None
  }

  /** The item is reported exactly when it is declared unsafe. */
  lemma CheckItemIffUnsafe(item: Item)
    ensures CheckItem(item).Some? <==> DeclaredUnsafe(item)
  {
  }

  /** The decision reads the header alone: the body of a function and the
      members of a trait or impl play no part. */
  lemma ItemBodyIrrelevant(item: Item, body: nat, members: seq<nat>)
    ensures item.kind.Fn? ==> CheckItem(item.(kind := item.kind.(body := body))) == CheckItem(item)
    ensures item.kind.Trait? ==> CheckItem(item.(kind := item.kind.(traitItems := members))) == CheckItem(item)
    ensures item.kind.Impl? ==> CheckItem(item.(kind := item.kind.(implItems := members))) == CheckItem(item)
  {
  }

  /** A function whose header safety is `SafeTargetFeatures` is not
      reported, though it is not an ordinary safe function either. */
  lemma TargetFeatureFnNotReported(item: Item)
    requires item.kind.Fn? && item.kind.sig.header.safety == SafeTargetFeatures
    ensures CheckItem(item).None?
  {
  }

  // ---------------------------------------------------------------------
  // The sample program the pass is tested against
  // ---------------------------------------------------------------------


  /** `unsafe fn`, `unsafe trait` and `unsafe impl UnsafeTrait for MyType`
      are reported; their safe counterparts are not. */
  lemma SampleItems(traitPath: HirPath)
    ensures CheckItem(Item(Fn(FnSig(FnHeader(Normal(Unsafe))), 0), At(0, 30))).Some?
    ensures CheckItem(Item(Fn(FnSig(FnHeader(Normal(Safe))), 1), At(31, 52))).None?
    ensures CheckItem(Item(Trait(Unsafe, []), At(54, 80))).Some?
    ensures CheckItem(Item(Trait(Safe, []), At(81, 99))).None?
    ensures CheckItem(Item(Impl(Some(TraitImplHeader(Unsafe, TraitRef(traitPath))), []), At(117, 154))).Some?
    ensures CheckItem(Item(Impl(Some(TraitImplHeader(Safe, TraitRef(traitPath))), []), At(155, 183))).None?
    ensures CheckItem(Item(Impl(None, []), At(184, 200))).None?
  {
  }

  /** In `main`, the `unsafe { }` block is reported and the plain block
      after it is not. Being inside an `unsafe` block does not make a plain
      block reportable: the pass looks at each block's own mode only. */
  lemma SampleBlocks(call: Expr, other: Expr)
    ensures CheckExpr(Expr(Block([Semi(call)], None, UnsafeBlock(UserProvided)), At(10, 50))) ==
      Some(Diagnostic("SECURITY_UNSAFE_USAGE", Deny, At(10, 50), BLOCK_MESSAGE))
    ensures CheckExpr(Expr(Block([Semi(other)], None, DefaultBlock), At(60, 90))).None?
    ensures var inner := Expr(Block([Semi(other)], None, DefaultBlock), At(20, 40));
            && CheckExpr(Expr(Block([ExprStmt(inner)], None, UnsafeBlock(UserProvided)), At(10, 50))).Some?
            && CheckExpr(inner).None?
  {
  }
}
