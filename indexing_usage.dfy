/** The `indexing_usage` pass: every index or slice expression, and every
    implementation of the `Index` / `IndexMut` traits. */
module IndexingUsage {
  import opened Spans
  import opened Lints
  import opened Hir

  const SECURITY_INDEXING_USAGE: Lint :=
    Lint("SECURITY_INDEXING_USAGE", Deny, "Detects usage of indexing and slicing operations.")

  const INDEXING_MESSAGE: string := "Usage of indexing operation detected."

  const SLICING_MESSAGE: string := "Usage of slicing operation detected."

  const INDEX_IMPL_MESSAGE: string := "Implementation of Index/IndexMut trait detected."

  /** What kind of access an index operand makes. */
  datatype Access = Indexing | Slicing

  /** A `Struct` operand slices; a literal (`a[0]`) and every other operand
      (`a[i]`) index. Every range but `a..=b` lowers to a `Struct`
      expression; `a..=b` lowers to a call, and a struct-literal key is a
      `Struct` expression too. */
  function ClassifyOperand(index: Expr): (a: Access)
    ensures a == Slicing <==> index.kind.Struct?
  {
    match index.kind
    case Lit => Indexing
    case Struct(_) => Slicing
    case _ => Indexing
  }

  function AccessMessage(a: Access): string {
    match a
    case Indexing => INDEXING_MESSAGE
    case Slicing => SLICING_MESSAGE
  }

  /** `check_expr`: one diagnostic for every index expression, at the whole
      expression, whatever its operand; nothing for other expressions. */
  function CheckExpr(e: Expr): (r: Option<Diagnostic>)
    ensures r.Some? <==> e.kind.Index?
    ensures r.Some? ==> r.value.span == e.span && r.value.lint == "SECURITY_INDEXING_USAGE" && r.value.level == Deny
    ensures r.Some? ==> (r.value.message == SLICING_MESSAGE <==> e.kind.index.kind.Struct?)
    ensures r.Some? ==> (r.value.message == INDEXING_MESSAGE <==> !e.kind.index.kind.Struct?)
  {
    match e.kind
    case Index(_, index) =>
      (match index.kind
       case Lit => Some(SpanLint(SECURITY_INDEXING_USAGE, e.span, INDEXING_MESSAGE))
       case Struct(_) => Some(SpanLint(SECURITY_INDEXING_USAGE, e.span, SLICING_MESSAGE))
       case _ => Some(SpanLint(SECURITY_INDEXING_USAGE, e.span, INDEXING_MESSAGE)))
    case _ => None
  }

  /** No expansion guard: an index expression produced by a macro is
      reported, at its expansion span. */
  lemma ExpandedIndexReported(base: Expr, index: Expr, lo: nat, hi: nat, kind: ExpnKind, site: Span)
    ensures CheckExpr(Expr(Index(base, index), Span(lo, hi, Expansion(kind, site)))).Some?
    ensures CheckExpr(Expr(Index(base, index), Span(lo, hi, Expansion(kind, site)))).value.span ==
      Span(lo, hi, Expansion(kind, site))
  {
  }

  /** The diagnostic's message is the one for the operand's access kind. */
  lemma CheckExprMessage(e: Expr)
    requires e.kind.Index?
    ensures CheckExpr(e) == Some(SpanLint(SECURITY_INDEXING_USAGE, e.span, AccessMessage(ClassifyOperand(e.kind.index))))
  {
  }

  /** The definition of the trait a trait impl implements, when its path
      resolves to one. */
  function ImplementedTrait(item: Item): (r: Option<DefId>)
    ensures r.Some? ==> item.kind.Impl? && item.kind.ofTrait.Some?
    ensures item.kind.Impl? && item.kind.ofTrait.Some? ==> r == OptDefId(item.kind.ofTrait.value.traitRef.path.res)
  {
    match item.kind
    case Impl(Some(header), _) => OptDefId(header.traitRef.path.res)
    case _ => None
  }

  /** The trait is the `Index` or the `IndexMut` lang item. */
  predicate IsIndexTrait(ctx: Context, d: DefId) {
    ctx.indexTrait == Some(d) || ctx.indexMutTrait == Some(d)
  }

  /** `check_item`: one diagnostic, at the item, exactly for an impl of the
      `Index` or `IndexMut` trait. */
  function CheckItem(ctx: Context, item: Item): (r: Option<Diagnostic>)
    ensures r.Some? <==> ImplementedTrait(item).Some? && IsIndexTrait(ctx, ImplementedTrait(item).value)
    ensures r.Some? ==> r == Some(SpanLint(SECURITY_INDEXING_USAGE, item.span, INDEX_IMPL_MESSAGE))
  {
    match item.kind
    case Impl(ofTrait, _) =>
      if ofTrait.Some? then
        (match OptDefId(ofTrait.value.traitRef.path.res)
         case Some(d) =>
           if ctx.indexTrait == Some(d) || ctx.indexMutTrait == Some(d) then
             Some(SpanLint(SECURITY_INDEXING_USAGE, item.span, INDEX_IMPL_MESSAGE))
           else None
         case None => None)
      else None
    case _ => None
  }

  /** Inherent impls, items that are not impls, and trait impls whose path
      names no definition are never reported; nor is an impl of a trait that
      is neither lang item. */
  lemma CheckItemIgnores(ctx: Context, item: Item)
    requires || !item.kind.Impl?
             || item.kind.ofTrait.None?
             || !item.kind.ofTrait.value.traitRef.path.res.Def?
             || !IsIndexTrait(ctx, item.kind.ofTrait.value.traitRef.path.res.defId)
    ensures CheckItem(ctx, item).None?
  {
  }

  // ---------------------------------------------------------------------
  // The sample program the pass is tested against
  // ---------------------------------------------------------------------


  /** `array[0]` indexes, `&array[1..]` slices, and `self.0[index]` inside
      the `Index` impl's body indexes too: each is one diagnostic at the
      index expression. */
  lemma SampleIndexExprs(arr: Expr, start: Expr, field: Expr)
    ensures CheckExpr(Expr(Index(arr, Expr(Lit, At(19, 20))), At(13, 21))) ==
      Some(Diagnostic("SECURITY_INDEXING_USAGE", Deny, At(13, 21), INDEXING_MESSAGE))
    ensures CheckExpr(Expr(Index(arr, Expr(Struct([start]), At(30, 33))), At(24, 34))) ==
      Some(Diagnostic("SECURITY_INDEXING_USAGE", Deny, At(24, 34), SLICING_MESSAGE))
    ensures CheckExpr(Expr(Index(field, Expr(Path(Local(7)), At(57, 62))), At(50, 64))) ==
      Some(Diagnostic("SECURITY_INDEXING_USAGE", Deny, At(50, 64), INDEXING_MESSAGE))
  {
  }

  /** The operand's node kind, not whether it is a range, picks the message:
      `a[1..=3]`, whose operand is a call of `RangeInclusive::new`, is
      reported as indexing, and `m[Key { id: 1 }]`, whose operand is a struct
      literal, as slicing. */
  lemma SampleOperandKinds(a: Expr, m: Expr, rangeNew: DefId, one: Expr, three: Expr, id: Expr)
    ensures var inclusive := Expr(Call(Expr(Path(Def(rangeNew)), At(2, 7)), [one, three]), At(2, 7));
            CheckExpr(Expr(Index(a, inclusive), At(0, 8))) ==
              Some(Diagnostic("SECURITY_INDEXING_USAGE", Deny, At(0, 8), INDEXING_MESSAGE))
    ensures CheckExpr(Expr(Index(m, Expr(Struct([id]), At(2, 15))), At(0, 16))) ==
      Some(Diagnostic("SECURITY_INDEXING_USAGE", Deny, At(0, 16), SLICING_MESSAGE))
  {
  }

  /** `impl Index<usize> for MyVec` is reported once, at the impl, with
      the item check; the expressions in its body are checked on their own. */
  lemma SampleIndexImpl(ctx: Context, index: DefId, members: seq<nat>)
    requires ctx.indexTrait == Some(index)
    ensures CheckItem(ctx, Item(Impl(Some(TraitImplHeader(Safe, TraitRef(HirPath(Def(index), At(5, 15))))), members), At(0, 100))) ==
      Some(Diagnostic("SECURITY_INDEXING_USAGE", Deny, At(0, 100), INDEX_IMPL_MESSAGE))
  {
  }
}
