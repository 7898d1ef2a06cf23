/**
  * The input side of the builder (builder.py): block operations, corner and
  * palette normalisation, and the plan validator.
  */
module Planning {
  import opened Wrappers
  import opened Strings
  import opened BlockIds

  /** An integer triple: a corner, a size, or an absolute position. */
  datatype Vec3 = Vec3(x: int, y: int, z: int)

  /** One placement, at coordinates relative to the minimum corner of the build volume. */
  datatype BlockOp = BlockOp(x: int, y: int, z: int, block: string)

  /** Why a plan was refused; the first violation found wins. */
  datatype PlanError =
    | TooManyOps(count: nat, limit: int)
    | OutOfBounds(index: nat, x: int, y: int, z: int)
    | DisallowedBlock(index: nat, block: string)

  /** Why a palette was refused: the entry, as given, that lacks the namespace. */
  datatype PaletteError = NotNamespaced(block: string)

  function Min(a: int, b: int): int { if a <= b then a else b }

  function Max(a: int, b: int): int { if a <= b then b else a }

  predicate LessEq(lo: Vec3, hi: Vec3) {
    lo.x <= hi.x && lo.y <= hi.y && lo.z <= hi.z
  }

  /** `p` lies in the inclusive box spanned by `lo` and `hi`. */
  predicate InBox(p: Vec3, lo: Vec3, hi: Vec3) {
    LessEq(lo, p) && LessEq(p, hi)
  }

  function Add(a: Vec3, b: Vec3): Vec3 {
    Vec3(a.x + b.x, a.y + b.y, a.z + b.z)
  }

  /**
    * `_normalize_bounds`: the component-wise lesser and greater corners.
    * On each axis the two results are the two inputs, in order.
    */
  function NormalizeBounds(a: Vec3, b: Vec3): (r: (Vec3, Vec3))
    ensures LessEq(r.0, r.1)
    ensures (r.0.x, r.1.x) == (a.x, b.x) || (r.0.x, r.1.x) == (b.x, a.x)
    ensures (r.0.y, r.1.y) == (a.y, b.y) || (r.0.y, r.1.y) == (b.y, a.y)
    ensures (r.0.z, r.1.z) == (a.z, b.z) || (r.0.z, r.1.z) == (b.z, a.z)
  {
    (Vec3(Min(a.x, b.x), Min(a.y, b.y), Min(a.z, b.z)),
     Vec3(Max(a.x, b.x), Max(a.y, b.y), Max(a.z, b.z)))
  }

  /** The order in which the two corners are given does not matter. */
  lemma NormalizeBoundsSymmetric(a: Vec3, b: Vec3)
    ensures NormalizeBounds(a, b) == NormalizeBounds(b, a)
  {
  }

  /** The normalised box contains both corners given and nothing outside their span. */
  lemma NormalizedBoxSpansCorners(a: Vec3, b: Vec3, p: Vec3)
    ensures InBox(a, NormalizeBounds(a, b).0, NormalizeBounds(a, b).1)
    ensures InBox(b, NormalizeBounds(a, b).0, NormalizeBounds(a, b).1)
    ensures InBox(p, NormalizeBounds(a, b).0, NormalizeBounds(a, b).1) <==>
              (Min(a.x, b.x) <= p.x <= Max(a.x, b.x) &&
               Min(a.y, b.y) <= p.y <= Max(a.y, b.y) &&
               Min(a.z, b.z) <= p.z <= Max(a.z, b.z))
  {
  }

  /** `_size_from_bounds`: the inclusive extent of the box on each axis. */
  function SizeFromBounds(lo: Vec3, hi: Vec3): (size: Vec3)
    ensures LessEq(lo, hi) ==> LessEq(Vec3(1, 1, 1), size)
    ensures Add(lo, size) == Vec3(hi.x + 1, hi.y + 1, hi.z + 1)
  {
    Vec3(hi.x - lo.x + 1, hi.y - lo.y + 1, hi.z - lo.z + 1)
  }

  /** The relative coordinates `0 <= c < size` on every axis. */
  predicate InRange(p: Vec3, size: Vec3) {
    0 <= p.x < size.x && 0 <= p.y < size.y && 0 <= p.z < size.z
  }

  function Offset(op: BlockOp): Vec3 {
    Vec3(op.x, op.y, op.z)
  }

  /**
    * A relative coordinate is within the size derived from a box exactly when
    * the absolute coordinate it stands for lies in that box.
    */
  lemma RelativeRangeIsBox(lo: Vec3, hi: Vec3, p: Vec3)
    ensures InRange(p, SizeFromBounds(lo, hi)) <==> InBox(Add(lo, p), lo, hi)
  {
  }

  /** `block.strip().lower()`: how one palette entry is normalised. */
  function NormalizeEntry(block: string): string {
    Lower(Strip(block))
  }

  /** Normalised entries have no surrounding whitespace, no capital letter, and are stable. */
  lemma NormalizeEntryCanonical(block: string)
    ensures var e := NormalizeEntry(block);
      Strip(e) == e && Lower(e) == e && NormalizeEntry(e) == e
      && forall i :: 0 <= i < |e| ==> !IsUpper(e[i])
  {
    LowerKeepsStripped(Strip(block));
  }

  /** Every entry starts with the namespace once normalised. */
  predicate PaletteAccepted(palette: seq<string>) {
    forall i :: 0 <= i < |palette| ==> Namespace <= NormalizeEntry(palette[i])
  }

  /** Every entry normalised, in order, duplicates kept. */
  function NormalizedEntries(palette: seq<string>): seq<string> {
    seq(|palette|, i requires 0 <= i < |palette| => NormalizeEntry(palette[i]))
  }

  /**
    * `_normalize_palette`: each entry stripped and lower-cased, in order and
    * with duplicates kept; the first entry that does not start with the
    * namespace afterwards is reported as given.
    */
  method NormalizePalette(palette: seq<string>) returns (r: Result<seq<string>, PaletteError>)
    ensures r.Ok? <==> PaletteAccepted(palette)
    ensures r.Ok? ==> r.value == NormalizedEntries(palette)
    ensures r.Err? ==> exists i :: 0 <= i < |palette| && r.error == NotNamespaced(palette[i])
                                   && !(Namespace <= NormalizeEntry(palette[i]))
                                   && forall j :: 0 <= j < i ==> Namespace <= NormalizeEntry(palette[j])
  {
    var normalized: seq<string> := [];
    for i := 0 to |palette|
      invariant |normalized| == i
      invariant forall j :: 0 <= j < i ==> normalized[j] == NormalizeEntry(palette[j]) && Namespace <= normalized[j]
    {
      var blockId := NormalizeEntry(palette[i]);
      if !(Namespace <= blockId) {
        r := Err(NotNamespaced(palette[i]));
        assert forall j :: 0 <= j < i ==> Namespace <= NormalizeEntry(palette[j]);
        return;
      }
      normalized := normalized + [blockId];
    }
    assert normalized == NormalizedEntries(palette);
    assert PaletteAccepted(palette);
    return Ok(normalized);
  }

  /** A normalised palette: every entry is stripped, lower-case and namespaced. */
  lemma NormalizedPaletteIsCanonical(palette: seq<string>, normalized: seq<string>)
    requires |normalized| == |palette|
    requires forall i :: 0 <= i < |palette| ==> normalized[i] == NormalizeEntry(palette[i])
    requires forall i :: 0 <= i < |palette| ==> Namespace <= NormalizeEntry(palette[i])
    ensures forall i :: 0 <= i < |normalized| ==>
              Namespace <= normalized[i] && Strip(normalized[i]) == normalized[i] && Lower(normalized[i]) == normalized[i]
  {
    forall i | 0 <= i < |normalized|
      ensures Namespace <= normalized[i] && Strip(normalized[i]) == normalized[i] && Lower(normalized[i]) == normalized[i]
    {
      NormalizeEntryCanonical(palette[i]);
    }
  }

  /** An operation the validator lets through: in range and drawn from the palette. */
  predicate OpAllowed(op: BlockOp, size: Vec3, palette: seq<string>) {
    InRange(Offset(op), size) && op.block in palette
  }

  /** The violation of op number `index`, if any: the range check comes before the palette check. */
  function OpViolation(index: nat, op: BlockOp, size: Vec3, palette: seq<string>): (r: Option<PlanError>)
    ensures r.None? <==> OpAllowed(op, size, palette)
    ensures r.Some? ==> !r.value.TooManyOps? && r.value.index == index
    ensures r.Some? && r.value.DisallowedBlock? ==> InRange(Offset(op), size) && r.value.block == op.block
    ensures r.Some? && r.value.OutOfBounds? ==> !InRange(Offset(op), size) && Vec3(r.value.x, r.value.y, r.value.z) == Offset(op)
  {
    if !InRange(Offset(op), size) then Some(OutOfBounds(index, op.x, op.y, op.z))
    else if op.block !in palette then Some(DisallowedBlock(index, op.block))
    else None
  }

  /** The scan over `plan[from..]`: the violation of the lowest-indexed offending op. */
  function FirstViolation(plan: seq<BlockOp>, from: nat, size: Vec3, palette: seq<string>): (r: Option<PlanError>)
    requires from <= |plan|
    ensures r.None? <==> forall i :: from <= i < |plan| ==> OpAllowed(plan[i], size, palette)
    ensures r.Some? ==> && !r.value.TooManyOps?
                        && from <= r.value.index < |plan|
                        && r == OpViolation(r.value.index, plan[r.value.index], size, palette)
                        && forall i :: from <= i < r.value.index ==> OpAllowed(plan[i], size, palette)
    decreases |plan| - from
  {
    if from == |plan| then None
    else
      var v := OpViolation(from, plan[from], size, palette);
      if v.Some? then v else FirstViolation(plan, from + 1, size, palette)
  }

  /**
    * `_validate_plan`: the count check first, then the per-op scan.
    * `None` means the plan may be executed.
    */
  function ValidatePlan(plan: seq<BlockOp>, size: Vec3, palette: seq<string>, maxBlocks: int): (r: Option<PlanError>)
    ensures r == Some(TooManyOps(|plan|, maxBlocks)) <==> |plan| > maxBlocks
    ensures r.None? <==> |plan| <= maxBlocks && forall i :: 0 <= i < |plan| ==> OpAllowed(plan[i], size, palette)
    ensures r.Some? && |plan| <= maxBlocks ==>
              && !r.value.TooManyOps?
              && r.value.index < |plan|
              && r == OpViolation(r.value.index, plan[r.value.index], size, palette)
              && forall i :: 0 <= i < r.value.index ==> OpAllowed(plan[i], size, palette)
  {
    if |plan| > maxBlocks then Some(TooManyOps(|plan|, maxBlocks))
    else FirstViolation(plan, 0, size, palette)
  }

  /** The validator never looks at an op when the plan is too long. */
  lemma CountCheckComesFirst(plan: seq<BlockOp>, other: seq<BlockOp>, size: Vec3, palette: seq<string>, maxBlocks: int)
    requires |plan| == |other| > maxBlocks
    ensures ValidatePlan(plan, size, palette, maxBlocks) == ValidatePlan(other, size, palette, maxBlocks)
  {
  }

  /**
    * Every op of an accepted plan lands inside the normalised build box once
    * translated by the minimum corner.
    */
  lemma AcceptedPlanStaysInBox(plan: seq<BlockOp>, a: Vec3, b: Vec3, palette: seq<string>, maxBlocks: int, i: nat)
    requires i < |plan|
    requires ValidatePlan(plan, SizeFromBounds(NormalizeBounds(a, b).0, NormalizeBounds(a, b).1), palette, maxBlocks).None?
    ensures InBox(Add(NormalizeBounds(a, b).0, Offset(plan[i])), NormalizeBounds(a, b).0, NormalizeBounds(a, b).1)
    ensures plan[i].block in palette
  {
    var (lo, hi) := NormalizeBounds(a, b);
    assert OpAllowed(plan[i], SizeFromBounds(lo, hi), palette);
    RelativeRangeIsBox(lo, hi, Offset(plan[i]));
  }
}
