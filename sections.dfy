/** The Z and T section choice of the image export (scripts/extract_tagged_rois.py,
    get_z_range and get_t_range inside batch_image_export). Indices here are
    1-based, as the user enters them. */
module Sections {
  import opened Common

  /** The script parameters one axis reads; None when the key is absent.
      For Z they are Choose_Z_Section, OR_specify_Z_index,
      OR_specify_Z_start_AND... and ...specify_Z_end; T has the same four. */
  datatype SectionParams = SectionParams(
    choice: Option<string>,
    index: Option<int>,
    start: Option<int>,
    end: Option<int>)

  /** `(i,)` is a single plane; `(start, stop)` is the half-open run start..stop-1. */
  datatype PlaneRange = Single(index: int) | Span(start: int, stop: int)

  /** Whether a range stands for plane i, as save_planes_for_image reads it. */
  predicate Covers(r: PlaneRange, i: int)
  {
    match r
    case Single(j) => i == j
    case Span(a, b) => a <= i < b
  }

  function Min(a: int, b: int): int { if a <= b then a else b }
  function Max(a: int, b: int): int { if a <= b then b else a }

  /** The body shared by get_z_range and get_t_range; `allLabel` is the menu entry
      that selects every plane. */
  function SectionRange(size: int, p: SectionParams, allLabel: string): (r: Option<PlaneRange>)
    // no choice at all: no range
    ensures p.choice.None? ==> r.None?
    // the "all planes" entry: 1..size
    ensures p.choice == Some(allLabel) ==> r == Some(Span(1, size + 1))
    // an explicit index wins over a start/end pair, and is capped at the size
    ensures p.choice.Some? && p.choice != Some(allLabel) && p.index.Some? ==>
      r == Some(Single(Min(p.index.value, size)))
    // a start/end pair, capped at the size and put in order, covers lo..hi inclusive
    ensures p.choice.Some? && p.choice != Some(allLabel) && p.index.None? && p.start.Some? && p.end.Some? ==>
      var lo := Min(Min(p.start.value, size), Min(p.end.value, size));
      var hi := Max(Min(p.start.value, size), Min(p.end.value, size));
      && r.Some?
      && (r.value.Single? <==> lo == hi)
      && (r.value.Span? ==> r.value.start < r.value.stop)
      && (forall i :: Covers(r.value, i) <==> lo <= i <= hi)
    // anything else: no range
    ensures p.choice.Some? && p.choice != Some(allLabel) && p.index.None? && (p.start.None? || p.end.None?) ==>
      r.None?
  {
    match p.choice
    case None => None
    case Some(choice) =>
      if choice == allLabel then Some(Span(1, size + 1))
      else if p.index.Some? then Some(Single(Min(p.index.value, size)))
      else if p.start.Some? && p.end.Some? then
        var start := Min(p.start.value, size);
        var end := Min(p.end.value, size);
        var lo, hi := Min(start, end), Max(start, end);
        if lo == hi then Some(Single(lo)) else Some(Span(lo, hi + 1))
      else None
  }

  function GetZRange(sizeZ: int, p: SectionParams): Option<PlaneRange>
  {
    SectionRange(sizeZ, p, "ALL Z planes")
  }

  function GetTRange(sizeT: int, p: SectionParams): Option<PlaneRange>
  {
    SectionRange(sizeT, p, "ALL T planes")
  }

  /** Whatever the user entered, no chosen plane lies beyond the image. */
  lemma SectionRangeCapped(size: int, p: SectionParams, allLabel: string, i: int)
    requires SectionRange(size, p, allLabel).Some?
    requires Covers(SectionRange(size, p, allLabel).value, i)
    ensures i <= size
  {
  }

  /** The T choice behaves as the Z choice does, its own "all" entry aside. */
  lemma TRangeMirrorsZRange(size: int, z: SectionParams, t: SectionParams)
    requires z.index == t.index && z.start == t.start && z.end == t.end
    requires || (z.choice == t.choice && z.choice != Some("ALL Z planes") && t.choice != Some("ALL T planes"))
             || (z.choice == Some("ALL Z planes") && t.choice == Some("ALL T planes"))
    ensures GetZRange(size, z) == GetTRange(size, t)
  {
  }
}
