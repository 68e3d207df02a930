/** Plane selection for one shape (scripts/extract_tagged_rois.py, get_export_data):
    a shape's Z (or T) is either its own index, every index of the image when it
    has none and all planes are exported, or left unresolved (None). */
module Planes {
  import opened Common

  /** `[Some(0), ..., Some(n-1)]`, the plane list of `range(n)`. */
  function AllPlanes(n: nat): (r: seq<Option<nat>>)
    ensures |r| == n
    ensures forall i :: 0 <= i < n ==> r[i] == Some(i)
  {
    if n == 0 then [] else AllPlanes(n - 1) + [Some(n - 1)]
  }

  /** The list the script iterates for one axis (`z_indexes` / `t_indexes`). */
  function PlaneIndexes(index: Option<nat>, allPlanes: bool, size: nat): seq<Option<nat>>
  {
    if index.None? && allPlanes then AllPlanes(size) else [index]
  }

  /** The axis expands exactly when the shape leaves it unset and all planes are
      exported; otherwise it is the single, possibly unresolved, value. */
  lemma PlaneIndexesShape(index: Option<nat>, allPlanes: bool, size: nat)
    ensures var r := PlaneIndexes(index, allPlanes, size);
      && |r| == (if index.None? && allPlanes then size else 1)
      && (index.Some? || !allPlanes ==> r == [index])
  {
  }

  /** Which planes are listed: the shape's own index, or every index below the
      axis size when the axis expands. */
  lemma PlaneIndexesMembers(index: Option<nat>, allPlanes: bool, size: nat, k: nat)
    ensures Some(k) in PlaneIndexes(index, allPlanes, size)
        <==> index == Some(k) || (index.None? && allPlanes && k < size)
  {
    var r := PlaneIndexes(index, allPlanes, size);
    if index.None? && allPlanes && k < size {
      assert r[k] == Some(k);
    }
  }

  /** An unresolved entry (no statistics) appears exactly when the axis is unset
      and all planes are not exported. */
  lemma PlaneIndexesUnresolved(index: Option<nat>, allPlanes: bool, size: nat)
    ensures None in PlaneIndexes(index, allPlanes, size) <==> index.None? && !allPlanes
  {
  }

  /** No plane is listed twice, so no plane is visited twice. */
  lemma PlaneIndexesDistinct(index: Option<nat>, allPlanes: bool, size: nat)
    ensures var r := PlaneIndexes(index, allPlanes, size);
      forall i, j :: 0 <= i < j < |r| ==> r[i] != r[j]
  {
  }

  /** The 1-based cell the script writes for a plane: `z + 1`, or `""` when unresolved. */
  function PlaneDisplay(p: Option<nat>): (r: Option<nat>)
    ensures r.Some? <==> p.Some?
    ensures r.Some? ==> r.value >= 1 && r.value - 1 == p.value
  {
    match p
    case Some(z) => Some(z + 1)
    case None => None
  }
}
