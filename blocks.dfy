/** The static block geometry and the position-to-block lookup
    (`blockDefinitions` and `getBlockIdForPosition` in hooks/useMockData.ts). */
module BlockMap {
  import opened TwinTypes

  /** A block's extent: the horizontal line `line` from `start` (included)
      to `end` (excluded). */
  datatype BlockDef = BlockDef(id: string, line: real, start: real, end: real)

  /** The six blocks, in the order a `for ... in` loop enumerates them. */
  const BlockTable: seq<BlockDef> := [
    BlockDef("B1-A", 100.0, 0.0, 400.0), BlockDef("B1-B", 100.0, 400.0, 900.0),
    BlockDef("B2-A", 200.0, 0.0, 400.0), BlockDef("B2-B", 200.0, 400.0, 900.0),
    BlockDef("B3-A", 300.0, 0.0, 400.0), BlockDef("B3-B", 300.0, 400.0, 900.0)
  ]

  /** The half-open test of the lookup loop. */
  predicate Covers(d: BlockDef, p: Point) {
    p.y == d.line && d.start <= p.x < d.end
  }

  /** The id of the first definition that covers `p`, or null. */
  function LookupIn(defs: seq<BlockDef>, p: Point): (r: Option<string>)
    ensures r.Some? <==> exists k :: 0 <= k < |defs| && Covers(defs[k], p)
    ensures r.Some? ==> exists k :: 0 <= k < |defs| && Covers(defs[k], p) && defs[k].id == r.value &&
                                    forall j :: 0 <= j < k ==> !Covers(defs[j], p)
  {
    if |defs| == 0 then None
    else if Covers(defs[0], p) then Some(defs[0].id)
    else
      var r := LookupIn(defs[1..], p);
      assert r.Some? ==> exists k :: 0 <= k < |defs| && Covers(defs[k], p) && defs[k].id == r.value &&
                                     forall j :: 0 <= j < k ==> !Covers(defs[j], p) by {
        if r.Some? {
          var k :| 0 <= k < |defs[1..]| && Covers(defs[1..][k], p) && defs[1..][k].id == r.value &&
                   forall j :: 0 <= j < k ==> !Covers(defs[1..][j], p);
          forall j | 0 <= j < k + 1 ensures !Covers(defs[j], p) {
            if j > 0 { assert defs[j] == defs[1..][j - 1]; }
          }
          assert defs[k + 1] == defs[1..][k];
        }
      }
      assert (exists k :: 0 <= k < |defs[1..]| && Covers(defs[1..][k], p)) ==>
             (exists k :: 0 <= k < |defs| && Covers(defs[k], p)) by {
        if exists k :: 0 <= k < |defs[1..]| && Covers(defs[1..][k], p) {
          var k :| 0 <= k < |defs[1..]| && Covers(defs[1..][k], p);
          assert defs[k + 1] == defs[1..][k];
        }
      }
      assert (exists k :: 0 <= k < |defs| && Covers(defs[k], p)) ==>
             (exists k :: 0 <= k < |defs[1..]| && Covers(defs[1..][k], p)) by {
        if exists k :: 0 <= k < |defs| && Covers(defs[k], p) {
          var k :| 0 <= k < |defs| && Covers(defs[k], p);
          assert k != 0;
          assert defs[1..][k - 1] == defs[k];
        }
      }
      r
  }

  /** The block whose extent contains `p`, if any. */
  function BlockFor(p: Point): Option<string> {
    LookupIn(BlockTable, p)
  }

  /** `getBlockIdForPosition`: a loop over the table that returns on the
      first covering block. */
  method GetBlockIdForPosition(p: Point) returns (r: Option<string>)
    ensures r.Some? <==> exists k :: 0 <= k < |BlockTable| && Covers(BlockTable[k], p)
    ensures r.Some? ==> exists k :: 0 <= k < |BlockTable| && Covers(BlockTable[k], p) && BlockTable[k].id == r.value
    ensures r == BlockFor(p)
  {
    var i := 0;
    while i < |BlockTable|
      invariant 0 <= i <= |BlockTable|
      invariant forall j :: 0 <= j < i ==> !Covers(BlockTable[j], p)
      invariant LookupIn(BlockTable[i..], p) == BlockFor(p)
    {
      var d := BlockTable[i];
      if p.y == d.line && p.x >= d.start && p.x < d.end {
        return Some(d.id);
      }
      assert BlockTable[i..][1..] == BlockTable[i + 1..];
      i := i + 1;
    }
    return None;
  }

  /** On each line the two extents are adjacent and half-open, so no point
      lies in two blocks. */
  lemma TableExtentsDisjoint(i: nat, j: nat, p: Point)
    requires i < |BlockTable| && j < |BlockTable|
    requires Covers(BlockTable[i], p) && Covers(BlockTable[j], p)
    ensures i == j
  {
  }

  /** The lookup answers `id` exactly when the block named `id` covers `p`. */
  lemma BlockForExact(p: Point, id: string)
    ensures BlockFor(p) == Some(id) <==>
            exists k :: 0 <= k < |BlockTable| && BlockTable[k].id == id && Covers(BlockTable[k], p)
  {
    if exists k :: 0 <= k < |BlockTable| && BlockTable[k].id == id && Covers(BlockTable[k], p) {
      var k :| 0 <= k < |BlockTable| && BlockTable[k].id == id && Covers(BlockTable[k], p);
      var r := BlockFor(p);
      var k' :| 0 <= k' < |BlockTable| && Covers(BlockTable[k'], p) && BlockTable[k'].id == r.value;
      TableExtentsDisjoint(k, k', p);
    }
  }

  /** Off the three lines, or outside [0, 900), there is no block. */
  lemma BlockForNone(p: Point)
    ensures BlockFor(p).None? <==>
            !(p.y in {100.0, 200.0, 300.0}) || p.x < 0.0 || 900.0 <= p.x
  {
    if p.y in {100.0, 200.0, 300.0} && 0.0 <= p.x < 900.0 {
      var k := (if p.y == 100.0 then 0 else if p.y == 200.0 then 2 else 4) + (if p.x < 400.0 then 0 else 1);
      assert Covers(BlockTable[k], p);
    }
  }

  /** A point the `k`-th block covers is looked up as that block. */
  lemma CoveredBy(p: Point, k: nat)
    requires k < |BlockTable| && Covers(BlockTable[k], p)
    ensures BlockFor(p) == Some(BlockTable[k].id)
  {
    BlockForExact(p, BlockTable[k].id);
  }

  /** A position exactly on the boundary x = 400 belongs to the "-B" block. */
  lemma BoundaryBelongsToSecondBlock()
    ensures BlockFor(Point(400.0, 100.0)) == Some("B1-B")
    ensures BlockFor(Point(400.0, 200.0)) == Some("B2-B")
    ensures BlockFor(Point(400.0, 300.0)) == Some("B3-B")
  {
    CoveredBy(Point(400.0, 100.0), 1);
    CoveredBy(Point(400.0, 200.0), 3);
    CoveredBy(Point(400.0, 300.0), 5);
  }
}
