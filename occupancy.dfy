/** Block occupancy, recomputed from train positions: the first-wins claim of
    the simulation tick and the last-wins claim of the initial population
    (hooks/useMockData.ts, the two `forEach` loops over the roster). */
module Occupancy {
  import opened TwinTypes
  import opened BlockMap

  /** The tick claims a block only if it is still unclaimed; the initial
      population overwrites whatever is there. */
  datatype ClaimPolicy = FirstWins | LastWins

  /** Every block emptied, ids and order kept. */
  function Cleared(blocks: seq<Block>): (r: seq<Block>)
    ensures SameIds(r, blocks)
    ensures forall i :: 0 <= i < |r| ==> r[i].occupiedBy.None?
  {
    seq(|blocks|, i requires 0 <= i < |blocks| => blocks[i].(occupiedBy := None))
  }

  /** Index of the block a relocated train claims: the first block whose id
      is the train's `currentBlock` (a null id matches no block). */
  function ClaimTarget(blocks: seq<Block>, t: Train): Option<nat> {
    match t.currentBlock
    case None => None
    case Some(id) => IndexOfBlock(blocks, id)
  }

  /** One pass of the loop body: train `t`, whose `currentBlock` has just been
      set, claims its block under `policy`. */
  function ClaimOne(blocks: seq<Block>, t: Train, policy: ClaimPolicy): (r: seq<Block>)
    ensures SameIds(r, blocks)
  {
    match ClaimTarget(blocks, t)
    case None => blocks
    case Some(k) =>
      if policy == LastWins || !Truthy(blocks[k].occupiedBy)
      then blocks[k := blocks[k].(occupiedBy := Some(t.id))]
      else blocks
  }

  /** The loop over the whole (relocated) roster, in roster order. */
  function ClaimAll(blocks: seq<Block>, trains: seq<Train>, policy: ClaimPolicy): (r: seq<Block>)
    ensures SameIds(r, blocks)
  {
    if |trains| == 0 then blocks
    else ClaimOne(ClaimAll(blocks, trains[..|trains| - 1], policy), trains[|trains| - 1], policy)
  }

  /** Every train's `currentBlock` set to its looked-up block, claimed or not. */
  function Relocated(trains: seq<Train>): (r: seq<Train>)
    ensures |r| == |trains|
    ensures forall k :: 0 <= k < |r| ==> r[k] == trains[k].(currentBlock := BlockFor(trains[k].position))
  {
    seq(|trains|, k requires 0 <= k < |trains| => trains[k].(currentBlock := BlockFor(trains[k].position)))
  }

  /** Train `t` claims block `i` of `blocks`. */
  predicate Claims(blocks: seq<Block>, t: Train, i: nat) {
    ClaimTarget(blocks, t) == Some(i)
  }

  /** Reference definition of the tick's occupant: the id of the earliest
      train in roster order that claims block `i`. */
  function FirstClaimant(blocks: seq<Block>, trains: seq<Train>, i: nat): Option<string> {
    if |trains| == 0 then None
    else if Claims(blocks, trains[0], i) then Some(trains[0].id)
    else FirstClaimant(blocks, trains[1..], i)
  }

  /** Reference definition of the initial population's occupant: the id of
      the latest train in roster order that claims block `i`. */
  function LastClaimant(blocks: seq<Block>, trains: seq<Train>, i: nat): Option<string> {
    if |trains| == 0 then None
    else if Claims(blocks, trains[|trains| - 1], i) then Some(trains[|trains| - 1].id)
    else LastClaimant(blocks, trains[..|trains| - 1], i)
  }

  predicate NonEmptyIds(trains: seq<Train>) {
    forall k :: 0 <= k < |trains| ==> trains[k].id != ""
  }

  predicate UniqueIds(trains: seq<Train>) {
    forall j, k :: 0 <= j < k < |trains| ==> trains[j].id != trains[k].id
  }

  /** Each occupant is some train whose position maps to that block. */
  predicate OccupancyConsistent(trains: seq<Train>, blocks: seq<Block>) {
    forall i :: 0 <= i < |blocks| && blocks[i].occupiedBy.Some? ==>
      exists t :: t in trains && t.id == blocks[i].occupiedBy.value && t.currentBlock == Some(blocks[i].id)
  }

  // ---------------------------------------------------------------- lemmas

  lemma ClaimTargetSameIds(a: seq<Block>, b: seq<Block>, t: Train)
    requires SameIds(a, b)
    ensures ClaimTarget(a, t) == ClaimTarget(b, t)
  {
    if t.currentBlock.Some? {
      IndexOfBlockSameIds(a, b, t.currentBlock.value);
    }
  }

  /** Adding one train at the end of the roster: its claim counts only if no
      earlier train claimed the block. */
  lemma {:induction false} FirstClaimantSnoc(blocks: seq<Block>, trains: seq<Train>, t: Train, i: nat)
    ensures FirstClaimant(blocks, trains + [t], i) ==
            if FirstClaimant(blocks, trains, i).Some? then FirstClaimant(blocks, trains, i)
            else if Claims(blocks, t, i) then Some(t.id) else None
  {
    if |trains| == 0 {
      assert trains + [t] == [t];
      assert [t][1..] == [];
    } else {
      assert (trains + [t])[0] == trains[0];
      assert (trains + [t])[1..] == trains[1..] + [t];
      FirstClaimantSnoc(blocks, trains[1..], t, i);
    }
  }

  /** The tick's loop leaves in block `i` exactly the earliest claimant,
      provided train ids are non-empty strings (an empty id is falsy in the
      source's "still unclaimed" test). */
  lemma {:induction false} FirstWinsOccupant(blocks: seq<Block>, trains: seq<Train>, i: nat)
    requires i < |blocks|
    requires NonEmptyIds(trains)
    ensures ClaimAll(Cleared(blocks), trains, FirstWins)[i].occupiedBy == FirstClaimant(blocks, trains, i)
  {
    if |trains| > 0 {
      var init := trains[..|trains| - 1];
      var t := trains[|trains| - 1];
      var prev := ClaimAll(Cleared(blocks), init, FirstWins);
      FirstWinsOccupant(blocks, init, i);
      assert init + [t] == trains;
      FirstClaimantSnoc(blocks, init, t, i);
      ClaimTargetSameIds(prev, blocks, t);
      FirstClaimantIsAClaimant(blocks, init, i);
    }
  }

  /** The initial population leaves in block `i` exactly the latest claimant. */
  lemma {:induction false} LastWinsOccupant(blocks: seq<Block>, trains: seq<Train>, i: nat)
    requires i < |blocks|
    ensures ClaimAll(Cleared(blocks), trains, LastWins)[i].occupiedBy == LastClaimant(blocks, trains, i)
  {
    if |trains| > 0 {
      var init := trains[..|trains| - 1];
      var prev := ClaimAll(Cleared(blocks), init, LastWins);
      LastWinsOccupant(blocks, init, i);
      ClaimTargetSameIds(prev, blocks, trains[|trains| - 1]);
    }
  }

  /** The earliest claimant is a train of the roster that claims the block,
      and no train before it does. */
  lemma {:induction false} FirstClaimantIsAClaimant(blocks: seq<Block>, trains: seq<Train>, i: nat)
    ensures FirstClaimant(blocks, trains, i).Some? <==> exists k :: 0 <= k < |trains| && Claims(blocks, trains[k], i)
    ensures FirstClaimant(blocks, trains, i).Some? ==>
      exists k :: 0 <= k < |trains| && Claims(blocks, trains[k], i) &&
                  trains[k].id == FirstClaimant(blocks, trains, i).value &&
                  forall j :: 0 <= j < k ==> !Claims(blocks, trains[j], i)
  {
    if |trains| > 0 && !Claims(blocks, trains[0], i) {
      var rest := trains[1..];
      FirstClaimantIsAClaimant(blocks, rest, i);
      if exists k :: 0 <= k < |trains| && Claims(blocks, trains[k], i) {
        var k :| 0 <= k < |trains| && Claims(blocks, trains[k], i);
        assert rest[k - 1] == trains[k];
      }
      if FirstClaimant(blocks, rest, i).Some? {
        var k :| 0 <= k < |rest| && Claims(blocks, rest[k], i) &&
                 rest[k].id == FirstClaimant(blocks, rest, i).value &&
                 forall j :: 0 <= j < k ==> !Claims(blocks, rest[j], i);
        assert trains[k + 1] == rest[k];
        forall j | 0 <= j < k + 1 ensures !Claims(blocks, trains[j], i) {
          if j > 0 { assert trains[j] == rest[j - 1]; }
        }
      }
    }
  }

  /** The latest claimant is a train of the roster that claims the block,
      and no train after it does. */
  lemma {:induction false} LastClaimantIsAClaimant(blocks: seq<Block>, trains: seq<Train>, i: nat)
    ensures LastClaimant(blocks, trains, i).Some? <==> exists k :: 0 <= k < |trains| && Claims(blocks, trains[k], i)
    ensures LastClaimant(blocks, trains, i).Some? ==>
      exists k :: 0 <= k < |trains| && Claims(blocks, trains[k], i) &&
                  trains[k].id == LastClaimant(blocks, trains, i).value &&
                  forall j :: k < j < |trains| ==> !Claims(blocks, trains[j], i)
  {
    var n := |trains|;
    if n > 0 && Claims(blocks, trains[n - 1], i) {
      assert LastClaimant(blocks, trains, i) == Some(trains[n - 1].id);
    } else if n > 0 {
      var init := trains[..n - 1];
      assert LastClaimant(blocks, trains, i) == LastClaimant(blocks, init, i);
      LastClaimantIsAClaimant(blocks, init, i);
      if exists k :: 0 <= k < n && Claims(blocks, trains[k], i) {
        var k :| 0 <= k < n && Claims(blocks, trains[k], i);
        assert init[k] == trains[k];
      }
      if LastClaimant(blocks, init, i).Some? {
        var k :| 0 <= k < |init| && Claims(blocks, init[k], i) &&
                 init[k].id == LastClaimant(blocks, init, i).value &&
                 forall j :: k < j < |init| ==> !Claims(blocks, init[j], i);
        assert trains[k] == init[k];
        forall j | k < j < n ensures !Claims(blocks, trains[j], i) {
          if j < n - 1 { assert trains[j] == init[j]; }
        }
      }
    }
  }

  /** Under either policy every occupant is the id of a train that claims
      that block. */
  lemma {:induction false} OccupantClaims(blocks: seq<Block>, trains: seq<Train>, policy: ClaimPolicy, i: nat)
    requires i < |blocks|
    ensures ClaimAll(Cleared(blocks), trains, policy)[i].occupiedBy.Some? ==>
      exists k :: 0 <= k < |trains| && Claims(blocks, trains[k], i) &&
                  trains[k].id == ClaimAll(Cleared(blocks), trains, policy)[i].occupiedBy.value
  {
    var n := |trains|;
    if n > 0 {
      var init := trains[..n - 1];
      var prev := ClaimAll(Cleared(blocks), init, policy);
      OccupantClaims(blocks, init, policy, i);
      ClaimTargetSameIds(prev, blocks, trains[n - 1]);
      if prev[i].occupiedBy.Some? {
        var k :| 0 <= k < |init| && Claims(blocks, init[k], i) && init[k].id == prev[i].occupiedBy.value;
        assert trains[k] == init[k];
      }
    }
  }

  /** With unique train ids, no train occupies two blocks. */
  lemma NoTrainInTwoBlocks(blocks: seq<Block>, trains: seq<Train>, policy: ClaimPolicy, i: nat, j: nat)
    requires UniqueIds(trains)
    requires i < |blocks| && j < |blocks|
    requires ClaimAll(Cleared(blocks), trains, policy)[i].occupiedBy.Some?
    requires ClaimAll(Cleared(blocks), trains, policy)[i].occupiedBy == ClaimAll(Cleared(blocks), trains, policy)[j].occupiedBy
    ensures i == j
  {
    OccupantClaims(blocks, trains, policy, i);
    OccupantClaims(blocks, trains, policy, j);
    var ki :| 0 <= ki < |trains| && Claims(blocks, trains[ki], i) &&
              trains[ki].id == ClaimAll(Cleared(blocks), trains, policy)[i].occupiedBy.value;
    var kj :| 0 <= kj < |trains| && Claims(blocks, trains[kj], j) &&
              trains[kj].id == ClaimAll(Cleared(blocks), trains, policy)[j].occupiedBy.value;
    assert ki == kj;
  }

  /** The recomputed state satisfies the occupancy invariant: whoever holds
      a block is a train of the roster whose `currentBlock` names it. */
  lemma RecomputeConsistent(blocks: seq<Block>, trains: seq<Train>, policy: ClaimPolicy)
    ensures OccupancyConsistent(trains, ClaimAll(Cleared(blocks), trains, policy))
  {
    var r := ClaimAll(Cleared(blocks), trains, policy);
    forall i | 0 <= i < |r| && r[i].occupiedBy.Some?
      ensures exists t :: t in trains && t.id == r[i].occupiedBy.value && t.currentBlock == Some(r[i].id)
    {
      OccupantClaims(blocks, trains, policy, i);
      var k :| 0 <= k < |trains| && Claims(blocks, trains[k], i) && trains[k].id == r[i].occupiedBy.value;
      assert trains[k] in trains;
    }
  }

  /** After a recompute over a relocated roster, whoever holds block `i`
      is a train whose position the block table maps to that block. */
  lemma OccupantIsPositioned(blocks: seq<Block>, trains: seq<Train>, policy: ClaimPolicy, i: nat)
    requires i < |blocks|
    ensures ClaimAll(Cleared(blocks), Relocated(trains), policy)[i].occupiedBy.Some? ==>
      exists k :: 0 <= k < |trains| && BlockFor(trains[k].position) == Some(blocks[i].id) &&
                  trains[k].id == ClaimAll(Cleared(blocks), Relocated(trains), policy)[i].occupiedBy.value
  {
    var moved := Relocated(trains);
    var r := ClaimAll(Cleared(blocks), moved, policy);
    if r[i].occupiedBy.Some? {
      OccupantClaims(blocks, moved, policy, i);
      var k :| 0 <= k < |moved| && Claims(blocks, moved[k], i) && moved[k].id == r[i].occupiedBy.value;
      assert moved[k].currentBlock == BlockFor(trains[k].position);
    }
  }

  // --------------------------------------------------------------- methods

  /** One pass of the loop body on the copied block array: find the first
      block named by the train's `currentBlock` and claim it under `policy`. */
  method ClaimInto(updated: array<Block>, t: Train, policy: ClaimPolicy)
    modifies updated
    ensures updated[..] == ClaimOne(old(updated[..]), t, policy)
  {
    var found := if t.currentBlock.Some? then IndexOfBlock(updated[..], t.currentBlock.value) else None;
    if found.Some? {
      var b := found.value;
      if policy == LastWins || !Truthy(updated[b].occupiedBy) {
        updated[b] := updated[b].(occupiedBy := Some(t.id));
      }
    }
  }

  /** The tick's step 3 and the initial population: copy the blocks with
      every occupant cleared, then walk the roster, set each train's
      `currentBlock` to its looked-up block and let it claim that block under
      `policy`. */
  method RecomputeOccupancy(trains: seq<Train>, blocks: seq<Block>, policy: ClaimPolicy)
    returns (newTrains: seq<Train>, newBlocks: seq<Block>)
    ensures newTrains == Relocated(trains)
    ensures newBlocks == ClaimAll(Cleared(blocks), newTrains, policy)
  {
    var updated := new Block[|blocks|](i requires 0 <= i < |blocks| => blocks[i].(occupiedBy := None));
    assert updated[..] == Cleared(blocks);
    newTrains := [];
    var k := 0;
    while k < |trains|
      invariant 0 <= k <= |trains| && |newTrains| == k
      invariant forall j :: 0 <= j < k ==> newTrains[j] == trains[j].(currentBlock := BlockFor(trains[j].position))
      invariant updated[..] == ClaimAll(Cleared(blocks), newTrains, policy)
    {
      var blockId := GetBlockIdForPosition(trains[k].position);
      var t := trains[k].(currentBlock := blockId);
      ClaimInto(updated, t, policy);
      assert (newTrains + [t])[..k] == newTrains;
      newTrains := newTrains + [t];
      k := k + 1;
    }
    newBlocks := updated[..];
  }
}
