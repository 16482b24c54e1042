/** Steps 1 and 2 of the simulation tick (hooks/useMockData.ts): signals
    refreshed from block occupancy, then every train stepped along its path. */
module Movement {
  import opened TwinTypes
  import opened Occupancy

  // ------------------------------------------------------- signal refresh

  /** `blocks.find(b => b.id === id)?.occupiedBy` is truthy. */
  predicate ProtectedOccupied(blocks: seq<Block>, id: string) {
    match IndexOfBlock(blocks, id)
    case None => false
    case Some(k) => Truthy(blocks[k].occupiedBy)
  }

  /** Step 1: each signal turns red when its protected block is held and
      green otherwise; nothing else about the signal changes. */
  function RefreshSignals(signals: seq<Signal>, blocks: seq<Block>): (r: seq<Signal>)
    ensures |r| == |signals|
    ensures forall i :: 0 <= i < |r| ==>
      r[i].id == signals[i].id && r[i].position == signals[i].position &&
      r[i].protectsBlock == signals[i].protectsBlock
    ensures forall i :: 0 <= i < |r| ==> r[i].state != Yellow
    ensures forall i :: 0 <= i < |r| ==> (r[i].state == Red <==> ProtectedOccupied(blocks, signals[i].protectsBlock))
  {
    seq(|signals|, i requires 0 <= i < |signals| =>
      signals[i].(state := if ProtectedOccupied(blocks, signals[i].protectsBlock) then Red else Green))
  }

  /** Combined with the tick's recompute: a signal shows red exactly when
      some train of the roster claims the first block with the protected id. */
  lemma SignalRedIffClaimed(signals: seq<Signal>, blocks: seq<Block>, trains: seq<Train>, i: nat)
    requires i < |signals|
    requires NonEmptyIds(trains)
    ensures var r := RefreshSignals(signals, ClaimAll(Cleared(blocks), trains, FirstWins));
      r[i].state == Red <==>
      exists b :: IndexOfBlock(blocks, signals[i].protectsBlock) == Some(b) &&
                  exists k :: 0 <= k < |trains| && Claims(blocks, trains[k], b)
  {
    var held := ClaimAll(Cleared(blocks), trains, FirstWins);
    var id := signals[i].protectsBlock;
    IndexOfBlockSameIds(held, Cleared(blocks), id);
    IndexOfBlockSameIds(Cleared(blocks), blocks, id);
    match IndexOfBlock(blocks, id)
    case None =>
    case Some(b) =>
      FirstWinsOccupant(blocks, trains, b);
      FirstClaimantIsAClaimant(blocks, trains, b);
      if FirstClaimant(blocks, trains, b).Some? {
        var k :| 0 <= k < |trains| && Claims(blocks, trains[k], b) &&
                 trains[k].id == FirstClaimant(blocks, trains, b).value &&
                 forall j :: 0 <= j < k ==> !Claims(blocks, trains[j], b);
        assert trains[k].id != "";
      }
  }

  // ----------------------------------------------------------- train step

  function Abs(x: real): real {
    if x < 0.0 then -x else x
  }

  /** The waypoint a train is heading for, if its path has one left. */
  function Target(t: Train): Option<Point> {
    if t.currentPathIndex + 1 < |t.path| then Some(t.path[t.currentPathIndex + 1]) else None
  }

  /** +1 when the target lies strictly to the right, -1 otherwise. */
  function Direction(t: Train, target: Point): int {
    if target.x > t.position.x then 1 else -1
  }

  /** A signal on the train's line, strictly ahead of it in its direction of
      travel and less than 50 units away. */
  predicate IsAhead(s: Signal, t: Train, dir: int) {
    s.position.y == t.position.y &&
    if dir > 0 then s.position.x > t.position.x && s.position.x - t.position.x < 50.0
    else s.position.x < t.position.x && t.position.x - s.position.x < 50.0
  }

  /** The first signal of the list that is ahead (`currentSignals.find`). */
  function SignalAhead(signals: seq<Signal>, t: Train, dir: int): (r: Option<Signal>)
    ensures r.Some? ==> r.value in signals && IsAhead(r.value, t, dir)
    ensures r.None? ==> forall s :: s in signals ==> !IsAhead(s, t, dir)
    ensures r.Some? ==> exists k :: 0 <= k < |signals| && signals[k] == r.value &&
                                    forall j :: 0 <= j < k ==> !IsAhead(signals[j], t, dir)
  {
    if |signals| == 0 then None
    else if IsAhead(signals[0], t, dir) then Some(signals[0])
    else
      var r := SignalAhead(signals[1..], t, dir);
      assert r.Some? ==> exists k :: 0 <= k < |signals| && signals[k] == r.value &&
                                     forall j :: 0 <= j < k ==> !IsAhead(signals[j], t, dir) by {
        if r.Some? {
          var k :| 0 <= k < |signals[1..]| && signals[1..][k] == r.value &&
                   forall j :: 0 <= j < k ==> !IsAhead(signals[1..][j], t, dir);
          assert signals[k + 1] == r.value;
          forall j | 0 <= j < k + 1 ensures !IsAhead(signals[j], t, dir) {
            if j > 0 { assert signals[j] == signals[1..][j - 1]; }
          }
        }
      }
      r
  }

  /** The first signal ahead is red and the train is within 20 units of it. */
  predicate MustHalt(signals: seq<Signal>, t: Train, dir: int) {
    match SignalAhead(signals, t, dir)
    case None => false
    case Some(s) => s.state == Red && Abs(t.position.x - s.position.x) < 20.0
  }

  /** Within 5 units (horizontally) of the target waypoint. */
  predicate Arrived(t: Train, target: Point) {
    Abs(target.x - t.position.x) < 5.0
  }

  /** The status a moving train is given: halted at a red signal, otherwise
      delayed or on time according to its delay. */
  function StatusFor(signals: seq<Signal>, t: Train, dir: int): TrainStatus {
    if MustHalt(signals, t, dir) then Halted else if t.delay > 0 then Delayed else OnTime
  }

  /** One train's step of the tick (the body of `prevTrains.map`). */
  function StepTrain(t: Train, signals: seq<Signal>): (r: Train)
    ensures r == t.(speed := r.speed, status := r.status, position := r.position,
                    currentPathIndex := r.currentPathIndex)
    ensures r.position.y == t.position.y
    ensures r.currentPathIndex == t.currentPathIndex || r.currentPathIndex == t.currentPathIndex + 1
    ensures r.speed == t.speed || r.speed == 0
  {
    match Target(t)
    case None => t.(speed := 0)
    case Some(target) =>
      var dir := Direction(t, target);
      var speed := if MustHalt(signals, t, dir) then 0 else t.speed;
      if Arrived(t, target) then t.(currentPathIndex := t.currentPathIndex + 1)
      else t.(speed := speed, status := StatusFor(signals, t, dir),
              position := Point(t.position.x + dir as real * (speed as real / 20.0), t.position.y))
  }

  /** Step 2 for the whole roster; length and order are kept. */
  function StepAll(trains: seq<Train>, signals: seq<Signal>): (r: seq<Train>)
    ensures |r| == |trains|
    ensures forall k :: 0 <= k < |r| ==> r[k] == StepTrain(trains[k], signals)
  {
    seq(|trains|, k requires 0 <= k < |trains| => StepTrain(trains[k], signals))
  }

  /** A train with no waypoint left only has its speed set to 0. */
  lemma StepAtPathEnd(t: Train, signals: seq<Signal>)
    requires t.currentPathIndex + 1 >= |t.path|
    ensures StepTrain(t, signals) == t.(speed := 0)
  {
  }

  /** Within 5 units of the target only the path index moves on; position,
      speed and status are left as they were. */
  lemma StepAtWaypoint(t: Train, signals: seq<Signal>)
    requires Target(t).Some? && Arrived(t, Target(t).value)
    ensures StepTrain(t, signals) == t.(currentPathIndex := t.currentPathIndex + 1)
  {
  }

  /** Away from the target: the train halts (speed 0, status Halted) exactly
      when the first signal ahead is red and under 20 units away, is otherwise
      Delayed or OnTime by its delay, and moves along x by direction * speed/20. */
  lemma StepMoving(t: Train, signals: seq<Signal>)
    requires Target(t).Some? && !Arrived(t, Target(t).value)
    ensures var r := StepTrain(t, signals);
      var dir := Direction(t, Target(t).value);
      (r.status == Halted <==> MustHalt(signals, t, dir)) &&
      (r.status == Delayed <==> !MustHalt(signals, t, dir) && t.delay > 0) &&
      (r.status == OnTime <==> !MustHalt(signals, t, dir) && t.delay <= 0) &&
      r.speed == (if MustHalt(signals, t, dir) then 0 else t.speed) &&
      r.position == Point(t.position.x + dir as real * (r.speed as real / 20.0), t.position.y) &&
      r.currentPathIndex == t.currentPathIndex
  {
  }

  /** The speed is never restored: a train whose speed is 0 (for instance
      after halting at a red signal) never moves again. */
  lemma StoppedTrainStaysPut(t: Train, signals: seq<Signal>)
    requires t.speed == 0
    ensures StepTrain(t, signals).speed == 0
    ensures StepTrain(t, signals).position == t.position
  {
  }

  /** A train that is not held and moves less than 10 units per tick either
      gets strictly closer to its target or ends within the 5-unit tolerance,
      so it reaches the waypoint after finitely many steps. */
  lemma StepApproachesTarget(t: Train, signals: seq<Signal>)
    requires Target(t).Some? && !Arrived(t, Target(t).value)
    requires !MustHalt(signals, t, Direction(t, Target(t).value))
    requires 0 < t.speed < 200
    ensures var r := StepTrain(t, signals);
      var target := Target(t).value;
      Abs(target.x - r.position.x) < Abs(target.x - t.position.x) &&
      (Abs(target.x - r.position.x) < 5.0 ||
       Abs(target.x - r.position.x) <= Abs(target.x - t.position.x) - t.speed as real / 20.0)
  {
    var target := Target(t).value;
    var m := t.speed as real / 20.0;
    assert 0.0 < m < 10.0;
    var r := StepTrain(t, signals);
    StepMoving(t, signals);
    if target.x > t.position.x {
      assert r.position.x == t.position.x + m;
    } else {
      assert r.position.x == t.position.x - m;
    }
  }
}
