/** The simulated traffic digital twin (the state and callbacks of
    `useMockData` in hooks/useMockData.ts): the roster, signals, blocks and
    KPI cards of the active region, the bounded alert and log queues with
    their id counters, and the latch that keeps the MNT-007 hold alert from
    firing twice. */
module Twin {
  import opened TwinTypes
  import opened Occupancy
  import opened Movement
  import opened Fixtures
  import opened Punctuality

  const MaxLogs: nat := 100
  const MaxAlerts: nat := 5

  /** The train whose halt raises the canned hold alert. */
  const HoldTrainId: string := "MNT-007"
  const HoldTitle: string := "AI Action: Hold MNT-007"
  const HoldMessage: string := "Holding Maintenance train at Signal S3-DLI due to occupied block ahead."
  const HoldXai: string := "Conflict detected at Aligarh junction. LCL-0442 (Priority 2, 1200 passengers) currently occupies block B3-B. Holding MNT-007 (Priority 4) minimizes passenger delay and adheres to safety protocols."

  /** `[x, ...s.slice(0, cap - 1)]`: the new entry in front, then the newest
      `cap - 1` older entries; the oldest ones drop off the end. */
  function Capped<T>(x: T, s: seq<T>, cap: nat): (r: seq<T>)
    requires cap > 0
    ensures |r| == if |s| < cap then |s| + 1 else cap
    ensures r[0] == x
    ensures r[1..] == s[..|r| - 1]
  {
    [x] + s[..if |s| < cap - 1 then |s| else cap - 1]
  }

  function LogIds(logs: seq<LogEntry>): (r: seq<int>)
    ensures |r| == |logs| && forall i :: 0 <= i < |logs| ==> r[i] == logs[i].id
  {
    seq(|logs|, i requires 0 <= i < |logs| => logs[i].id)
  }

  function AlertIds(alerts: seq<Alert>): (r: seq<int>)
    ensures |r| == |alerts| && forall i :: 0 <= i < |alerts| ==> r[i] == alerts[i].id
  {
    seq(|alerts|, i requires 0 <= i < |alerts| => alerts[i].id)
  }

  /** Ids strictly decreasing from the head (newest first), all below the
      next id the counter will hand out. */
  predicate NewestFirst(ids: seq<int>, next: int) {
    (forall i, j :: 0 <= i < j < |ids| ==> ids[i] > ids[j]) &&
    (forall i :: 0 <= i < |ids| ==> ids[i] < next)
  }

  /** Handing out `next` and pushing it in front keeps the queue newest
      first, with the counter moved on by one. */
  lemma {:induction false} CappedNewestFirst(ids: seq<int>, next: int, cap: nat)
    requires cap > 0
    requires NewestFirst(ids, next)
    ensures NewestFirst(Capped(next, ids, cap), next + 1)
  {
    var r := Capped(next, ids, cap);
    forall i, j | 0 <= i < j < |r| ensures r[i] > r[j] {
      assert r[j] == r[1..][j - 1] == ids[j - 1];
      if i > 0 { assert r[i] == r[1..][i - 1] == ids[i - 1]; }
    }
    forall i | 0 <= i < |r| ensures r[i] < next + 1 {
      if i > 0 { assert r[i] == r[1..][i - 1] == ids[i - 1]; }
    }
  }

  lemma LogIdsCapped(e: LogEntry, logs: seq<LogEntry>, cap: nat)
    requires cap > 0
    ensures LogIds(Capped(e, logs, cap)) == Capped(e.id, LogIds(logs), cap)
  {
    var a := Capped(e, logs, cap);
    var b := Capped(e.id, LogIds(logs), cap);
    forall i | 0 <= i < |a| ensures LogIds(a)[i] == b[i] {
      if i > 0 { assert a[i] == a[1..][i - 1]; assert b[i] == b[1..][i - 1]; }
    }
  }

  lemma AlertIdsCapped(e: Alert, alerts: seq<Alert>, cap: nat)
    requires cap > 0
    ensures AlertIds(Capped(e, alerts, cap)) == Capped(e.id, AlertIds(alerts), cap)
  {
    var a := Capped(e, alerts, cap);
    var b := Capped(e.id, AlertIds(alerts), cap);
    forall i | 0 <= i < |a| ensures AlertIds(a)[i] == b[i] {
      if i > 0 { assert a[i] == a[1..][i - 1]; assert b[i] == b[1..][i - 1]; }
    }
  }

  /** The tick's step 4 condition: MNT-007 is in the roster, halted, and the
      latch has not recorded it yet. */
  predicate HoldFires(latch: set<string>, trains: seq<Train>) {
    HoldTrainId !in latch && FindTrain(trains, HoldTrainId).Some? &&
    FindTrain(trains, HoldTrainId).value.status == Halted
  }

  /** Once latched, the hold alert cannot fire again until the latch is
      cleared, whatever the roster. */
  lemma LatchedHoldIsSilent(latch: set<string>, trains: seq<Train>)
    requires HoldTrainId in latch
    ensures !HoldFires(latch, trains)
  {
  }

  class DigitalTwin {
    var activeRegion: string
    var trains: seq<Train>
    var signals: seq<Signal>
    var blocks: seq<Block>
    var kpis: KpiData
    var alerts: seq<Alert>
    var logs: seq<LogEntry>
    /** The `aiDecisionMade` set of train ids already acted on. */
    var aiDecisionMade: set<string>
    /** The module-level counters: the id the next alert and log will get. */
    var alertId: int
    var logId: int

    /** Queues within their caps, newest first with ids below the counters,
        the latch holding at most MNT-007, and every occupant a train whose
        `currentBlock` names its block. */
    ghost predicate Valid()
      reads this
    {
      |logs| <= MaxLogs && |alerts| <= MaxAlerts &&
      NewestFirst(LogIds(logs), logId) && NewestFirst(AlertIds(alerts), alertId) &&
      aiDecisionMade <= {HoldTrainId} &&
      OccupancyConsistent(trains, blocks)
    }

    /** The region's network as the dashboard shows it. */
    ghost function Network(): (string, seq<Train>, seq<Signal>, seq<Block>, KpiData)
      reads this
    {
      (activeRegion, trains, signals, blocks, kpis)
    }

    /** The hook's initial state: Delhi Division, no alerts, no logs, both
        counters at 1. */
    constructor ()
      ensures Valid()
      ensures activeRegion == DelhiDivision
      ensures trains == DelhiTrains && signals == DelhiSignals && blocks == EmptyBlocks() && kpis == DelhiKpis
      ensures alerts == [] && logs == [] && aiDecisionMade == {}
      ensures alertId == 1 && logId == 1
    {
      activeRegion := DelhiDivision;
      trains := DelhiTrains;
      signals := DelhiSignals;
      blocks := EmptyBlocks();
      kpis := DelhiKpis;
      alerts := [];
      logs := [];
      aiDecisionMade := {};
      alertId := 1;
      logId := 1;
    }

    /** `addLog`: the entry gets the current log id, goes in front, and at most
        100 entries are kept. */
    method AddLog(kind: LogType, message: string, now: string)
      requires Valid()
      modifies this
      ensures Valid()
      ensures logs == Capped(LogEntry(old(logId), kind, message, now), old(logs), MaxLogs)
      ensures logId == old(logId) + 1
      ensures alerts == old(alerts) && alertId == old(alertId) && aiDecisionMade == old(aiDecisionMade)
      ensures Network() == old(Network())
    {
      var entry := LogEntry(logId, kind, message, now);
      LogIdsCapped(entry, logs, MaxLogs);
      CappedNewestFirst(LogIds(logs), logId, MaxLogs);
      logs := Capped(entry, logs, MaxLogs);
      logId := logId + 1;
    }

    /** `addAlert`: the alert gets the current alert id, goes in front, at
        most 5 are kept, and one Alert log `title: message` is added. */
    method AddAlert(title: string, message: string, xai: Option<string>, now: string)
      requires Valid()
      modifies this
      ensures Valid()
      ensures alerts == Capped(Alert.Alert(old(alertId), title, message, now, xai), old(alerts), MaxAlerts)
      ensures alertId == old(alertId) + 1
      ensures logs == Capped(LogEntry(old(logId), LogType.Alert, title + ": " + message, now), old(logs), MaxLogs)
      ensures logId == old(logId) + 1
      ensures aiDecisionMade == old(aiDecisionMade)
      ensures Network() == old(Network())
    {
      var alert := Alert.Alert(alertId, title, message, now, xai);
      AlertIdsCapped(alert, alerts, MaxAlerts);
      CappedNewestFirst(AlertIds(alerts), alertId, MaxAlerts);
      alerts := Capped(alert, alerts, MaxAlerts);
      alertId := alertId + 1;
      AddLog(LogType.Alert, title + ": " + message, now);
    }

    /** `selectRegion`: an unknown region changes nothing at all; a known one
        logs the switch, reloads that region's network, empties the alerts
        and clears the latch, keeping the earlier logs. */
    method SelectRegion(region: string, now: string)
      requires Valid()
      modifies this
      ensures Valid()
      ensures NetworkData(region).None? ==> unchanged(this)
      ensures NetworkData(region).Some? ==>
        var d := NetworkData(region).value;
        Network() == (region, d.trains, d.signals, d.blocks, d.kpis) &&
        alerts == [] && aiDecisionMade == {} && alertId == old(alertId) &&
        logs == Capped(LogEntry(old(logId), System, "Controller view switched to " + region + ".", now),
                       old(logs), MaxLogs) &&
        logId == old(logId) + 1
    {
      match NetworkData(region)
      case None =>
      case Some(d) =>
        RegionBlocksConsistent(region);
        ghost var network := (region, d.trains, d.signals, d.blocks, d.kpis);
        AddLog(System, "Controller view switched to " + region + ".", now);
        activeRegion := region;
        trains := d.trains;
        signals := d.signals;
        blocks := d.blocks;
        kpis := d.kpis;
        alerts := [];
        aiDecisionMade := {};
        assert Network() == network;
    }

    /** The effect run whenever the active region changes (and on mount):
        occupancy is rebuilt from positions with the last claimant winning,
        every train's `currentBlock` is set, and the start-up is logged. */
    method RegionActivated(now: string)
      requires Valid()
      modifies this
      ensures Valid()
      ensures trains == Relocated(old(trains))
      ensures blocks == ClaimAll(Cleared(old(blocks)), trains, LastWins)
      ensures forall i :: 0 <= i < |blocks| ==> blocks[i].occupiedBy == LastClaimant(old(blocks), trains, i)
      ensures logs == Capped(LogEntry(old(logId), System,
                               "Digital Twin initialized for " + activeRegion + ". Block system active.", now),
                             old(logs), MaxLogs)
      ensures logId == old(logId) + 1
      ensures activeRegion == old(activeRegion) && signals == old(signals) && kpis == old(kpis)
      ensures alerts == old(alerts) && alertId == old(alertId) && aiDecisionMade == old(aiDecisionMade)
    {
      var ts, bs := RecomputeOccupancy(trains, blocks, LastWins);
      forall i | 0 <= i < |bs| ensures bs[i].occupiedBy == LastClaimant(blocks, ts, i) {
        LastWinsOccupant(blocks, ts, i);
      }
      RecomputeConsistent(blocks, ts, LastWins);
      trains, blocks := ts, bs;
      AddLog(System, "Digital Twin initialized for " + activeRegion + ". Block system active.", now);
    }

    /** Steps 1 to 3 of a tick: signals from the current occupancy, trains
        stepped against those signals, occupancy recomputed with the first
        claimant winning. */
    method Advance()
      requires Valid()
      modifies this
      ensures Valid()
      ensures signals == RefreshSignals(old(signals), old(blocks))
      ensures trains == Relocated(StepAll(old(trains), signals))
      ensures blocks == ClaimAll(Cleared(old(blocks)), trains, FirstWins)
      ensures activeRegion == old(activeRegion) && kpis == old(kpis)
      ensures alerts == old(alerts) && logs == old(logs) && alertId == old(alertId) && logId == old(logId)
      ensures aiDecisionMade == old(aiDecisionMade)
    {
      signals := RefreshSignals(signals, blocks);
      var stepped := StepAll(trains, signals);
      var ts, bs := RecomputeOccupancy(stepped, blocks, FirstWins);
      RecomputeConsistent(blocks, ts, FirstWins);
      trains, blocks := ts, bs;
    }

    /** Step 4 of a tick: raise the hold alert for a halted MNT-007 once,
        and latch it. */
    method CheckHold(now: string)
      requires Valid()
      modifies this
      ensures Valid()
      ensures HoldFires(old(aiDecisionMade), trains) ==>
        alerts == Capped(Alert.Alert(old(alertId), HoldTitle, HoldMessage, now, Some(HoldXai)), old(alerts), MaxAlerts) &&
        logs == Capped(LogEntry(old(logId), LogType.Alert, HoldTitle + ": " + HoldMessage, now), old(logs), MaxLogs) &&
        alertId == old(alertId) + 1 && logId == old(logId) + 1 &&
        aiDecisionMade == old(aiDecisionMade) + {HoldTrainId}
      ensures !HoldFires(old(aiDecisionMade), trains) ==> unchanged(this)
      ensures Network() == old(Network())
    {
      var holdTrain := FindTrain(trains, HoldTrainId);
      if HoldTrainId !in aiDecisionMade && holdTrain.Some? && holdTrain.value.status == Halted {
        AddAlert(HoldTitle, HoldMessage, Some(HoldXai), now);
        aiDecisionMade := aiDecisionMade + {HoldTrainId};
      }
    }

    /** One interval of the simulation, steps 1 to 4 in order, then the
        punctuality refresh when the 5-second throttle has let it through
        (`kpiDue`). */
    method Tick(kpiDue: bool, now: string)
      requires Valid()
      modifies this
      ensures Valid()
      // 1. signals from the occupancy the previous tick left
      ensures signals == RefreshSignals(old(signals), old(blocks))
      // 2. and 3. trains stepped, then relocated; blocks recomputed, first claimant wins
      ensures trains == Relocated(StepAll(old(trains), signals))
      ensures blocks == ClaimAll(Cleared(old(blocks)), trains, FirstWins)
      // 4. the one-shot hold alert
      ensures HoldFires(old(aiDecisionMade), trains) ==>
        alerts == Capped(Alert.Alert(old(alertId), HoldTitle, HoldMessage, now, Some(HoldXai)), old(alerts), MaxAlerts) &&
        logs == Capped(LogEntry(old(logId), LogType.Alert, HoldTitle + ": " + HoldMessage, now), old(logs), MaxLogs) &&
        alertId == old(alertId) + 1 && logId == old(logId) + 1 &&
        aiDecisionMade == old(aiDecisionMade) + {HoldTrainId}
      ensures !HoldFires(old(aiDecisionMade), trains) ==>
        alerts == old(alerts) && logs == old(logs) && alertId == old(alertId) && logId == old(logId) &&
        aiDecisionMade == old(aiDecisionMade)
      // 5. punctuality from the roster as it was before the tick
      ensures kpis == if kpiDue then RefreshPunctuality(old(kpis), old(trains)) else old(kpis)
      ensures activeRegion == old(activeRegion)
    {
      var before := trains;
      Advance();
      ghost var stepped, refreshed := trains, signals;
      CheckHold(now);
      assert trains == stepped && signals == refreshed;
      if kpiDue {
        kpis := RefreshPunctuality(kpis, before);
      }
    }
  }
}
