/** The canned-answer dispatchers of the dashboard's AI panels
    (`runWhatIfScenario` and `getAiSuggestion` in hooks/useMockData.ts). */
module Advisor {
  import opened TwinTypes
  import opened Fixtures

  datatype WhatIf = WhatIf(projectedImpact: string, recommendedAction: string)

  datatype Suggestion = Suggestion(title: string, text: string)

  const TrainNotFound: string := "Train not found."
  const UnknownScenario: string := "Unknown scenario."

  /** A canned text around a train id: it starts as its fixed opening does,
      which is all the dispatch lemmas need to tell the answers apart. */
  function Framed(opening: string, trainId: string, closing: string): (s: string)
    requires |opening| > 0
    ensures |s| > 0 && s[0] == opening[0]
  {
    opening + trainId + closing
  }

  // The long fixed parts of the canned texts.
  const DelayImpactTail: string :=
    " will cause a cascading delay of ~7 mins to another train and conflict with a high-priority Express train."
  const DelayActionTail: string :=
    " via an alternate line and holding a lower priority train for 3 minutes to clear the junction."
  const FaultImpactTail: string :=
    " will occupy its block for an additional 18 minutes, halting all subsequent traffic on that line."
  const FaultActionTail: string :=
    " to the nearest maintenance siding (ETA 6 mins) to clear the main line."
  const DelayedTrainTail: string :=
    " has a significant delay. AI suggests increasing its priority to 1 for the next two blocks to recover 8 minutes from its schedule. This has a minimal impact on other low-priority services."
  const NominalTrainTail: string :=
    " is currently operating within expected parameters. No immediate action is required. Monitor for potential conflicts in block B2-B."
  const StationTail: string :=
    " shows high congestion in the next 30 minutes. AI recommends re-routing LCL-0442 to Platform 6 to reduce turnaround time by 4 minutes."
  const OccupiedBlockTail: string :=
    ". To improve flow, consider reducing speed for the next approaching train to create a larger gap, preventing a halt at the next signal."
  const ClearBlockTail: string :=
    " is currently clear. Throughput is nominal. No action required."

  function DelayImpact(trainId: string): string {
    Framed("Applying a 10 min delay to ", trainId, DelayImpactTail)
  }

  function DelayAction(trainId: string): string {
    "AI suggests rerouting " + trainId + DelayActionTail
  }

  function FaultImpact(trainId: string): string {
    Framed("A simulated engine fault on ", trainId, FaultImpactTail)
  }

  function FaultAction(trainId: string): string {
    "AI suggests immediately routing " + trainId + FaultActionTail
  }

  /** The what-if answer for one train and one disruption kind. */
  function RunWhatIfScenario(trains: seq<Train>, trainId: string, disruption: string): WhatIf {
    if FindTrain(trains, trainId).None? then WhatIf(TrainNotFound, "N/A")
    else if disruption == "delay_10" then WhatIf(DelayImpact(trainId), DelayAction(trainId))
    else if disruption == "engine_fault" then WhatIf(FaultImpact(trainId), FaultAction(trainId))
    else WhatIf(UnknownScenario, "No action available.")
  }

  /** `networkStations.find(s => s.id === id)`. */
  function FindStation(stations: seq<Station>, id: string): (r: Option<Station>)
    ensures r.Some? ==> r.value in stations && r.value.id == id
    ensures r.None? ==> forall s :: s in stations ==> s.id != id
    ensures r.Some? ==> exists k :: 0 <= k < |stations| && stations[k] == r.value &&
                                    forall j :: 0 <= j < k ==> stations[j].id != id
  {
    if |stations| == 0 then None
    else if stations[0].id == id then Some(stations[0])
    else
      var r := FindStation(stations[1..], id);
      assert r.Some? ==> exists k :: 0 <= k < |stations| && stations[k] == r.value &&
                                     forall j :: 0 <= j < k ==> stations[j].id != id by {
        if r.Some? {
          var k :| 0 <= k < |stations[1..]| && stations[1..][k] == r.value &&
                   forall j :: 0 <= j < k ==> stations[1..][j].id != id;
          assert stations[k + 1] == r.value;
          forall j | 0 <= j < k + 1 ensures stations[j].id != id {
            if j > 0 { assert stations[j] == stations[1..][j - 1]; }
          }
        }
      }
      r
  }

  /** `station?.name || id`: the station's name when it is a non-empty
      string, the raw id otherwise. */
  function StationLabel(id: string): string {
    match FindStation(Stations, id)
    case Some(s) => if s.name != "" then s.name else id
    case None => id
  }

  /** `blocks.find(b => b.id === id)?.occupiedBy`, when truthy. */
  function BlockOccupant(blocks: seq<Block>, id: string): Option<string> {
    match IndexOfBlock(blocks, id)
    case Some(k) => if Truthy(blocks[k].occupiedBy) then blocks[k].occupiedBy else None
    case None => None
  }

  function DelayedTrainText(id: string): string {
    "Train " + id + DelayedTrainTail
  }

  function NominalTrainText(id: string): string {
    "Train " + id + NominalTrainTail
  }

  function StationText(name: string): string {
    "Platform 4 at " + name + StationTail
  }

  function OccupiedBlockText(id: string, occupant: string): string {
    "Block " + id + " is currently occupied by " + occupant + OccupiedBlockTail
  }

  function ClearBlockText(id: string): string {
    "Block " + id + ClearBlockTail
  }

  const DefaultSuggestion: Suggestion :=
    Suggestion("AI Suggestion", "Select an element to receive a contextual suggestion.")

  /** The `'train'` case. */
  function TrainSuggestion(trains: seq<Train>, id: string): Suggestion {
    match FindTrain(trains, id)
    case None => Suggestion("Suggestion for Train", TrainNotFound)
    case Some(t) =>
      if t.delay > 10 then Suggestion("Optimize " + id, DelayedTrainText(id))
      else Suggestion("Monitor " + id, NominalTrainText(id))
  }

  /** The `'station'` case. */
  function StationSuggestion(id: string): Suggestion {
    var name := StationLabel(id);
    Suggestion("Optimize " + name, StationText(name))
  }

  /** The `'block'` case. */
  function BlockSuggestion(blocks: seq<Block>, id: string): Suggestion {
    match BlockOccupant(blocks, id)
    case Some(occupant) => Suggestion("Action for Block " + id, OccupiedBlockText(id, occupant))
    case None => Suggestion("Monitor Block " + id, ClearBlockText(id))
  }

  /** The suggestion shown for a selected train, station or block. */
  function GetAiSuggestion(trains: seq<Train>, blocks: seq<Block>, kind: string, id: string): Suggestion {
    if kind == "train" then TrainSuggestion(trains, id)
    else if kind == "station" then StationSuggestion(id)
    else if kind == "block" then BlockSuggestion(blocks, id)
    else DefaultSuggestion
  }

  // ---------------------------------------------------------------- lemmas

  /** Both projections open with 'A', so neither is one of the two one-line
      verdicts. */
  lemma ImpactsAreNotVerdicts(trainId: string)
    ensures DelayImpact(trainId) != TrainNotFound && DelayImpact(trainId) != UnknownScenario
    ensures FaultImpact(trainId) != TrainNotFound && FaultImpact(trainId) != UnknownScenario
  {
    assert DelayImpact(trainId)[0] == 'A';
    assert FaultImpact(trainId)[0] == 'A';
  }

  /** The train is looked up before the disruption is: an unknown train gets
      "Train not found." whatever the disruption, and only an unknown train
      does. */
  lemma WhatIfChecksTrainFirst(trains: seq<Train>, trainId: string, disruption: string)
    ensures RunWhatIfScenario(trains, trainId, disruption).projectedImpact == TrainNotFound <==>
            forall t :: t in trains ==> t.id != trainId
    ensures (forall t :: t in trains ==> t.id != trainId) ==>
            RunWhatIfScenario(trains, trainId, disruption) == WhatIf(TrainNotFound, "N/A")
  {
    ImpactsAreNotVerdicts(trainId);
  }

  /** For a known train, only the two scenario names get a projection; any
      other name gets "Unknown scenario.". */
  lemma WhatIfUnknownScenario(trains: seq<Train>, trainId: string, disruption: string)
    requires exists t :: t in trains && t.id == trainId
    ensures RunWhatIfScenario(trains, trainId, disruption).projectedImpact == UnknownScenario <==>
            disruption != "delay_10" && disruption != "engine_fault"
  {
    ImpactsAreNotVerdicts(trainId);
  }

  /** A train suggestion says "Optimize" only for a known train whose delay
      is strictly over 10 minutes. */
  lemma OptimizeOnlyWhenLate(trains: seq<Train>, blocks: seq<Block>, id: string)
    ensures GetAiSuggestion(trains, blocks, "train", id).title == "Optimize " + id ==>
            FindTrain(trains, id).Some? && FindTrain(trains, id).value.delay > 10
  {
    assert GetAiSuggestion(trains, blocks, "train", id) == TrainSuggestion(trains, id);
    OtherTrainTitles(id);
  }

  /** Neither of the other two train titles starts like "Optimize <id>". */
  lemma OtherTrainTitles(id: string)
    ensures "Monitor " + id != "Optimize " + id
    ensures "Suggestion for Train" != "Optimize " + id
  {
    assert ("Monitor " + id)[0] == 'M';
    assert ("Optimize " + id)[0] == 'O';
  }

  /** ... and it does say "Optimize" for every such train. */
  lemma LateTrainOptimized(trains: seq<Train>, blocks: seq<Block>, id: string)
    requires FindTrain(trains, id).Some? && FindTrain(trains, id).value.delay > 10
    ensures GetAiSuggestion(trains, blocks, "train", id).title == "Optimize " + id
  {
  }

  /** A block suggestion says "Monitor Block" exactly when the block is
      unknown or holds no (truthy) occupant. */
  lemma BlockSuggestionMonitors(trains: seq<Train>, blocks: seq<Block>, id: string)
    ensures GetAiSuggestion(trains, blocks, "block", id).title == "Monitor Block " + id <==>
            match IndexOfBlock(blocks, id)
            case None => true
            case Some(k) => !Truthy(blocks[k].occupiedBy)
  {
    var r := BlockSuggestion(blocks, id);
    assert GetAiSuggestion(trains, blocks, "block", id) == r;
    if BlockOccupant(blocks, id).Some? {
      assert r.title[0] != ("Monitor Block " + id)[0];
    }
  }

  /** Any other element type gets the default prompt. */
  lemma UnknownKindSuggestion(trains: seq<Train>, blocks: seq<Block>, kind: string, id: string)
    requires kind != "train" && kind != "station" && kind != "block"
    ensures GetAiSuggestion(trains, blocks, kind, id) == DefaultSuggestion
  {
  }

  /** A station suggestion is titled with the station's name for the three
      known station ids and with the raw id for any other. */
  lemma StationLabels(id: string)
    ensures StationLabel(id) ==
      if id == "ST-KNP" then "Kanpur"
      else if id == "ST-ALJ" then "Aligarh"
      else if id == "ST-DLI" then "Delhi"
      else id
  {
    assert Stations[1..][1..][1..] == [];
  }
}
