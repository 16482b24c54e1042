/** Records of the traffic digital twin: trains, signals, blocks, alerts,
    log entries and KPI cards (types.ts). */
module TwinTypes {

  /** A JavaScript `T | null` (or an optional property). */
  datatype Option<+T> = None | Some(value: T)

  /** A point on the schematic map. The source uses JavaScript numbers; all
      coordinates are exact here because every move is a multiple of 1/4. */
  datatype Point = Point(x: real, y: real)

  datatype TrainType = Express | Freight | Local | Maintenance

  datatype TrainStatus = OnTime | Delayed | Halted | Approaching

  datatype SignalState = Green | Red | Yellow

  datatype LogType = AI | System | Alert | Info

  datatype Trend = Up | Down | Stable

  /** A fixed track segment; `occupiedBy` is the id of the train in it. */
  datatype Block = Block(id: string, occupiedBy: Option<string>)

  /** The display-only fields `schedule` and `passengerImpact` are not
      carried: no operation of the model reads or writes them. */
  datatype Train = Train(
    id: string,
    kind: TrainType,
    priority: int,
    speed: int,
    position: Point,
    path: seq<Point>,
    currentPathIndex: nat,
    status: TrainStatus,
    delay: int,
    nextStation: string,
    eta: string,
    currentBlock: Option<string>)

  datatype Signal = Signal(id: string, state: SignalState, position: Point, protectsBlock: string)

  datatype Alert = Alert(id: int, title: string, message: string, timestamp: string, xai: Option<string>)

  datatype LogEntry = LogEntry(id: int, kind: LogType, message: string, timestamp: string)

  datatype Kpi = Kpi(value: real, trend: Trend)

  datatype KpiData = KpiData(sectionThroughput: Kpi, punctuality: Kpi, avgDelay: Kpi, trackUtilization: Kpi)

  /** JavaScript truthiness of a `string | null`: null and "" are falsy. */
  predicate Truthy(s: Option<string>) {
    s.Some? && s.value != ""
  }

  /** The first block with the given id, as `blocks.find(b => b.id === id)`
      gives it, by index. */
  function IndexOfBlock(blocks: seq<Block>, id: string): (r: Option<nat>)
    ensures r.Some? ==> r.value < |blocks| && blocks[r.value].id == id
    ensures r.Some? ==> forall j :: 0 <= j < r.value ==> blocks[j].id != id
    ensures r.None? ==> forall j :: 0 <= j < |blocks| ==> blocks[j].id != id
  {
    if |blocks| == 0 then None
    else if blocks[0].id == id then Some(0)
    else match IndexOfBlock(blocks[1..], id)
      case None => None
      case Some(k) => Some(k + 1)
  }

  /** The first train with the given id, as `trains.find(t => t.id === id)`. */
  function FindTrain(trains: seq<Train>, id: string): (r: Option<Train>)
    ensures r.Some? ==> r.value in trains && r.value.id == id
    ensures r.None? ==> forall t :: t in trains ==> t.id != id
    ensures r.Some? ==> exists k :: 0 <= k < |trains| && trains[k] == r.value &&
                                    forall j :: 0 <= j < k ==> trains[j].id != id
  {
    if |trains| == 0 then None
    else if trains[0].id == id then Some(trains[0])
    else
      var r := FindTrain(trains[1..], id);
      assert r.Some? ==> exists k :: 0 <= k < |trains| && trains[k] == r.value &&
                                     forall j :: 0 <= j < k ==> trains[j].id != id by {
        if r.Some? {
          var k :| 0 <= k < |trains[1..]| && trains[1..][k] == r.value &&
                   forall j :: 0 <= j < k ==> trains[1..][j].id != id;
          assert trains[k + 1] == r.value;
          forall j | 0 <= j < k + 1 ensures trains[j].id != id {
            if j > 0 { assert trains[j] == trains[1..][j - 1]; }
          }
        }
      }
      r
  }

  /** Two block lists with the same ids in the same order. */
  predicate SameIds(a: seq<Block>, b: seq<Block>) {
    |a| == |b| && forall i :: 0 <= i < |a| ==> a[i].id == b[i].id
  }

  /** `find` by id sees only the ids, so relabelling occupants leaves it alone. */
  lemma {:induction false} IndexOfBlockSameIds(a: seq<Block>, b: seq<Block>, id: string)
    requires SameIds(a, b)
    ensures IndexOfBlock(a, id) == IndexOfBlock(b, id)
  {
    if |a| > 0 && a[0].id != id {
      IndexOfBlockSameIds(a[1..], b[1..], id);
    }
  }
}
