/** The static network data of the two regions and the station list
    (`networkData` and `networkStations` in hooks/useMockData.ts). */
module Fixtures {
  import opened TwinTypes
  import opened BlockMap
  import opened Occupancy

  datatype Station = Station(id: string, name: string, position: Point)

  datatype RegionData = RegionData(trains: seq<Train>, signals: seq<Signal>, blocks: seq<Block>, kpis: KpiData)

  const Stations: seq<Station> := [
    Station("ST-KNP", "Kanpur", Point(50.0, 50.0)),
    Station("ST-ALJ", "Aligarh", Point(450.0, 50.0)),
    Station("ST-DLI", "Delhi", Point(850.0, 50.0))
  ]

  /** One unoccupied block per table entry, in table order. */
  function EmptyBlocks(): (r: seq<Block>)
    ensures |r| == |BlockTable|
    ensures forall i :: 0 <= i < |r| ==> r[i] == Block(BlockTable[i].id, None)
  {
    seq(|BlockTable|, i requires 0 <= i < |BlockTable| => Block(BlockTable[i].id, None))
  }

  const DelhiTrains: seq<Train> := [
    Train("RJD-12416", Express, 1, 110, Point(50.0, 100.0),
          [Point(50.0, 100.0), Point(450.0, 100.0), Point(850.0, 100.0)], 0, OnTime, 0, "Delhi", "10:30", Some("B1-A")),
    Train("FRT-8805", Freight, 3, 60, Point(50.0, 200.0),
          [Point(50.0, 200.0), Point(850.0, 200.0)], 0, OnTime, 0, "Ghaziabad", "11:15", Some("B2-A")),
    Train("LCL-0442", Local, 2, 75, Point(850.0, 300.0),
          [Point(850.0, 300.0), Point(450.0, 300.0), Point(50.0, 300.0)], 0, Delayed, 10, "Kanpur", "10:55", Some("B3-B")),
    Train("MNT-007", Maintenance, 4, 40, Point(50.0, 300.0),
          [Point(50.0, 300.0), Point(850.0, 300.0)], 0, OnTime, 0, "Aligarh Yard", "11:00", Some("B3-A"))
  ]

  const DelhiSignals: seq<Signal> := [
    Signal("S1-DLI", Green, Point(400.0, 100.0), "B1-B"),
    Signal("S2-DLI", Green, Point(400.0, 200.0), "B2-B"),
    Signal("S3-DLI", Green, Point(400.0, 300.0), "B3-B")
  ]

  const DelhiKpis: KpiData := KpiData(Kpi(12.0, Stable), Kpi(75.0, Stable), Kpi(2.5, Stable), Kpi(76.1, Stable))

  const MumbaiTrains: seq<Train> := [
    Train("CSTM-DR", Local, 1, 80, Point(50.0, 100.0),
          [Point(50.0, 100.0), Point(850.0, 100.0)], 0, OnTime, 0, "Dadar", "14:20", Some("B1-A")),
    Train("DE-ADI", Express, 2, 120, Point(850.0, 200.0),
          [Point(850.0, 200.0), Point(50.0, 200.0)], 0, OnTime, 0, "Ahmedabad", "14:45", Some("B2-B")),
    Train("FRT-9102", Freight, 3, 55, Point(50.0, 300.0),
          [Point(50.0, 300.0), Point(850.0, 300.0)], 0, Delayed, 15, "JNPT", "15:00", Some("B3-A"))
  ]

  const MumbaiSignals: seq<Signal> := [
    Signal("S1-MUM", Green, Point(400.0, 100.0), "B1-B"),
    Signal("S2-MUM", Green, Point(400.0, 200.0), "B2-B"),
    Signal("S3-MUM", Green, Point(400.0, 300.0), "B3-B")
  ]

  const MumbaiKpis: KpiData := KpiData(Kpi(18.0, Up), Kpi(89.5, Up), Kpi(1.2, Down), Kpi(88.4, Up))

  const DelhiDivision: string := "Delhi Division"
  const MumbaiDivision: string := "Mumbai Division"

  /** `networkData[region]`: the two known regions, nothing for any other key. */
  function NetworkData(region: string): (r: Option<RegionData>)
    ensures r.Some? <==> region == DelhiDivision || region == MumbaiDivision
    ensures r.Some? ==> r.value.blocks == EmptyBlocks()
  {
    if region == DelhiDivision then Some(RegionData(DelhiTrains, DelhiSignals, EmptyBlocks(), DelhiKpis))
    else if region == MumbaiDivision then Some(RegionData(MumbaiTrains, MumbaiSignals, EmptyBlocks(), MumbaiKpis))
    else None
  }

  /** A region's blocks start out empty, so they trivially satisfy the
      occupancy invariant whatever the roster. */
  lemma RegionBlocksConsistent(region: string)
    requires NetworkData(region).Some?
    ensures OccupancyConsistent(NetworkData(region).value.trains, NetworkData(region).value.blocks)
  {
  }
}
