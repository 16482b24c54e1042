/** The punctuality KPI refreshed by the tick (hooks/useMockData.ts, the
    `setKpis` call): the share of trains with no delay, and a trend against
    the previous value. */
module Punctuality {
  import opened TwinTypes

  /** Trains whose delay is exactly 0. */
  function OnTimeCount(trains: seq<Train>): (n: nat)
    ensures n <= |trains|
    ensures n == |trains| <==> forall k :: 0 <= k < |trains| ==> trains[k].delay == 0
    ensures n == 0 <==> forall k :: 0 <= k < |trains| ==> trains[k].delay != 0
  {
    if |trains| == 0 then 0
    else
      var rest := OnTimeCount(trains[1..]);
      assert forall k :: 1 <= k < |trains| ==> trains[k] == trains[1..][k - 1];
      (if trains[0].delay == 0 then 1 else 0) + rest
  }

  /** On-time trains as a percentage of the roster; 100 for an empty roster.
      The source rounds to one decimal place; the model keeps the exact value. */
  function PunctualityOf(trains: seq<Train>): real {
    if |trains| > 0 then (OnTimeCount(trains) as real / |trains| as real) * 100.0 else 100.0
  }

  /** Up, down or stable, by comparing the new value with the previous one. */
  function TrendOf(now: real, previous: real): (t: Trend)
    ensures t == Up <==> now > previous
    ensures t == Down <==> now < previous
    ensures t == Stable <==> now == previous
  {
    if now > previous then Up else if now < previous then Down else Stable
  }

  /** The KPI cards with only the punctuality card refreshed. */
  function RefreshPunctuality(kpis: KpiData, trains: seq<Train>): (r: KpiData)
    ensures r == kpis.(punctuality := r.punctuality)
    ensures r.punctuality.value == PunctualityOf(trains)
    ensures r.punctuality.trend == TrendOf(PunctualityOf(trains), kpis.punctuality.value)
  {
    var p := PunctualityOf(trains);
    kpis.(punctuality := Kpi(p, TrendOf(p, kpis.punctuality.value)))
  }

  // Facts about c / n for 0 <= c <= n and n > 0, one per lemma so that
  // each is proved on its own.

  lemma RatioAtMostOne(c: real, n: real)
    requires 0.0 <= c <= n && n > 0.0
    ensures 0.0 <= c / n <= 1.0
  {
  }

  lemma RatioOneIff(c: real, n: real)
    requires n > 0.0
    ensures c / n == 1.0 <==> c == n
  {
  }

  lemma RatioZeroIff(c: real, n: real)
    requires n > 0.0
    ensures c / n == 0.0 <==> c == 0.0
  {
  }

  /** The percentage lies in [0, 100]; it is 100 exactly when no train is
      delayed and 0 exactly when the roster is non-empty and every train is. */
  lemma PunctualityBounds(trains: seq<Train>)
    ensures 0.0 <= PunctualityOf(trains) <= 100.0
    ensures PunctualityOf(trains) == 100.0 <==> forall k :: 0 <= k < |trains| ==> trains[k].delay == 0
    ensures PunctualityOf(trains) == 0.0 <==> |trains| > 0 && forall k :: 0 <= k < |trains| ==> trains[k].delay != 0
  {
    if |trains| > 0 {
      var c, n := OnTimeCount(trains) as real, |trains| as real;
      RatioAtMostOne(c, n);
      RatioOneIff(c, n);
      RatioZeroIff(c, n);
    }
  }
}
