/**
 * Side-by-side comparison of several sites: one record per site with the
 * documented defaults and five radar axes, and a ranking by risk score,
 * highest first, that keeps the input order among equal scores (Python's
 * `sorted(..., reverse=True)` is stable).
 *
 * The input dict is a sequence of (key, pipeline result) pairs in insertion
 * order; nested `.get(...)` lookups that fall back to `{}` are flattened into
 * one optional field each.
 */
module MultiSiteComparison {
  import opened Numerics

  /** The fields of one pipeline result that the comparison reads; `None` is a missing key. */
  datatype SiteResult = SiteResult(
    riskScore: Option<real>,
    riskLevel: Option<string>,
    riskColor: Option<string>,
    confidence: Option<string>,
    waterTemp: Option<real>,
    airTemp: Option<real>,
    avgWind7d: Option<real>,
    rainfall7d: Option<real>,
    agriculturalPct: Option<real>,
    uvIndex: Option<real>,
    muPerDay: Option<real>,
    trend: Option<string>)

  datatype Radar = Radar(
    temperatureRisk: real,
    nutrientLoad: real,
    stagnation: real,
    lightUv: real,
    growthRate: real)

  datatype SiteRecord = SiteRecord(
    key: string,
    riskScore: real,
    riskLevel: string,
    riskColor: string,
    waterTemp: real,
    airTemp: real,
    wind: real,
    rainfall7d: real,
    growthRate: real,
    trend: string,
    confidence: string,
    radar: Radar)

  datatype RankEntry = RankEntry(rank: nat, key: string, riskScore: real, riskLevel: string)

  datatype MultiSiteComparison = MultiSiteComparison(available: bool, sites: seq<SiteRecord>, ranking: seq<RankEntry>)

  // ---------------------------------------------------------------- radar axes

  /** (water - 10) / 25 * 100 clamped to [0, 100]; the radar reads 20 degrees when the water temperature is missing. */
  function TemperatureAxis(water: real): (r: real)
    ensures 0.0 <= r <= 100.0
    ensures water <= 10.0 ==> r == 0.0
    ensures water >= 35.0 ==> r == 100.0
  {
    Min(100.0, Max(0.0, (water - 10.0) / 25.0 * 100.0))
  }

  /** (1 - wind / 30) * 100 clamped to [0, 100]: calm water scores high. */
  function StagnationAxis(wind: real): (r: real)
    ensures 0.0 <= r <= 100.0
    ensures wind <= 0.0 ==> r == 100.0
    ensures wind >= 30.0 ==> r == 0.0
  {
    Min(100.0, Max(0.0, (1.0 - wind / 30.0) * 100.0))
  }

  lemma TemperatureAxisMonotone(w1: real, w2: real)
    requires w1 <= w2
    ensures TemperatureAxis(w1) <= TemperatureAxis(w2)
  {
  }

  lemma StagnationAxisAntitone(v1: real, v2: real)
    requires v1 <= v2
    ensures StagnationAxis(v2) <= StagnationAxis(v1)
  {
  }

  /** The three remaining axes are capped at 100 but have no lower clamp. */
  function CappedAxis(x: real): (r: real)
    ensures r <= 100.0
    ensures x <= 100.0 ==> r == x
  {
    Min(100.0, x)
  }

  function RadarOf(res: SiteResult): (r: Radar)
    ensures 0.0 <= r.temperatureRisk <= 100.0
    ensures 0.0 <= r.stagnation <= 100.0
    ensures r.nutrientLoad <= 100.0 && r.lightUv <= 100.0 && r.growthRate <= 100.0
  {
    Radar(
      TemperatureAxis(res.waterTemp.GetOr(20.0)),
      CappedAxis(res.agriculturalPct.GetOr(0.0) * 1.25),
      StagnationAxis(res.avgWind7d.GetOr(10.0)),
      CappedAxis(res.uvIndex.GetOr(5.0) / 12.0 * 100.0),
      CappedAxis(res.muPerDay.GetOr(0.0) / 1.2 * 100.0))
  }

  /**
   * The record of one site. The displayed water temperature defaults to 0
   * while the radar's temperature axis defaults to 20 degrees.
   */
  function SiteRecordOf(key: string, res: SiteResult): (r: SiteRecord)
    ensures r.key == key
    ensures r.riskScore == res.riskScore.GetOr(0.0)
    ensures r.riskLevel == res.riskLevel.GetOr("SAFE") && r.riskColor == res.riskColor.GetOr("#2ecc71")
    ensures r.trend == res.trend.GetOr("STABLE") && r.confidence == res.confidence.GetOr("LOW")
    ensures r.waterTemp == res.waterTemp.GetOr(0.0) && r.radar == RadarOf(res)
  {
    SiteRecord(
      key,
      res.riskScore.GetOr(0.0),
      res.riskLevel.GetOr("SAFE"),
      res.riskColor.GetOr("#2ecc71"),
      res.waterTemp.GetOr(0.0),
      res.airTemp.GetOr(0.0),
      res.avgWind7d.GetOr(0.0),
      res.rainfall7d.GetOr(0.0),
      res.muPerDay.GetOr(0.0),
      res.trend.GetOr("STABLE"),
      res.confidence.GetOr("LOW"),
      RadarOf(res))
  }

  // ---------------------------------------------------------------- stable descending order

  /**
   * Site a is listed before site b: a higher score, or the same score and an
   * earlier position in the input.
   */
  ghost predicate Before(scores: seq<real>, a: nat, b: nat)
    requires a < |scores| && b < |scores|
  {
    scores[a] > scores[b] || (scores[a] == scores[b] && a < b)
  }

  ghost predicate Ordered(scores: seq<real>, t: seq<nat>)
  {
    && (forall i :: 0 <= i < |t| ==> t[i] < |scores|)
    && (forall i, j :: 0 <= i < j < |t| ==> Before(scores, t[i], t[j]))
  }

  /** Insert position x after every entry whose score is at least as high. */
  function InsertByScore(scores: seq<real>, x: nat, t: seq<nat>): (r: seq<nat>)
    requires x < |scores|
    requires forall i :: 0 <= i < |t| ==> t[i] < |scores|
    ensures |r| == |t| + 1
    ensures forall i :: 0 <= i < |r| ==> r[i] < |scores|
  {
    if |t| == 0 then [x]
    else if scores[t[0]] >= scores[x] then [t[0]] + InsertByScore(scores, x, t[1..])
    else [x] + t
  }

  lemma {:induction false} InsertByScoreMembers(scores: seq<real>, x: nat, t: seq<nat>)
    requires x < |scores|
    requires forall i :: 0 <= i < |t| ==> t[i] < |scores|
    ensures forall e :: e in InsertByScore(scores, x, t) <==> e == x || e in t
  {
    if |t| > 0 && scores[t[0]] >= scores[x] {
      InsertByScoreMembers(scores, x, t[1..]);
      assert t == [t[0]] + t[1..];
    }
  }

  /** A list stays ordered when an entry that precedes all of its members is put in front. */
  lemma OrderedCons(scores: seq<real>, a: nat, t: seq<nat>)
    requires a < |scores| && Ordered(scores, t)
    requires forall e :: e in t ==> e < |scores| && Before(scores, a, e)
    ensures Ordered(scores, [a] + t)
  {
    var r := [a] + t;
    forall i, j | 0 <= i < j < |r|
      ensures Before(scores, r[i], r[j])
    {
      if i > 0 {
        assert r[i] == t[i - 1] && r[j] == t[j - 1];
      } else {
        assert r[j] in t;
      }
    }
  }

  /** Inserting a position later than every listed one keeps the list ordered. */
  lemma {:induction false} InsertByScoreOrdered(scores: seq<real>, x: nat, t: seq<nat>)
    requires x < |scores| && Ordered(scores, t)
    requires forall i :: 0 <= i < |t| ==> t[i] < x
    ensures Ordered(scores, InsertByScore(scores, x, t))
  {
    if |t| == 0 {
    } else if scores[t[0]] >= scores[x] {
      var tail := t[1..];
      assert Ordered(scores, tail) by {
        forall i, j | 0 <= i < j < |tail|
          ensures Before(scores, tail[i], tail[j])
        {
          assert tail[i] == t[i + 1] && tail[j] == t[j + 1];
        }
      }
      InsertByScoreOrdered(scores, x, tail);
      InsertByScoreMembers(scores, x, tail);
      forall e | e in InsertByScore(scores, x, tail)
        ensures e < |scores| && Before(scores, t[0], e)
      {
        if e != x {
          var k :| 0 <= k < |tail| && tail[k] == e;
          assert Before(scores, t[0], t[k + 1]);
        }
      }
      OrderedCons(scores, t[0], InsertByScore(scores, x, tail));
    } else {
      forall e | e in t
        ensures e < |scores| && Before(scores, x, e)
      {
        var k :| 0 <= k < |t| && t[k] == e;
        if k > 0 {
          assert Before(scores, t[0], t[k]);
        }
      }
      OrderedCons(scores, x, t);
    }
  }

  /** The positions 0 .. n-1 in ranking order (an insertion sort of the input positions). */
  function RankOrder(scores: seq<real>, n: nat): (r: seq<nat>)
    requires n <= |scores|
    ensures |r| == n
    ensures forall i :: 0 <= i < |r| ==> r[i] < n
  {
    if n == 0 then []
    else
      var t := RankOrder(scores, n - 1);
      var r := InsertByScore(scores, n - 1, t);
      InsertByScoreMembers(scores, n - 1, t);
      assert forall i :: 0 <= i < |r| ==> r[i] in r;
      r
  }

  /**
   * The ranking order lists every position, each once: it is ordered by
   * `Before`, which never relates a position to itself, and contains 0 .. n-1.
   */
  lemma {:induction false} RankOrderSpec(scores: seq<real>, n: nat)
    requires n <= |scores|
    ensures Ordered(scores, RankOrder(scores, n))
    ensures forall p :: 0 <= p < n ==> p in RankOrder(scores, n)
    ensures forall i, j :: 0 <= i < j < n ==> RankOrder(scores, n)[i] != RankOrder(scores, n)[j]
  {
    if n > 0 {
      var t := RankOrder(scores, n - 1);
      RankOrderSpec(scores, n - 1);
      InsertByScoreOrdered(scores, n - 1, t);
      InsertByScoreMembers(scores, n - 1, t);
      var r := RankOrder(scores, n);
      forall i, j | 0 <= i < j < n
        ensures r[i] != r[j]
      {
        assert Before(scores, r[i], r[j]);
      }
    }
  }

  // ---------------------------------------------------------------- the comparison

  function Scores(sites: seq<SiteRecord>): (r: seq<real>)
    ensures |r| == |sites| && forall i :: 0 <= i < |sites| ==> r[i] == sites[i].riskScore
  {
    seq(|sites|, i requires 0 <= i < |sites| => sites[i].riskScore)
  }

  /** The order of the sites in the ranking: positions of `sites`, ranked. */
  function SiteOrder(sites: seq<SiteRecord>): (r: seq<nat>)
    ensures |r| == |sites| && forall i :: 0 <= i < |r| ==> r[i] < |sites|
  {
    RankOrder(Scores(sites), |sites|)
  }

  /** Entry i of the ranking is the site at position SiteOrder[i], with rank i + 1. */
  function Ranking(sites: seq<SiteRecord>): (r: seq<RankEntry>)
    ensures |r| == |sites|
    ensures forall i :: 0 <= i < |r| ==> r[i].rank == i + 1
    ensures forall i :: 0 <= i < |r| ==> r[i].key == sites[SiteOrder(sites)[i]].key
    ensures forall i :: 0 <= i < |r| ==> r[i].riskScore == sites[SiteOrder(sites)[i]].riskScore
    ensures forall i :: 0 <= i < |r| ==> r[i].riskLevel == sites[SiteOrder(sites)[i]].riskLevel
  {
    var order := SiteOrder(sites);
    seq(|sites|, i requires 0 <= i < |sites| =>
      RankEntry(i + 1, sites[order[i]].key, sites[order[i]].riskScore, sites[order[i]].riskLevel))
  }

  /** Highest score first, and among equal scores the site that came first in the input. */
  lemma RankingOrdered(sites: seq<SiteRecord>)
    ensures forall i, j :: 0 <= i < j < |sites| ==> Ranking(sites)[i].riskScore >= Ranking(sites)[j].riskScore
    ensures forall i, j :: 0 <= i < j < |sites| && Ranking(sites)[i].riskScore == Ranking(sites)[j].riskScore
              ==> SiteOrder(sites)[i] < SiteOrder(sites)[j]
  {
    var scores := Scores(sites);
    var order := SiteOrder(sites);
    RankOrderSpec(scores, |sites|);
    forall i, j | 0 <= i < j < |sites|
      ensures Ranking(sites)[i].riskScore >= Ranking(sites)[j].riskScore
      ensures Ranking(sites)[i].riskScore == Ranking(sites)[j].riskScore ==> order[i] < order[j]
    {
      assert Before(scores, order[i], order[j]);
    }
  }

  /** Every site is ranked exactly once. */
  lemma RankingIsPermutation(sites: seq<SiteRecord>)
    ensures forall p :: 0 <= p < |sites| ==> p in SiteOrder(sites)
    ensures forall i, j :: 0 <= i < j < |sites| ==> SiteOrder(sites)[i] != SiteOrder(sites)[j]
  {
    RankOrderSpec(Scores(sites), |sites|);
  }

  /** The comparison: one record per input entry in input order, then the ranking. */
  method BuildMultiSiteComparison(input: seq<(string, SiteResult)>) returns (r: MultiSiteComparison)
    ensures |input| == 0 ==> r == MultiSiteComparison(false, [], [])
    ensures |input| > 0 ==> r.available
    ensures |r.sites| == |input|
    ensures forall i :: 0 <= i < |input| ==> r.sites[i] == SiteRecordOf(input[i].0, input[i].1)
    ensures |input| > 0 ==> r.ranking == Ranking(r.sites)
  {
    if |input| == 0 {
      return MultiSiteComparison(false, [], []);
    }
    var sites: seq<SiteRecord> := [];
    var i := 0;
    while i < |input|
      invariant 0 <= i <= |input|
      invariant |sites| == i
      invariant forall k :: 0 <= k < i ==> sites[k] == SiteRecordOf(input[k].0, input[k].1)
    {
      sites := sites + [SiteRecordOf(input[i].0, input[i].1)];
      i := i + 1;
    }
    r := MultiSiteComparison(true, sites, Ranking(sites));
  }
}
