/**
 * The nutrient-loading model: land-use percentages (agriculture, urban,
 * forest, wetland) mapped to a 0-100 score. Agriculture and urban cover add
 * clamped terms, forest and wetland subtract a clamped buffer.
 */
module NutrientModel {
  import opened Numerics

  /** The feature dict; `None` is a missing key (read as 0). */
  datatype NutrientInput = NutrientInput(
    agriculturalPct: Option<real>,
    urbanPct: Option<real>,
    forestPct: Option<real>,
    wetlandPct: Option<real>)

  datatype NutrientSubScores = NutrientSubScores(agriculture: real, urban: real, bufferReduction: real)

  datatype NutrientReport = NutrientReport(
    score: real,
    agriculturalPct: real,
    urbanPct: real,
    forestPct: real,
    wetlandPct: real,
    subScores: NutrientSubScores)

  function AgricultureTerm(ag: real): (r: real)
    ensures 0.0 <= r <= 50.0
    ensures 0.0 <= ag * 1.2 <= 50.0 ==> r == ag * 1.2
  {
    Clip(ag * 1.2, 0.0, 50.0)
  }

  function UrbanTerm(urban: real): (r: real)
    ensures 0.0 <= r <= 30.0
    ensures 0.0 <= urban * 1.5 <= 30.0 ==> r == urban * 1.5
  {
    Clip(urban * 1.5, 0.0, 30.0)
  }

  function BufferReduction(forest: real, wetland: real): (r: real)
    ensures 0.0 <= r <= 20.0
    ensures 0.0 <= (forest + wetland) * 0.3 <= 20.0 ==> r == (forest + wetland) * 0.3
  {
    Clip((forest + wetland) * 0.3, 0.0, 20.0)
  }

  /** The unrounded total: clipped to [0, 100], and in fact never above 50 + 30. */
  function NutrientTotal(ag: real, urban: real, forest: real, wetland: real): (r: real)
    ensures 0.0 <= r <= 80.0
    ensures r == Max(0.0, AgricultureTerm(ag) + UrbanTerm(urban) - BufferReduction(forest, wetland))
  {
    Clip(AgricultureTerm(ag) + UrbanTerm(urban) - BufferReduction(forest, wetland), 0.0, 100.0)
  }

  function ComputeNutrientScore(m: Ops, f: NutrientInput): (r: NutrientReport)
    requires RoundLaws(m)
    ensures 0.0 <= r.score <= 80.0
    ensures r.agriculturalPct == f.agriculturalPct.GetOr(0.0) && r.urbanPct == f.urbanPct.GetOr(0.0)
    ensures r.forestPct == f.forestPct.GetOr(0.0) && r.wetlandPct == f.wetlandPct.GetOr(0.0)
    ensures 0.0 <= r.subScores.agriculture <= 50.0
    ensures 0.0 <= r.subScores.urban <= 30.0
    ensures 0.0 <= r.subScores.bufferReduction <= 20.0
    ensures r.score == m.round(NutrientTotal(r.agriculturalPct, r.urbanPct, r.forestPct, r.wetlandPct), 1)
    ensures r.subScores.agriculture == m.round(AgricultureTerm(r.agriculturalPct), 1)
    ensures r.subScores.urban == m.round(UrbanTerm(r.urbanPct), 1)
    ensures r.subScores.bufferReduction == m.round(BufferReduction(r.forestPct, r.wetlandPct), 1)
  {
    var ag := f.agriculturalPct.GetOr(0.0);
    var urban := f.urbanPct.GetOr(0.0);
    var forest := f.forestPct.GetOr(0.0);
    var wetland := f.wetlandPct.GetOr(0.0);
    var agScore := AgricultureTerm(ag);
    var urbanScore := UrbanTerm(urban);
    var buffer := BufferReduction(forest, wetland);
    var total := NutrientTotal(ag, urban, forest, wetland);
    RoundClipBounds(m, total, 0, 80, 1);
    RoundClipBounds(m, agScore, 0, 50, 1);
    RoundClipBounds(m, urbanScore, 0, 30, 1);
    RoundClipBounds(m, buffer, 0, 20, 1);
    NutrientReport(
      m.round(total, 1), ag, urban, forest, wetland,
      NutrientSubScores(m.round(agScore, 1), m.round(urbanScore, 1), m.round(buffer, 1)))
  }

  /** More agriculture or urban cover never lowers the score; more forest or wetland never raises it. */
  lemma NutrientTotalMonotone(ag1: real, ag2: real, u1: real, u2: real, b1: real, b2: real)
    requires ag1 <= ag2 && u1 <= u2 && b2 <= b1
    ensures NutrientTotal(ag1, u1, b1, 0.0) <= NutrientTotal(ag2, u2, b2, 0.0)
  {
    ClipMonotone(ag1 * 1.2, ag2 * 1.2, 0.0, 50.0);
    ClipMonotone(u1 * 1.5, u2 * 1.5, 0.0, 30.0);
    ClipMonotone(b2 * 0.3, b1 * 0.3, 0.0, 20.0);
  }

  /** Only the sum forest + wetland matters. */
  lemma BufferDependsOnSum(f1: real, w1: real, f2: real, w2: real)
    requires f1 + w1 == f2 + w2
    ensures BufferReduction(f1, w1) == BufferReduction(f2, w2)
  {
  }

  /** The rounded score is monotone in the same directions. */
  lemma ComputeNutrientScoreMonotone(m: Ops, f: NutrientInput, g: NutrientInput)
    requires RoundLaws(m)
    requires f.agriculturalPct.GetOr(0.0) <= g.agriculturalPct.GetOr(0.0)
    requires f.urbanPct.GetOr(0.0) <= g.urbanPct.GetOr(0.0)
    requires g.forestPct.GetOr(0.0) + g.wetlandPct.GetOr(0.0) <= f.forestPct.GetOr(0.0) + f.wetlandPct.GetOr(0.0)
    ensures ComputeNutrientScore(m, f).score <= ComputeNutrientScore(m, g).score
  {
    var fb := f.forestPct.GetOr(0.0) + f.wetlandPct.GetOr(0.0);
    var gb := g.forestPct.GetOr(0.0) + g.wetlandPct.GetOr(0.0);
    var t1 := NutrientTotal(f.agriculturalPct.GetOr(0.0), f.urbanPct.GetOr(0.0), f.forestPct.GetOr(0.0), f.wetlandPct.GetOr(0.0));
    var t2 := NutrientTotal(g.agriculturalPct.GetOr(0.0), g.urbanPct.GetOr(0.0), g.forestPct.GetOr(0.0), g.wetlandPct.GetOr(0.0));
    assert t1 <= t2 by {
      BufferDependsOnSum(f.forestPct.GetOr(0.0), f.wetlandPct.GetOr(0.0), fb, 0.0);
      BufferDependsOnSum(g.forestPct.GetOr(0.0), g.wetlandPct.GetOr(0.0), gb, 0.0);
      NutrientTotalMonotone(f.agriculturalPct.GetOr(0.0), g.agriculturalPct.GetOr(0.0),
                            f.urbanPct.GetOr(0.0), g.urbanPct.GetOr(0.0), fb, gb);
    }
    RoundMonotone(m, t1, t2, 1);
  }
}
