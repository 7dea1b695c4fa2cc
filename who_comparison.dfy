/**
 * The WHO comparison card: the colour of the risk score, the sentence placing
 * the estimated cell count against the WHO recreational thresholds, the
 * shared threshold table, and the count written with thousands separators.
 */
module WhoComparison {
  import opened Constants
  import BloomProbabilityModel

  /** The card colour of a 0-100 risk score. */
  function RiskColor(score: real): (r: string)
    ensures r == "#2ecc71" <==> score < 25.0
    ensures r == "#f1c40f" <==> 25.0 <= score < 50.0
    ensures r == "#e67e22" <==> 50.0 <= score < 75.0
    ensures r == "#e74c3c" <==> score >= 75.0
  {
    if score < 25.0 then "#2ecc71"
    else if score < 50.0 then "#f1c40f"
    else if score < 75.0 then "#e67e22"
    else "#e74c3c"
  }

  /** The card colour is the colour the risk classifier gives the same score. */
  lemma RiskColorMatchesClassifier(score: real)
    ensures RiskColor(score) == BloomProbabilityModel.ClassifyRisk(score).color
  {
  }

  /** Where the estimate sits against the thresholds: the sentence of the proximity text. */
  datatype Proximity = BelowLow | ExceedsLow | ExceedsModerate | FarExceedsHigh

  function ProximityOf(cells: int): (r: Proximity)
    ensures r == BelowLow <==> cells < 20_000
    ensures r == ExceedsLow <==> 20_000 <= cells < 100_000
    ensures r == ExceedsModerate <==> 100_000 <= cells < 10_000_000
    ensures r == FarExceedsHigh <==> cells >= 10_000_000
  {
    if cells < 20_000 then BelowLow
    else if cells < 100_000 then ExceedsLow
    else if cells < 10_000_000 then ExceedsModerate
    else FarExceedsHigh
  }

  /**
   * The proximity sentence and the WHO severity use the same breakpoints,
   * which are the cell values of the shared threshold table.
   */
  lemma ProximityMatchesSeverity(cells: int)
    ensures var w := BloomProbabilityModel.WhoSeverity(cells);
            && (ProximityOf(cells) == BelowLow <==> w == BloomProbabilityModel.LowRisk)
            && (ProximityOf(cells) == ExceedsLow <==> w == BloomProbabilityModel.ModerateRisk)
            && (ProximityOf(cells) == ExceedsModerate <==> w == BloomProbabilityModel.HighRisk)
            && (ProximityOf(cells) == FarExceedsHigh <==> w == BloomProbabilityModel.VeryHighRisk)
    ensures ProximityOf(cells) == BelowLow <==> cells < WhoCyanoThresholds[0].cells
    ensures ProximityOf(cells) == FarExceedsHigh <==> cells >= WhoCyanoThresholds[2].cells
  {
    WhoThresholdsIncreasing();
  }

  // ---------------------------------------------------------------- thousands separators

  function DigitChar(d: nat): (c: char)
    requires d < 10
    ensures '0' <= c <= '9'
  {
    (48 + d) as char
  }

  predicate IsDigit(c: char) {
    '0' <= c <= '9'
  }

  /** The decimal digits of n, most significant first, without leading zeros. */
  function Digits(n: nat): (r: string)
    ensures |r| >= 1
    ensures n > 0 ==> r[0] != '0'
    ensures forall i :: 0 <= i < |r| ==> IsDigit(r[i])
    decreases n
  {
    if n < 10 then [DigitChar(n)] else Digits(n / 10) + [DigitChar(n % 10)]
  }

  /** The value of a string of decimal digits. */
  function ValueOf(s: string): int {
    if |s| == 0 then 0 else 10 * ValueOf(s[..|s| - 1]) + (s[|s| - 1] as int - 48)
  }

  lemma {:induction false} DigitsRoundTrip(n: nat)
    ensures ValueOf(Digits(n)) == n
    decreases n
  {
    if n >= 10 {
      DigitsRoundTrip(n / 10);
      var d := Digits(n / 10);
      assert (d + [DigitChar(n % 10)])[..|d|] == d;
    }
  }

  /** Commas between groups of three digits, counted from the right, as Python's `{:,}` writes them. */
  function Group(s: string): (r: string)
    ensures |r| == |s| + (if |s| == 0 then 0 else (|s| - 1) / 3)
    ensures |s| > 0 ==> r[0] == s[0]
    ensures forall i :: 0 <= i < |r| ==> r[i] == ',' || r[i] in s
  {
    if |s| <= 3 then s else Group(s[..|s| - 3]) + "," + s[|s| - 3..]
  }

  /** The string with every comma removed. */
  function Ungroup(s: string): string {
    if |s| == 0 then [] else Ungroup(s[..|s| - 1]) + (if s[|s| - 1] == ',' then [] else [s[|s| - 1]])
  }

  lemma {:induction false} UngroupConcat(a: string, b: string)
    ensures Ungroup(a + b) == Ungroup(a) + Ungroup(b)
  {
    if |b| == 0 {
      assert a + b == a;
    } else {
      var b' := b[..|b| - 1];
      assert (a + b)[..|a + b| - 1] == a + b';
      UngroupConcat(a, b');
    }
  }

  lemma {:induction false} UngroupNoCommas(s: string)
    requires forall i :: 0 <= i < |s| ==> s[i] != ','
    ensures Ungroup(s) == s
  {
    if |s| > 0 {
      UngroupNoCommas(s[..|s| - 1]);
    }
  }

  /** Removing the separators gives back the digits. */
  lemma {:induction false} UngroupGroup(s: string)
    requires forall i :: 0 <= i < |s| ==> s[i] != ','
    ensures Ungroup(Group(s)) == s
  {
    if |s| > 3 {
      var head := s[..|s| - 3];
      var tail := s[|s| - 3..];
      UngroupGroup(head);
      UngroupConcat(Group(head) + ",", tail);
      UngroupConcat(Group(head), ",");
      UngroupNoCommas(tail);
      assert Ungroup(",") == [];
      assert head + tail == s;
    } else {
      UngroupNoCommas(s);
    }
  }

  /** `f"{n:,}"`: the integer with a minus sign when negative and commas every three digits. */
  function FormatThousands(n: int): (r: string)
    ensures |r| > 0
    ensures r[0] == '-' <==> n < 0
  {
    if n < 0 then "-" + Group(Digits(-n)) else Group(Digits(n))
  }

  /** Reading a formatted number back: drop the commas and read the digits. */
  function ParseThousands(s: string): int {
    if |s| > 0 && s[0] == '-' then -ValueOf(Ungroup(s[1..])) else ValueOf(Ungroup(s))
  }

  /** The formatted count reads back as the count: the separators change nothing but the layout. */
  lemma FormatThousandsRoundTrip(n: int)
    ensures ParseThousands(FormatThousands(n)) == n
  {
    var a := if n < 0 then -n else n;
    var d := Digits(a);
    assert forall i :: 0 <= i < |d| ==> d[i] != ',' by {
      forall i | 0 <= i < |d| ensures d[i] != ',' {
        assert IsDigit(d[i]);
      }
    }
    UngroupGroup(d);
    DigitsRoundTrip(a);
    if n < 0 {
      assert FormatThousands(n)[1..] == Group(d);
    } else {
      assert IsDigit(d[0]);
    }
  }

  // ---------------------------------------------------------------- the card

  datatype WhoCard = WhoCard(
    thresholds: seq<WhoThreshold>,
    estimatedCellsFormatted: string,
    riskColor: string,
    proximity: Proximity,
    whoSeverity: string)

  /**
   * The card for a score and a cell estimate: the shared thresholds
   * unchanged, the count formatted, and the severity passed through as given.
   */
  function FormatWhoComparison(riskScore: real, estimatedCells: int, whoSeverity: string): (r: WhoCard)
    ensures r.thresholds == WhoCyanoThresholds
    ensures r.whoSeverity == whoSeverity
    ensures ParseThousands(r.estimatedCellsFormatted) == estimatedCells
    ensures r.riskColor == BloomProbabilityModel.ClassifyRisk(riskScore).color
    ensures r.proximity == ProximityOf(estimatedCells)
  {
    FormatThousandsRoundTrip(estimatedCells);
    WhoCard(WhoCyanoThresholds, FormatThousands(estimatedCells), RiskColor(riskScore),
            ProximityOf(estimatedCells), whoSeverity)
  }
}
