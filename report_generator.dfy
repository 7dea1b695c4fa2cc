/**
 * The arithmetic and text handling behind the PDF risk report: the text
 * sanitiser for the Latin-1 PDF font, the score colours and forecast-row
 * levels, the table-header column widths and the probability bars.
 */
module ReportGenerator {
  import opened Numerics
  import Text
  import Constants

  // ---------------------------------------------------------------- _safe

  /** `s.replace(pat, "")`: every non-overlapping occurrence of `pat`, scanned from the left, removed. */
  function DeleteAll(s: string, pat: string): (r: string)
    requires |pat| > 0
    ensures |r| <= |s|
    ensures forall c :: c in r ==> c in s
    decreases |s|
  {
    if |s| < |pat| then s
    else if s[..|pat|] == pat then DeleteAll(s[|pat|..], pat)
    else
      var rest := DeleteAll(s[1..], pat);
      assert forall c :: c in s[1..] ==> c in s;
      [s[0]] + rest
  }

  /** `s` with every '*' dropped. */
  function DropStars(s: string): (r: string)
    ensures forall c :: c in r <==> c in s && c != '*'
  {
    if |s| == 0 then []
    else
      var rest := DropStars(s[1..]);
      assert forall c :: c in s <==> c == s[0] || c in s[1..];
      if s[0] == '*' then rest else [s[0]] + rest
  }

  /** Deleting the one-character pattern "*" drops every star. */
  lemma {:induction false} DeleteStarIsDropStars(s: string)
    ensures DeleteAll(s, "*") == DropStars(s)
    decreases |s|
  {
    if |s| > 0 {
      DeleteStarIsDropStars(s[1..]);
      assert s[1..] == s[|"*"|..];
    }
  }

  /** Deleting "**" first removes only stars, two at a time. */
  lemma {:induction false} DeletePairsKeepsNonStars(s: string)
    ensures DropStars(DeleteAll(s, "**")) == DropStars(s)
    decreases |s|
  {
    if |s| >= 2 {
      if s[..2] == "**" {
        DeletePairsKeepsNonStars(s[2..]);
        assert s[1..][1..] == s[2..];
        assert s[0] == '*' && s[1] == '*';
      } else {
        DeletePairsKeepsNonStars(s[1..]);
      }
    }
  }

  /** `text.replace("**", "").replace("*", "")` removes every star and nothing else. */
  lemma StarsRemoved(s: string)
    ensures DeleteAll(DeleteAll(s, "**"), "*") == DropStars(s)
  {
    DeleteStarIsDropStars(DeleteAll(s, "**"));
    DeletePairsKeepsNonStars(s);
  }

  /** A text without stars is left alone by deleting a pattern that starts with a star. */
  lemma {:induction false} DeleteAbsentPattern(s: string, pat: string)
    requires |pat| > 0 && pat[0] == '*'
    requires '*' !in s
    ensures DeleteAll(s, pat) == s
    decreases |s|
  {
    if |s| >= |pat| {
      assert s[..|pat|][0] == s[0];
      DeleteAbsentPattern(s[1..], pat);
      assert [s[0]] + s[1..] == s;
    }
  }

  /** `re.sub(r'[^\x00-\xff]', '', s)`: only the Latin-1 characters of `s`, in order. */
  function Latin1Only(s: string): (r: string)
    ensures forall c :: c in r <==> c in s && c as int <= 0xFF
  {
    if |s| == 0 then []
    else
      var rest := Latin1Only(s[1..]);
      assert forall c :: c in s <==> c == s[0] || c in s[1..];
      if s[0] as int <= 0xFF then [s[0]] + rest else rest
  }

  /** A Latin-1 text is its own Latin-1 part. */
  lemma {:induction false} Latin1OnlyKeeps(s: string)
    requires forall c :: c in s ==> c as int <= 0xFF
    ensures Latin1Only(s) == s
    decreases |s|
  {
    if |s| > 0 {
      assert s[0] in s;
      assert forall c :: c in s[1..] ==> c in s;
      Latin1OnlyKeeps(s[1..]);
      assert [s[0]] + s[1..] == s;
    }
  }

  /**
   * `_safe`: the text made printable in the PDF's Latin-1 font: markdown stars
   * removed, characters above U+00FF removed, surrounding whitespace stripped.
   */
  function Safe(text: string): (r: string)
    ensures forall c :: c in r ==> c != '*' && c as int <= 0xFF
    ensures r != [] ==> !Text.IsSpace(r[0]) && !Text.IsSpace(r[|r| - 1])
    ensures forall c :: c in r ==> c in text
  {
    var unstarred := DeleteAll(DeleteAll(text, "**"), "*");
    var latin := Latin1Only(unstarred);
    StarsRemoved(text);
    Text.Strip(latin)
  }

  /** Sanitising twice is sanitising once. */
  lemma SafeIdempotent(text: string)
    ensures Safe(Safe(text)) == Safe(text)
  {
    var r := Safe(text);
    DeleteAbsentPattern(r, "**");
    DeleteAbsentPattern(r, "*");
    Latin1OnlyKeeps(r);
    var unstarred := DeleteAll(DeleteAll(text, "**"), "*");
    Text.StripIdempotent(Latin1Only(unstarred));
  }

  // ---------------------------------------------------- colours and levels

  datatype Rgb = Rgb(r: int, g: int, b: int)

  /** `_score_color`: red from 75, orange from 50, yellow from 25, green below. */
  function ScoreColor(score: real): (c: Rgb)
    ensures c == Rgb(231, 76, 60) <==> score >= 75.0
    ensures c == Rgb(46, 204, 113) <==> score < 25.0
  {
    if score >= 75.0 then Rgb(231, 76, 60)
    else if score >= 50.0 then Rgb(230, 126, 34)
    else if score >= 25.0 then Rgb(241, 196, 15)
    else Rgb(46, 204, 113)
  }

  /** The level printed in a 7-day forecast row. */
  function RowLevel(score: real): (level: string)
    ensures level == "CRITICAL" <==> score >= 75.0
    ensures level == "WARNING" <==> 50.0 <= score < 75.0
    ensures level == "LOW" <==> 25.0 <= score < 50.0
    ensures level == "SAFE" <==> score < 25.0
  {
    if score >= 75.0 then "CRITICAL"
    else if score >= 50.0 then "WARNING"
    else if score >= 25.0 then "LOW"
    else "SAFE"
  }

  /** The colour of the risk box drawn for a level (grey for an unknown level). */
  function LevelColor(level: string): Rgb
  {
    if level == "CRITICAL" then Rgb(231, 76, 60)
    else if level == "WARNING" then Rgb(230, 126, 34)
    else if level == "LOW" then Rgb(241, 196, 15)
    else if level == "SAFE" then Rgb(46, 204, 113)
    else Rgb(150, 150, 150)
  }

  /** A score's colour is the risk-box colour of its forecast-row level: both use the same bands. */
  lemma ScoreColorAgreesWithRowLevel(score: real)
    ensures ScoreColor(score) == LevelColor(RowLevel(score))
  {
  }

  /**
   * The forecast-row level of a score in [0, 100] is the name of the configured
   * risk band holding it; bands include their lower bound and the top band 100.
   */
  lemma RowLevelIsConfiguredBand(score: real)
    requires 0.0 <= score <= 100.0
    ensures exists i :: (0 <= i < |Constants.RiskLevels|
      && RowLevel(score) == Constants.RiskLevels[i].name
      && Constants.RiskLevels[i].min as real <= score
      && (score < Constants.RiskLevels[i].max as real || i == |Constants.RiskLevels| - 1))
  {
    var bands := Constants.RiskLevels;
    if score >= 75.0 {
      assert RowLevel(score) == bands[3].name;
    } else if score >= 50.0 {
      assert RowLevel(score) == bands[2].name;
    } else if score >= 25.0 {
      assert RowLevel(score) == bands[1].name;
    } else {
      assert RowLevel(score) == bands[0].name;
    }
  }

  /** One row of the forecast table: the date, the score and its level. */
  datatype ForecastRow = ForecastRow(date: string, score: real, level: string)

  /**
   * The 7-day forecast table: none when either list is empty, otherwise one
   * row per pair of `zip(dates, scores)`.
   */
  function ForecastTable(dates: seq<string>, scores: seq<real>): (t: Option<seq<ForecastRow>>)
    ensures t.None? <==> |dates| == 0 || |scores| == 0
    ensures t.Some? ==> |t.value| == if |dates| < |scores| then |dates| else |scores|
    ensures t.Some? ==> forall i :: 0 <= i < |t.value| ==>
      t.value[i] == ForecastRow(dates[i], scores[i], RowLevel(scores[i]))
  {
    if |dates| == 0 || |scores| == 0 then None
    else
      var n := if |dates| < |scores| then |dates| else |scores|;
      Some(seq(n, i requires 0 <= i < n => ForecastRow(dates[i], scores[i], RowLevel(scores[i]))))
  }

  // --------------------------------------------------------- table header

  /** The usable page width, in millimetres, that a table header divides among its columns. */
  const PageWidth: int := 190

  function IntSum(s: seq<int>): int
  {
    if |s| == 0 then 0 else IntSum(s[..|s| - 1]) + s[|s| - 1]
  }

  lemma {:induction false} IntSumConstant(k: nat, w: int)
    ensures IntSum(seq(k, _ => w)) == k * w
  {
    if k > 0 {
      assert seq(k, _ => w)[..k - 1] == seq(k - 1, _ => w);
      IntSumConstant(k - 1, w);
    }
  }

  /**
   * The column widths of a table header with `k` columns: `190 // k` each,
   * except the last, which takes what the others leave of 190. With no
   * columns the division fails.
   */
  function HeaderWidths(k: nat): Result<seq<int>>
  {
    if k == 0 then Err("integer division or modulo by zero")
    else
      var w := PageWidth / k;
      Ok(seq(k, i requires 0 <= i < k => if i < k - 1 then w else PageWidth - (k - 1) * w))
  }

  /** The widths fill the page exactly, and the last column is wider by the remainder `190 % k`. */
  lemma HeaderWidthsFillPage(k: nat)
    ensures HeaderWidths(k).Err? <==> k == 0
    ensures HeaderWidths(k).Ok? ==> (|HeaderWidths(k).value| == k
      && IntSum(HeaderWidths(k).value) == PageWidth
      && HeaderWidths(k).value[k - 1] == PageWidth / k + PageWidth % k
      && (forall i :: 0 <= i < k - 1 ==> HeaderWidths(k).value[i] == PageWidth / k)
      && 0 <= HeaderWidths(k).value[k - 1] - PageWidth / k < k)
  {
    if k > 0 {
      var w := PageWidth / k;
      var ws := HeaderWidths(k).value;
      assert ws[..k - 1] == seq(k - 1, _ => w);
      IntSumConstant(k - 1, w);
      assert IntSum(ws) == IntSum(ws[..k - 1]) + ws[k - 1];
    }
  }

  /**
   * `_table_header`'s width computation: fills a list with `190 // len(cols)`,
   * then overwrites its last entry with 190 minus the sum of the others.
   */
  method TableHeaderWidths(cols: seq<string>) returns (r: Result<seq<int>>)
    ensures r == HeaderWidths(|cols|)
  {
    var k := |cols|;
    if k == 0 {
      return Err("integer division or modulo by zero");
    }
    var w := PageWidth / k;
    var widths := new int[k](_ => w);
    var others := 0;
    var i := 0;
    while i < k - 1
      invariant 0 <= i <= k - 1
      invariant others == i * w
      invariant forall j :: 0 <= j < k ==> widths[j] == w
    {
      others := others + widths[i];
      i := i + 1;
    }
    widths[k - 1] := PageWidth - others;
    r := Ok(widths[..]);
    assert widths[..] == HeaderWidths(k).value;
  }

  // ------------------------------------------------------- probability bar

  /** A filled rectangle on the page. */
  datatype Rect = Rect(x: real, y: real, width: int, height: real, fill: Rgb)

  /** The widest bar drawn, in millimetres. */
  const BarCap: int := 108

  /** The fill used when the colour given is not an RGB triple. */
  const DefaultBarColor: Rgb := Rgb(0, 114, 198)

  /** `_draw_bar`: no rectangle for a non-positive width, otherwise one at most 108 wide. */
  function DrawBar(x: real, y: real, width: int, height: real, color: Option<Rgb>): (bar: Option<Rect>)
    ensures bar.Some? <==> width > 0
    ensures bar.Some? ==> 0 < bar.value.width <= BarCap && bar.value.width <= width
    ensures bar.Some? && width <= BarCap ==> bar.value.width == width
    ensures bar.Some? ==> bar.value.fill == color.GetOr(DefaultBarColor)
  {
    if width > 0 then
      Some(Rect(x, y, if width < BarCap then width else BarCap, height, color.GetOr(DefaultBarColor)))
    else None
  }

  /** Python's `int(x)`: truncation toward zero. */
  function Trunc(x: real): (n: int)
    ensures x >= 0.0 ==> n as real <= x < n as real + 1.0
    ensures x < 0.0 ==> n as real - 1.0 < x <= n as real
  {
    if x >= 0.0 then x.Floor else -((-x).Floor)
  }

  /** The bar width for a class probability: `int(prob * 110)`. */
  function BarWidth(prob: real): int
  {
    Trunc(prob * 110.0)
  }

  /** A probability below 1/110 draws no bar; any probability draws at most the capped width. */
  lemma ProbabilityBar(prob: real, x: real, y: real, color: Option<Rgb>)
    requires 0.0 <= prob <= 1.0
    ensures 0 <= BarWidth(prob) <= 110
    ensures DrawBar(x, y, BarWidth(prob), 4.0, color).None? <==> prob * 110.0 < 1.0
  {
  }
}
