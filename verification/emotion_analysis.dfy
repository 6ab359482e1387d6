/**
 * The values the emotion-analysis dashboard derives from one classification
 * result: the fallback when the router brings none, the renamed percentage
 * record every chart walks, the per-key colour, the donut's dash geometry
 * and the confidence gauge's dash offset.
 *
 * Percentages and scores are exact reals; the page's floating-point sums
 * and its number formatting are not part of this model.
 */
module EmotionAnalysis {
  import opened Wrappers

  // ---------------------------------------------------------------------
  // Input: the classifier's result and the page's fallback record
  // ---------------------------------------------------------------------

  /** The seven per-class scores of one classification, in percent. */
  datatype Emotions = Emotions(
    angry: real, calm: real, disgust: real, fearful: real,
    happy: real, neutral: real, sad: real)

  /**
   * One classification result as the page destructures it; `confidenceLevel`
   * and `confidenceScore` are the payload's `confidence_level` and
   * `confidence_score`.
   */
  datatype AnalysisResult = AnalysisResult(
    confidenceLevel: string, confidenceScore: real, emotions: Emotions)

  /** The record shown when no result arrives with the navigation. */
  const DefaultData: AnalysisResult :=
    AnalysisResult("Low", 0.03,
      Emotions(angry := 87.91, calm := 0.0, disgust := 12.07, fearful := 0.0,
               happy := 0.0, neutral := 0.03, sad := 0.0))

  /** `analysisResult || defaultData`: the navigation payload if present. */
  function Resolve(analysisResult: Option<AnalysisResult>): AnalysisResult {
    match analysisResult
    case Some(r) => r
    case None => DefaultData
  }

  /** A payload is used as it is; a missing one yields the fallback record field by field. */
  lemma ResolveFallback(analysisResult: Option<AnalysisResult>)
    ensures analysisResult.Some? ==> Resolve(analysisResult) == analysisResult.value
    ensures analysisResult.None? ==>
      var r := Resolve(analysisResult);
      && r.confidenceLevel == "Low" && r.confidenceScore == 0.03
      && r.emotions.angry == 87.91 && r.emotions.disgust == 12.07
      && r.emotions.neutral == 0.03
      && r.emotions.calm == 0.0 && r.emotions.fearful == 0.0
      && r.emotions.happy == 0.0 && r.emotions.sad == 0.0
  {
  }

  // ---------------------------------------------------------------------
  // The renamed percentage record the charts walk
  // ---------------------------------------------------------------------

  /** The seven keys of the chart record. */
  datatype Label = Happiness | Confidence | Excitement | Neutral | Angry | Disgust | Sad

  /** The property name a label has in the chart record. */
  function Key(l: Label): string {
    match l
    case Happiness => "happiness"
    case Confidence => "confidence"
    case Excitement => "excitement"
    case Neutral => "neutral"
    case Angry => "angry"
    case Disgust => "disgust"
    case Sad => "sad"
  }

  /** The order in which the chart record's entries are enumerated. */
  const KeyOrder: seq<Label> := [Happiness, Confidence, Excitement, Neutral, Angry, Disgust, Sad]

  /** The classifier field each chart key is read from. */
  function SourceField(e: Emotions, l: Label): real {
    match l
    case Happiness => e.happy
    case Confidence => e.calm
    case Excitement => e.fearful
    case Neutral => e.neutral
    case Angry => e.angry
    case Disgust => e.disgust
    case Sad => e.sad
  }

  /** No two chart keys share a property name. */
  lemma KeysDistinct()
    ensures forall i, j :: 0 <= i < j < |KeyOrder| ==> Key(KeyOrder[i]) != Key(KeyOrder[j])
  {
  }

  /**
   * The chart record: seven entries in enumeration order, each carrying its
   * classifier field unchanged.
   */
  function EmotionPercentages(e: Emotions): (p: seq<(Label, real)>)
    ensures |p| == |KeyOrder| == 7
    ensures forall i :: 0 <= i < |p| ==> p[i].0 == KeyOrder[i] && p[i].1 == SourceField(e, KeyOrder[i])
  {
    [(Happiness, e.happy), (Confidence, e.calm), (Excitement, e.fearful),
     (Neutral, e.neutral), (Angry, e.angry), (Disgust, e.disgust), (Sad, e.sad)]
  }

  /** No entry before position `i` carries label `l`. */
  predicate FirstWith(p: seq<(Label, real)>, l: Label, i: nat) {
    forall j :: 0 <= j < i && j < |p| ==> p[j].0 != l
  }

  /** Property access on the chart record: the value of the first entry with label `l`. */
  function Lookup(p: seq<(Label, real)>, l: Label): (v: Option<real>)
    ensures v.Some? <==> exists i :: 0 <= i < |p| && p[i].0 == l
    ensures v.Some? ==> exists i :: 0 <= i < |p| && p[i] == (l, v.value) && FirstWith(p, l, i)
  {
    if |p| == 0 then None
    else if p[0].0 == l then Some(p[0].1)
    else
      var v := Lookup(p[1..], l);
      assert forall i :: 1 <= i < |p| ==> p[i] == p[1..][i - 1];
      v
  }

  /** Reads a chart record back into classifier fields; None if a key is missing. */
  function Restore(p: seq<(Label, real)>): Option<Emotions> {
    var happy, calm, fearful := Lookup(p, Happiness), Lookup(p, Confidence), Lookup(p, Excitement);
    var neutral, angry, disgust, sad := Lookup(p, Neutral), Lookup(p, Angry), Lookup(p, Disgust), Lookup(p, Sad);
    if happy.Some? && calm.Some? && fearful.Some? && neutral.Some?
       && angry.Some? && disgust.Some? && sad.Some?
    then Some(Emotions(angry := angry.value, calm := calm.value, disgust := disgust.value,
                       fearful := fearful.value, happy := happy.value, neutral := neutral.value,
                       sad := sad.value))
    else None
  }

  /** Lookup finds the entry of a label that sits at position `i` and nowhere earlier. */
  lemma {:induction false} LookupAt(p: seq<(Label, real)>, i: nat)
    requires i < |p|
    requires forall j :: 0 <= j < i ==> p[j].0 != p[i].0
    ensures Lookup(p, p[i].0) == Some(p[i].1)
  {
    if i > 0 {
      assert p[1..][i - 1] == p[i];
      LookupAt(p[1..], i - 1);
    }
  }

  /**
   * The renaming loses nothing and rescales nothing: every classifier field
   * can be read back from the chart record under its new key.
   */
  lemma RemapRoundTrip(e: Emotions)
    ensures Restore(EmotionPercentages(e)) == Some(e)
  {
    LookupRemapped(e, 0); LookupRemapped(e, 1); LookupRemapped(e, 2); LookupRemapped(e, 3);
    LookupRemapped(e, 4); LookupRemapped(e, 5); LookupRemapped(e, 6);
  }

  /** Each chart key reads back the classifier field it was copied from. */
  lemma LookupRemapped(e: Emotions, i: nat)
    requires i < |KeyOrder|
    ensures Lookup(EmotionPercentages(e), KeyOrder[i]) == Some(SourceField(e, KeyOrder[i]))
  {
    var p := EmotionPercentages(e);
    forall j | 0 <= j < i ensures p[j].0 != p[i].0 {
      assert p[j].0 == KeyOrder[j] && p[i].0 == KeyOrder[i];
    }
    LookupAt(p, i);
  }

  // ---------------------------------------------------------------------
  // Colour rule shared by the bar chart, the donut and the legend
  // ---------------------------------------------------------------------

  const AngryRed := "#EF4444"
  const DisgustAmber := "#F59E0B"
  const DefaultBlue := "#3B82F6"

  /** Red for the key `angry`, amber for `disgust`, blue for any other key. */
  function Colour(key: string): (c: string)
    ensures c == AngryRed <==> key == "angry"
    ensures c == DisgustAmber <==> key == "disgust"
    ensures c == DefaultBlue <==> key != "angry" && key != "disgust"
  {
    if key == "angry" then AngryRed
    else if key == "disgust" then DisgustAmber
    else DefaultBlue
  }

  /** Over the chart record's labels only Angry is red and only Disgust is amber. */
  lemma ColourOfLabel(l: Label)
    ensures Colour(Key(l)) == AngryRed <==> l == Angry
    ensures Colour(Key(l)) == DisgustAmber <==> l == Disgust
    ensures Colour(Key(l)) == DefaultBlue <==> l !in {Angry, Disgust}
  {
  }

  // ---------------------------------------------------------------------
  // Prefix sums (the page's `reduce((a, b) => a + b, 0)`)
  // ---------------------------------------------------------------------

  /** Left fold of `+` from 0, in enumeration order. */
  function Sum(s: seq<real>): real {
    if |s| == 0 then 0.0 else Sum(s[..|s| - 1]) + s[|s| - 1]
  }

  predicate NonNegative(s: seq<real>) {
    forall k :: 0 <= k < |s| ==> s[k] >= 0.0
  }

  /** Extending a prefix by one element adds that element. */
  lemma PrefixStep(s: seq<real>, i: nat)
    requires i < |s|
    ensures Sum(s[..i + 1]) == Sum(s[..i]) + s[i]
  {
    assert s[..i + 1][..i] == s[..i];
  }

  /** Over non-negative values a longer prefix never sums to less. */
  lemma {:induction false} PrefixMonotone(s: seq<real>, i: nat, j: nat)
    requires NonNegative(s)
    requires i <= j <= |s|
    ensures Sum(s[..i]) <= Sum(s[..j])
  {
    if i < j {
      PrefixMonotone(s, i, j - 1);
      PrefixStep(s, j - 1);
    }
  }

  /** The seven prefix sums of a seven-entry sequence, written out. */
  lemma PrefixSums(s: seq<real>)
    requires |s| == 7
    ensures Sum(s[..0]) == 0.0
    ensures Sum(s[..1]) == s[0]
    ensures Sum(s[..2]) == s[0] + s[1]
    ensures Sum(s[..3]) == s[0] + s[1] + s[2]
    ensures Sum(s[..4]) == s[0] + s[1] + s[2] + s[3]
    ensures Sum(s[..5]) == s[0] + s[1] + s[2] + s[3] + s[4]
    ensures Sum(s[..6]) == s[0] + s[1] + s[2] + s[3] + s[4] + s[5]
    ensures Sum(s[..7]) == s[0] + s[1] + s[2] + s[3] + s[4] + s[5] + s[6]
  {
    PrefixStep(s, 0); PrefixStep(s, 1); PrefixStep(s, 2); PrefixStep(s, 3);
    PrefixStep(s, 4); PrefixStep(s, 5); PrefixStep(s, 6);
  }

  /** `Object.values` of the chart record, in enumeration order. */
  function Values(p: seq<(Label, real)>): (vs: seq<real>)
    ensures |vs| == |p|
    ensures forall i :: 0 <= i < |p| ==> vs[i] == p[i].1
  {
    seq(|p|, i requires 0 <= i < |p| => p[i].1)
  }

  /** The seven entries add up to the seven classifier fields: nothing is renormalised. */
  lemma PercentagesTotal(e: Emotions)
    ensures Sum(Values(EmotionPercentages(e)))
         == e.happy + e.calm + e.fearful + e.neutral + e.angry + e.disgust + e.sad
  {
    var vs := Values(EmotionPercentages(e));
    PrefixSums(vs);
    assert vs[..7] == vs;
  }

  // ---------------------------------------------------------------------
  // Donut slices
  // ---------------------------------------------------------------------

  /**
   * The dash offset of slice `index`: 0 for the first slice, otherwise the
   * negated sum of all earlier slices' values.
   */
  function DashOffset(values: seq<real>, index: nat): (offset: real)
    requires index < |values|
    ensures offset == -Sum(values[..index])
  {
    if index == 0 then 0.0 else -Sum(values[..index])
  }

  /** One donut circle: colour, dash (the percentage), gap (100) and dash offset. */
  datatype DonutSlice = DonutSlice(
    key: string, stroke: string, dashLength: real, dashGap: real, dashOffset: real)

  function SliceAt(p: seq<(Label, real)>, index: nat): DonutSlice
    requires index < |p|
  {
    var key := Key(p[index].0);
    DonutSlice(key, Colour(key), p[index].1, 100.0, DashOffset(Values(p), index))
  }

  /** One circle per chart entry, in enumeration order. */
  function Donut(p: seq<(Label, real)>): (slices: seq<DonutSlice>)
    ensures |slices| == |p|
    ensures forall i :: 0 <= i < |p| ==>
      (slices[i].key == Key(p[i].0) && slices[i].stroke == Colour(Key(p[i].0))
       && slices[i].dashLength == p[i].1 && slices[i].dashGap == 100.0
       && slices[i].dashOffset == -Sum(Values(p)[..i]))
  {
    seq(|p|, i requires 0 <= i < |p| => SliceAt(p, i))
  }

  /** The first slice starts at offset 0. */
  lemma FirstOffsetZero(p: seq<(Label, real)>)
    requires |p| > 0
    ensures Donut(p)[0].dashOffset == 0.0
  {
  }

  /**
   * Each slice starts where the previous one ends: its offset is the
   * previous offset minus the previous slice's dash length.
   */
  lemma OffsetStep(p: seq<(Label, real)>, i: nat)
    requires i + 1 < |p|
    ensures Donut(p)[i + 1].dashOffset == Donut(p)[i].dashOffset - Donut(p)[i].dashLength
  {
    PrefixStep(Values(p), i);
  }

  /** With non-negative percentages the offsets never increase along the record. */
  lemma OffsetsNonIncreasing(p: seq<(Label, real)>, i: nat, j: nat)
    requires NonNegative(Values(p))
    requires i <= j < |p|
    ensures Donut(p)[j].dashOffset <= Donut(p)[i].dashOffset
  {
    assert Donut(p)[i] == SliceAt(p, i) && Donut(p)[j] == SliceAt(p, j);
    PrefixMonotone(Values(p), i, j);
  }

  /** With non-negative percentages every offset lies between minus the total and 0. */
  lemma OffsetsWithinTotal(p: seq<(Label, real)>, i: nat)
    requires NonNegative(Values(p))
    requires i < |p|
    ensures -Sum(Values(p)) <= Donut(p)[i].dashOffset <= 0.0
  {
    var vs := Values(p);
    PrefixMonotone(vs, 0, i);
    PrefixMonotone(vs, i, |vs|);
    assert vs[..|vs|] == vs;
  }

  /**
   * The last slice ends at the total of all values, so the slices close the
   * page's 100-unit circle convention exactly when the values add up to 100.
   */
  lemma DonutEnd(p: seq<(Label, real)>)
    requires |p| > 0
    ensures -Donut(p)[|p| - 1].dashOffset + Donut(p)[|p| - 1].dashLength == Sum(Values(p))
    ensures -Donut(p)[|p| - 1].dashOffset + Donut(p)[|p| - 1].dashLength == 100.0
        <==> Sum(Values(p)) == 100.0
  {
    var vs := Values(p);
    PrefixStep(vs, |p| - 1);
    assert vs[..|p|] == vs;
  }

  // ---------------------------------------------------------------------
  // Confidence gauge
  // ---------------------------------------------------------------------

  /** Length of the gauge ring's dash pattern (2 * pi * 45, rounded by the page). */
  const GaugeCircumference := 283.0

  /**
   * The gauge's dash offset, `283 - score * 283`. The score is on a 0..1
   * scale and is not clamped: only scores in [0, 1] keep the offset on the ring.
   */
  function GaugeOffset(score: real): (offset: real)
    ensures 0.0 <= offset <= GaugeCircumference <==> 0.0 <= score <= 1.0
    ensures score == 0.0 ==> offset == GaugeCircumference
    ensures score == 1.0 ==> offset == 0.0
  {
    GaugeCircumference - score * GaugeCircumference
  }

  /** A higher score always leaves a shorter uncovered part of the ring. */
  lemma GaugeStrictlyDecreasing(a: real, b: real)
    requires a < b
    ensures GaugeOffset(b) < GaugeOffset(a)
  {
  }

  // ---------------------------------------------------------------------
  // The dashboard as a whole
  // ---------------------------------------------------------------------

  /** One bar: its height is the percentage, its fill the key's colour. */
  datatype BarColumn = BarColumn(key: string, heightPercent: real, background: string)

  /** One legend row: swatch colour and shown percentage. */
  datatype LegendEntry = LegendEntry(key: string, swatch: string, percentage: real)

  /**
   * Everything the page computes from its input. `summaryFigures` are the
   * angry, disgust and neutral values quoted in the fixed summary sentence.
   */
  datatype Dashboard = Dashboard(
    confidenceLevel: string,
    gaugeOffset: real,
    summaryFigures: (real, real, real),
    bars: seq<BarColumn>,
    slices: seq<DonutSlice>,
    legend: seq<LegendEntry>)

  /** One bar per chart entry, in enumeration order. */
  function Bars(p: seq<(Label, real)>): (bars: seq<BarColumn>)
    ensures |bars| == |p|
    ensures forall i :: 0 <= i < |p| ==>
      (bars[i].key == Key(p[i].0) && bars[i].heightPercent == p[i].1
       && bars[i].background == Colour(Key(p[i].0)))
  {
    seq(|p|, i requires 0 <= i < |p| => BarColumn(Key(p[i].0), p[i].1, Colour(Key(p[i].0))))
  }

  /** One legend row per chart entry, in enumeration order. */
  function Legend(p: seq<(Label, real)>): (legend: seq<LegendEntry>)
    ensures |legend| == |p|
    ensures forall i :: 0 <= i < |p| ==>
      (legend[i].key == Key(p[i].0) && legend[i].swatch == Colour(Key(p[i].0))
       && legend[i].percentage == p[i].1)
  {
    seq(|p|, i requires 0 <= i < |p| => LegendEntry(Key(p[i].0), Colour(Key(p[i].0)), p[i].1))
  }

  /** The page's derivation from the (optional) navigation payload. */
  function Derive(analysisResult: Option<AnalysisResult>): (d: Dashboard)
    ensures var r := Resolve(analysisResult);
      && d.confidenceLevel == r.confidenceLevel
      && d.gaugeOffset == GaugeOffset(r.confidenceScore)
      && d.summaryFigures == (r.emotions.angry, r.emotions.disgust, r.emotions.neutral)
      && d.bars == Bars(EmotionPercentages(r.emotions))
      && d.slices == Donut(EmotionPercentages(r.emotions))
      && d.legend == Legend(EmotionPercentages(r.emotions))
  {
    var r := Resolve(analysisResult);
    var p := EmotionPercentages(r.emotions);
    Dashboard(
      r.confidenceLevel,
      GaugeOffset(r.confidenceScore),
      (r.emotions.angry, r.emotions.disgust, r.emotions.neutral),
      Bars(p), Donut(p), Legend(p))
  }

  /**
   * The bar chart, the donut and the legend each have one element per chart
   * entry, seven in all, in the same order, with the same key, value and colour;
   * the value is the classifier field the key is read from.
   */
  lemma ChartsWalkSameEntries(analysisResult: Option<AnalysisResult>)
    ensures var d := Derive(analysisResult);
      && |d.bars| == |d.slices| == |d.legend| == 7
      && forall i :: 0 <= i < 7 ==>
        var e := Resolve(analysisResult).emotions;
        && d.bars[i].key == d.slices[i].key == d.legend[i].key == Key(KeyOrder[i])
        && d.bars[i].heightPercent == d.slices[i].dashLength == d.legend[i].percentage
           == SourceField(e, KeyOrder[i])
        && d.bars[i].background == d.slices[i].stroke == d.legend[i].swatch
           == Colour(Key(KeyOrder[i]))
  {
  }

  /**
   * Without a payload: the gauge offset is 274.51, the donut offsets are
   * 0, 0, 0, 0, -0.03, -87.94, -100.01, and the slices add up to 100.01, so
   * the last one runs 0.01 past the page's 100-unit circle convention.
   */
  lemma DefaultDashboard()
    ensures var d := Derive(None);
      && d.confidenceLevel == "Low"
      && d.gaugeOffset == 274.51
      && d.summaryFigures == (87.91, 12.07, 0.03)
      && |d.slices| == 7
      && d.slices[0].dashOffset == 0.0 && d.slices[1].dashOffset == 0.0
      && d.slices[2].dashOffset == 0.0 && d.slices[3].dashOffset == 0.0
      && d.slices[4].dashOffset == -0.03 && d.slices[5].dashOffset == -87.94
      && d.slices[6].dashOffset == -100.01
      && -d.slices[6].dashOffset + d.slices[6].dashLength == 100.01
  {
    PrefixSums(Values(EmotionPercentages(DefaultData.emotions)));
  }
}
