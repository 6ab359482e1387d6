# Emotion analysis dashboard: derived values

The speech-emotion web app shows one dashboard page for a classification
result: a confidence level, a confidence score on a 0..1 scale, and seven
per-class scores (`angry`, `calm`, `disgust`, `fearful`, `happy`, `neutral`,
`sad`). The page is markup except for a handful of pure derivations, and
these are what this project models, in module `EmotionAnalysis`
(`emotion_analysis.dfy`; `Wrappers.Option` in `wrappers.dfy` stands for the
router's optional navigation payload):

- **Input resolution.** The page uses the navigation payload if there is one.
  Otherwise it uses a fixed fallback record: level `Low`, score `0.03`,
  angry `87.91`, disgust `12.07`, neutral `0.03`, all other classes `0`.
- **Key remapping.** The seven classifier fields become a seven-entry chart
  record with renamed keys, in the fixed order happiness, confidence,
  excitement, neutral, angry, disgust, sad. The values are copied unchanged,
  although the code comment says "Normalize".
- **Colour rule.** The key `angry` is red (`#EF4444`), `disgust` is amber
  (`#F59E0B`), and every other key is blue (`#3B82F6`). The same rule is used
  for the bar chart, the donut and the legend.
- **Donut geometry.** Each slice is a circle whose dash pattern is the
  percentage followed by a gap of 100. Its dash offset is 0 for the first
  slice. For every later slice it is minus the sum of all earlier
  percentages.
- **Confidence gauge.** The ring's dash offset is `283 - score * 283`.

Percentages are exact `real`s: the model reasons about exact sums, not about
the page's floating-point rounding.

What the code does not do:
- It does no ranking or sorting. Charts walk the entries in the fixed key
  order.
- It does not clamp the confidence score, which is a 0..1 fraction.
- The fallback record is the fixed record of
  `src/pages/EmotionAnalysisPage.tsx:11-23`, listed above.
- The primary and secondary labels and the summary wording are fixed text.
  Only the three figures quoted in the summary (angry, disgust, neutral)
  come from the data. These three figures are `Dashboard.summaryFigures`.

The payload's `confidence_level` and `confidence_score` are named
`confidenceLevel` and `confidenceScore` in the model.

## Model

| member | source | states |
|---|---|---|
| `EmotionAnalysis.ResolveFallback` | src/pages/EmotionAnalysisPage.tsx:8-26 | a present payload is used unchanged; a missing one yields level Low, score 0.03, angry 87.91, disgust 12.07, neutral 0.03 and 0 for calm, fearful, happy and sad |
| `EmotionAnalysis.EmotionPercentages` | src/pages/EmotionAnalysisPage.tsx:29-37 | the chart record has exactly 7 entries in the order happiness, confidence, excitement, neutral, angry, disgust, sad, each equal to its classifier field (happy, calm, fearful, neutral, angry, disgust, sad) |
| `EmotionAnalysis.KeysDistinct` | src/pages/EmotionAnalysisPage.tsx:29-37 | the seven chart keys are pairwise different property names |
| `EmotionAnalysis.RemapRoundTrip` | src/pages/EmotionAnalysisPage.tsx:28-37 | reading every key back from the chart record gives the original classifier record: the renaming loses and rescales nothing |
| `EmotionAnalysis.LookupRemapped` | src/pages/EmotionAnalysisPage.tsx:29-37 | reading chart key number i back gives exactly the classifier field that key was copied from |
| `EmotionAnalysis.PercentagesTotal` | src/pages/EmotionAnalysisPage.tsx:28-37 | the chart values add up to the sum of the seven classifier fields, so no normalisation takes place |
| `EmotionAnalysis.Colour` | src/pages/EmotionAnalysisPage.tsx:174 | red exactly for key `angry`, amber exactly for key `disgust`, blue exactly for every other key |
| `EmotionAnalysis.ColourOfLabel` | src/pages/EmotionAnalysisPage.tsx:202 | among the seven chart keys only Angry is red, only Disgust is amber, and the other five are blue |
| `EmotionAnalysis.Values` | src/pages/EmotionAnalysisPage.tsx:205 | `Object.values` of the chart record: one value per entry, in entry order |
| `EmotionAnalysis.PrefixStep` | src/pages/EmotionAnalysisPage.tsx:205 | the running `reduce` sum over one more element grows by exactly that element |
| `EmotionAnalysis.PrefixMonotone` | src/pages/EmotionAnalysisPage.tsx:205 | over non-negative values a longer prefix never sums to less |
| `EmotionAnalysis.DashOffset` | src/pages/EmotionAnalysisPage.tsx:205 | the offset of slice `index` is minus the sum of all earlier values, uniformly for every index (the ternary's `0` for index 0 is the empty sum) |
| `EmotionAnalysis.Donut` | src/pages/EmotionAnalysisPage.tsx:195-207 | one circle per chart entry, in entry order, with the entry's key, the key's colour as stroke, the percentage as dash length, a gap of 100 and minus the sum of all earlier percentages as dash offset |
| `EmotionAnalysis.FirstOffsetZero` | src/pages/EmotionAnalysisPage.tsx:205 | the first slice starts at offset 0 |
| `EmotionAnalysis.OffsetStep` | src/pages/EmotionAnalysisPage.tsx:205 | each slice's offset is the previous offset minus the previous slice's dash length, so each slice starts where the previous one ends |
| `EmotionAnalysis.OffsetsNonIncreasing` | src/pages/EmotionAnalysisPage.tsx:205 | with non-negative percentages the offsets never increase along the record |
| `EmotionAnalysis.OffsetsWithinTotal` | src/pages/EmotionAnalysisPage.tsx:205 | with non-negative percentages every offset lies between minus the total and 0 |
| `EmotionAnalysis.DonutEnd` | src/pages/EmotionAnalysisPage.tsx:204-205 | the last slice ends at the total of all values, so the slices close the page's 100-unit circle convention exactly when the values sum to 100 |
| `EmotionAnalysis.GaugeOffset` | src/pages/EmotionAnalysisPage.tsx:91 | the offset is 283 at score 0 and 0 at score 1; it stays within [0, 283] if and only if the score is within [0, 1], since nothing clamps it |
| `EmotionAnalysis.GaugeStrictlyDecreasing` | src/pages/EmotionAnalysisPage.tsx:91 | a higher score always gives a strictly smaller gauge offset |
| `EmotionAnalysis.Bars` | src/pages/EmotionAnalysisPage.tsx:168-180 | one bar per chart entry, in entry order, with the entry's key, the percentage as height and the key's colour as background |
| `EmotionAnalysis.Legend` | src/pages/EmotionAnalysisPage.tsx:222-235 | one legend row per chart entry, in entry order, with the entry's key, the key's colour as swatch and the percentage |
| `EmotionAnalysis.Derive` | src/pages/EmotionAnalysisPage.tsx:26-235 | for every payload, present or missing, the page shows the resolved record's confidence level, the gauge offset of its confidence score, its angry, disgust and neutral figures in the summary, and charts built from its remapped emotions |
| `EmotionAnalysis.ChartsWalkSameEntries` | src/pages/EmotionAnalysisPage.tsx:168-235 | the bar chart, the donut and the legend each have 7 elements, in the same order, with the same key, the same value (the key's classifier field) and the same colour |
| `EmotionAnalysis.DefaultDashboard` | src/pages/EmotionAnalysisPage.tsx:11-26 | without a payload: gauge offset 274.51, donut offsets 0, 0, 0, 0, -0.03, -87.94, -100.01; the slices total 100.01, so the last one runs 0.01 past the page's 100-unit circle convention |

## Left out

- Markup, styling classes and the `useLocation` call. The navigation payload
  is an `Option` parameter instead.
- `src/App.tsx`. It only declares routes.
- The fixed narrative text: the words "anger", "disgust" and "neutral" in the
  summary, the "Anger" and "Disgust" badges, and "Anger" at the donut centre.
  These are constants and do not depend on the data. Only the three figures
  the summary quotes are modelled.
- Number formatting. This covers `toFixed(2)` for percentages and
  `Math.round(score * 100)` for the accuracy figure. Both are floating-point
  rendering.
- Floating-point rounding in the `reduce` sum. Sums are exact reals.
- JavaScript truthiness of other falsy payloads (`0`, `""`). The payload is
  either present or missing.
- Malformed payloads. The model assumes a present payload is well formed: it
  has `confidence_level`, `confidence_score` and an `emotions` record with all
  seven numeric fields. The page makes no such check and destructures any
  truthy payload. Without `emotions`, reading `emotions.happy` throws a
  TypeError at `src/pages/EmotionAnalysisPage.tsx:30`. A missing, null or
  string-valued emotion field makes `toFixed(2)` throw a TypeError: at
  `src/pages/EmotionAnalysisPage.tsx:127` for angry, disgust or neutral,
  otherwise at `src/pages/EmotionAnalysisPage.tsx:178` in the bar chart,
  before the donut is computed. None of these outcomes is modelled.
- The timeline curves and the "Peak happiness" note. They are fixed
  decorative paths.
- The tab and action buttons. They have no handlers.
- How the dash pattern maps onto the drawn circle. The donut circles have
  radius 25, so their circumference is about 157 units. The model works in
  dash units against the page's 100-unit convention. It does not model pi or
  the circle's real circumference.
