/**
 * The result view (VisualizationPage.js): the confidence tiers, what the page
 * renders in each state, the fetch by route id, and the Chart.js instance the
 * page owns through a ref.
 */
module Visualization {

  import opened Optional
  import opened Api

  const HighColor: string := "rgba(231, 76, 60, 0.7)"
  const MediumColor: string := "rgba(243, 156, 18, 0.7)"
  const LowColor: string := "rgba(46, 204, 113, 0.7)"

  /** `getConfidenceClass`: at least 0.7 is high, at least 0.4 is medium, anything below is low. */
  function ConfidenceClass(confidence: real): (tier: string)
    ensures tier == "high" <==> confidence >= 0.7
    ensures tier == "medium" <==> 0.4 <= confidence < 0.7
    ensures tier == "low" <==> confidence < 0.4
  {
    if confidence >= 0.7 then "high"
    else if confidence >= 0.4 then "medium"
    else "low"
  }

  /** `getConfidenceColor`: red, amber and green on the same boundaries. */
  function ConfidenceColor(confidence: real): (color: string)
    ensures color == HighColor <==> confidence >= 0.7
    ensures color == MediumColor <==> 0.4 <= confidence < 0.7
    ensures color == LowColor <==> confidence < 0.4
  {
    if confidence >= 0.7 then HighColor
    else if confidence >= 0.4 then MediumColor
    else LowColor
  }

  /** The tier a colour stands for. */
  function ColorTier(color: string): string {
    if color == HighColor then "high"
    else if color == MediumColor then "medium"
    else if color == LowColor then "low"
    else ""
  }

  /** Severity rank of a tier name: low < medium < high. */
  function Severity(tier: string): nat {
    if tier == "high" then 2 else if tier == "medium" then 1 else 0
  }

  /** The chart's bar colour and the badge always name the same tier. */
  lemma ColorMatchesClass(confidence: real)
    ensures ColorTier(ConfidenceColor(confidence)) == ConfidenceClass(confidence)
  {
  }

  /** A higher confidence never yields a lower tier. */
  lemma ClassMonotone(c1: real, c2: real)
    requires c1 <= c2
    ensures Severity(ConfidenceClass(c1)) <= Severity(ConfidenceClass(c2))
  {
  }

  /** `key.replace(/_/g, ' ')`: every underscore becomes a space, nothing else changes. */
  function Humanize(key: string): (text: string)
    ensures |text| == |key|
    ensures forall i :: 0 <= i < |key| ==> text[i] == if key[i] == '_' then ' ' else key[i]
    ensures '_' !in text
  {
    if key == [] then [] else [if key[0] == '_' then ' ' else key[0]] + Humanize(key[1..])
  }

  /** The list items of a step sequence: each key humanised, each description kept, in order. */
  function StepList(steps: seq<Step>): (items: seq<Step>)
    ensures |items| == |steps|
    ensures forall i :: 0 <= i < |items| ==> items[i] == (Humanize(steps[i].0), steps[i].1)
  {
    if steps == [] then [] else [(Humanize(steps[0].0), steps[0].1)] + StepList(steps[1..])
  }

  /**
   * The processing-step list: one item per entry of `processing_steps`, in
   * entry order; no items when the field is absent.
   */
  function StepItems(steps: Option<seq<Step>>): (items: seq<Step>)
    ensures steps.None? ==> items == []
    ensures steps.Some? ==> |items| == |steps.value|
                            && forall i :: 0 <= i < |items| ==> items[i] == (Humanize(steps.value[i].0), steps.value[i].1)
  {
    if steps.None? then [] else StepList(steps.value)
  }

  /** One block of disease guidance: a summary, symptoms and recommended actions. */
  datatype Guidance = Guidance(disease: string, summary: string, symptoms: seq<string>, actions: seq<string>)

  const BacterialLeafBlight: string := "Bacterial Leaf Blight"
  const BrownSpot: string := "Brown Spot"
  const LeafSmut: string := "Leaf Smut"

  const BlightGuidance: Guidance :=
    Guidance(BacterialLeafBlight,
    "a destructive bacterial disease that affects rice crops worldwide, especially in irrigated and rainfed lowland areas",
    ["Water-soaked yellow streaks along leaf veins", "Lesions turn white or gray as they mature",
     "Affected leaves wither and die", "Can affect the crop at any growth stage"],
    ["Use disease-resistant rice varieties", "Ensure balanced fertilization",
     "Avoid excessive nitrogen application", "Practice good field drainage"])

  const BrownSpotGuidance: Guidance :=
    Guidance(BrownSpot,
    "a fungal disease typically associated with nutrient-deficient soils, particularly potassium deficiency",
    ["Small, oval or circular brown lesions on leaves", "Dark brown spots with lighter yellow halos",
     "Spots can merge as infection progresses", "More common in stressed or nutrient-deficient plants"],
    ["Ensure proper soil fertility and potassium levels", "Apply balanced fertilizers",
     "Consider fungicide application in severe cases", "Practice crop rotation"])

  const LeafSmutGuidance: Guidance :=
    Guidance(LeafSmut,
    "a fungal disease that appears as small, black spots on rice leaves but generally causes less damage than other diseases",
    ["Small, black, slightly raised spots on both leaf surfaces", "Spots are angular to oval in shape",
     "Often appears in patches across the field", "Rarely causes significant yield loss"],
    ["Usually not severe enough to warrant specific control", "Maintain proper field sanitation",
     "Ensure balanced nutrition", "Use resistant varieties if available"])

  /** The guidance block shown for a disease label: only the three known labels, matched exactly. */
  function GuidanceFor(disease: string): (g: Option<Guidance>)
    ensures g.Some? <==> disease == BacterialLeafBlight || disease == BrownSpot || disease == LeafSmut
    ensures g.Some? ==> g.value.disease == disease
  {
    if disease == BacterialLeafBlight then Some(BlightGuidance)
    else if disease == BrownSpot then Some(BrownSpotGuidance)
    else if disease == LeafSmut then Some(LeafSmutGuidance)
    else None
  }

  /** What the page renders. Only the result page holds the chart canvas; both alerts offer a way back to upload. */
  datatype Page =
    | Spinner
    | ErrorAlert(message: string)
    | NoDataAlert
    | ResultPage(disease: string, badge: string, originalImage: Option<string>, processedImage: Option<string>,
                 steps: seq<Step>, guidance: Option<Guidance>)

  predicate HasCanvas(p: Page) {
    p.ResultPage?
  }

  /** The render: loading first, then the error, then the missing data, and only then the result. */
  function Render(loading: bool, error: Option<string>, data: Option<Analysis>): (p: Page)
    ensures loading ==> p == Spinner
    ensures !loading && Truthy(error) ==> p == ErrorAlert(error.value)
    ensures !loading && !Truthy(error) && data.None? ==> p == NoDataAlert
    ensures HasCanvas(p) <==> !loading && !Truthy(error) && data.Some?
    ensures HasCanvas(p) ==>
              var a := data.value;
              p.disease == a.diseaseClass && p.badge == ConfidenceClass(a.confidence)
              && p.originalImage == a.originalImage && p.processedImage == a.processedImage
              && p.steps == StepItems(a.processingSteps) && p.guidance == GuidanceFor(a.diseaseClass)
  {
    if loading then Spinner
    else if Truthy(error) then ErrorAlert(error.value)
    else if data.None? then NoDataAlert
    else
      var a := data.value;
      ResultPage(a.diseaseClass, ConfidenceClass(a.confidence), a.originalImage, a.processedImage,
                 StepItems(a.processingSteps), GuidanceFor(a.diseaseClass))
  }

  /** The fetch effect's guard: no data yet and an id in the route. */
  function NeedsFetch(data: Option<Analysis>, id: Option<string>): (fetch: bool)
    ensures data.Some? ==> !fetch
    ensures id.None? ==> !fetch
    ensures data.None? && id.Some? ==> fetch
  {
    data.None? && id.Some?
  }

  /** The configuration of one bar chart: the disease label, the confidence, the bar colour. */
  datatype BarChart = BarChart(datasetLabel: string, value: real, color: string)

  function ChartFor(a: Analysis): (c: BarChart)
    ensures ColorTier(c.color) == ConfidenceClass(a.confidence)
  {
    BarChart(a.diseaseClass, a.confidence, ConfidenceColor(a.confidence))
  }

  const LoadFallbackMessage: string := "Failed to load analysis"
  const LoadFailedMessage: string := "Failed to load analysis data"
  const DownloadFailedMessage: string := "Failed to download analysis results"

  /**
   * Whether a settled request makes `setData` a change React notices
   * (`Object.is`). A parsed reply is always a fresh object, so only a success
   * that sets `null` over `null` changes nothing; `undefined`, the value of
   * `data` on a page mounted without an analysis, differs from `null`.
   */
  predicate ReplySetsNewData(outcome: Completion<Option<Analysis>>, held: Option<Analysis>, heldIsNull: bool) {
    outcome.Replied? && outcome.reply.status == "success"
    && !(held.None? && heldIsNull && outcome.reply.data.None?)
  }

  class VisualizationPage {
    var data: Option<Analysis>
    /** With no data: whether `data` is `null`, set by a reply, rather than the initial `undefined`. */
    var dataIsNull: bool
    var loading: bool
    var error: Option<string>
    /** The `:id` route parameter, if the route has one. */
    var id: Option<string>
    /** The Chart.js instances alive on the canvas, by handle. */
    var charts: map<nat, BarChart>
    /** `confidenceChartInstance.current`: the handle of the last chart created; never reset. */
    var chartRef: Option<nat>
    /** The handle the next `new Chart` gets. */
    var nextHandle: nat
    /** `getAnalysis` calls whose promise has not yet settled. */
    ghost var fetchesInFlight: nat

    /** Every live chart is the one the ref holds, so at most one is alive. */
    ghost predicate Valid()
      reads this
    {
      && (forall h :: h in charts ==> chartRef == Some(h))
      && (chartRef.Some? ==> chartRef.value < nextHandle)
    }

    /** The page as mounted: `data` starts as the injected analysis, nothing is loading, no chart exists. */
    constructor (analysis: Option<Analysis>, routeId: Option<string>)
      ensures Valid()
      ensures data == analysis && !dataIsNull && !loading && error == None && id == routeId
      ensures charts == map[] && chartRef == None && fetchesInFlight == 0
    {
      data, dataIsNull, loading, error, id := analysis, false, false, None, routeId;
      charts, chartRef, nextHandle := map[], None, 0;
      fetchesInFlight := 0;
    }

    function View(): Page
      reads this
    {
      Render(loading, error, data)
    }

    lemma AtMostOneChart()
      requires Valid()
      ensures |charts| <= 1
      ensures charts != map[] ==> chartRef.Some? && charts.Keys == {chartRef.value}
    {
      if charts != map[] {
        assert charts.Keys == {chartRef.value};
      }
    }

    /**
     * The fetch effect (run on mount and whenever `data` or `id` changes):
     * only with no data and an id does it start loading, clear the error and
     * request that id.
     */
    method FetchEffect() returns (request: Option<string>)
      modifies this
      ensures NeedsFetch(old(data), old(id)) ==>
                request == old(id) && loading && error == None && fetchesInFlight == old(fetchesInFlight) + 1
      ensures !NeedsFetch(old(data), old(id)) ==>
                request == None && loading == old(loading) && error == old(error)
                && fetchesInFlight == old(fetchesInFlight)
      ensures data == old(data) && dataIsNull == old(dataIsNull) && id == old(id)
      ensures charts == old(charts) && chartRef == old(chartRef) && nextHandle == old(nextHandle)
    {
      request := None;
      if data.None? && id.Some? {
        loading := true;
        error := None;
        fetchesInFlight := fetchesInFlight + 1;
        request := id;
      }
    }

    /** Destroy the instance the ref holds, if any; destroying twice is harmless. */
    method DestroyCurrent()
      requires Valid()
      modifies this
      ensures Valid()
      ensures charts == map[]
      ensures chartRef == old(chartRef) && nextHandle == old(nextHandle)
      ensures data == old(data) && dataIsNull == old(dataIsNull) && loading == old(loading) && error == old(error) && id == old(id)
      ensures fetchesInFlight == old(fetchesInFlight)
    {
      if chartRef.Some? {
        charts := charts - {chartRef.value};
      }
      assert charts.Keys == {};
    }

    /**
     * The chart effect: with data and the canvas on the page, destroy the
     * previous instance, then create one bar chart for the data and keep its
     * handle. Otherwise nothing changes.
     */
    method ChartEffect()
      requires Valid()
      modifies this
      ensures Valid()
      ensures data.Some? && HasCanvas(View()) ==>
                chartRef == Some(old(nextHandle)) && old(nextHandle) !in old(charts)
                && charts == map[old(nextHandle) := ChartFor(data.value)]
      ensures !(data.Some? && HasCanvas(View())) ==>
                charts == old(charts) && chartRef == old(chartRef) && nextHandle == old(nextHandle)
      ensures data == old(data) && dataIsNull == old(dataIsNull) && loading == old(loading) && error == old(error) && id == old(id)
      ensures fetchesInFlight == old(fetchesInFlight)
    {
      if data.Some? && HasCanvas(View()) {
        DestroyCurrent();
        var handle := nextHandle;
        nextHandle := nextHandle + 1;
        charts := charts[handle := ChartFor(data.value)];
        chartRef := Some(handle);
      }
    }

    /** The chart effect's cleanup, run before the next run and on unmount. */
    method ChartCleanup()
      requires Valid()
      modifies this
      ensures Valid() && charts == map[]
      ensures chartRef == old(chartRef) && nextHandle == old(nextHandle)
      ensures data == old(data) && dataIsNull == old(dataIsNull) && loading == old(loading) && error == old(error) && id == old(id)
      ensures fetchesInFlight == old(fetchesInFlight)
    {
      DestroyCurrent();
    }

    /** The first commit: the fetch effect, then the chart effect. */
    method Mount() returns (request: Option<string>)
      requires Valid() && charts == map[]
      modifies this
      ensures Valid()
      ensures request.Some? <==> NeedsFetch(old(data), old(id))
      ensures request.Some? ==>
                request == old(id) && View() == Spinner && charts == map[]
                && loading && error == None && fetchesInFlight == old(fetchesInFlight) + 1
                && chartRef == old(chartRef) && nextHandle == old(nextHandle)
      ensures request.None? ==>
                loading == old(loading) && error == old(error) && fetchesInFlight == old(fetchesInFlight)
      ensures request.None? && old(data).Some? && !old(loading) && !Truthy(old(error)) ==>
                data.Some? && chartRef.Some? && charts == map[chartRef.value := ChartFor(data.value)]
      ensures request.None? && !(old(data).Some? && !old(loading) && !Truthy(old(error))) ==>
                charts == map[] && chartRef == old(chartRef) && nextHandle == old(nextHandle)
      ensures data == old(data) && dataIsNull == old(dataIsNull) && id == old(id)
    {
      var canvas := HasCanvas(View());
      request := FetchEffect();
      if canvas {
        ChartEffect();
      }
    }

    /**
     * A settled `getAnalysis`: success stores `response.data`; another status
     * shows the server's message or the fallback; a rejected promise shows the
     * generic message; loading ends. No request tag is checked, so a reply
     * settling late overwrites what an earlier one set. When the reply gives
     * `data` a new value for React, React runs the chart cleanup, then both
     * effects that depend on `data`: the fetch effect, which requests the id
     * again if the new data is empty, and the chart effect.
     */
    method FetchCompleted(outcome: Completion<Option<Analysis>>) returns (request: Option<string>)
      requires Valid() && fetchesInFlight > 0
      modifies this
      ensures Valid()
      ensures id == old(id)
      ensures outcome.Replied? && outcome.reply.status == "success" ==>
                data == outcome.reply.data && dataIsNull == outcome.reply.data.None?
      ensures !(outcome.Replied? && outcome.reply.status == "success") ==>
                data == old(data) && dataIsNull == old(dataIsNull)
      ensures request.Some? <==> ReplySetsNewData(outcome, old(data), old(dataIsNull)) && NeedsFetch(data, id)
      ensures request.Some? ==>
                request == id && loading && error == None && fetchesInFlight == old(fetchesInFlight)
                && charts == map[] && View() == Spinner
      ensures request.None? ==> !loading && fetchesInFlight == old(fetchesInFlight) - 1
      ensures request.None? && outcome.Replied? && outcome.reply.status == "success" ==> error == old(error)
      ensures outcome.Replied? && outcome.reply.status != "success" ==>
                error == Some(MessageOr(outcome.reply.message, LoadFallbackMessage))
      ensures outcome.TransportFailed? ==> error == Some(LoadFailedMessage)
      ensures ReplySetsNewData(outcome, old(data), old(dataIsNull)) && data.Some? && !Truthy(error) ==>
                chartRef.Some? && chartRef.value !in old(charts)
                && charts == map[chartRef.value := ChartFor(data.value)]
      ensures ReplySetsNewData(outcome, old(data), old(dataIsNull)) && (data.None? || Truthy(error)) ==>
                charts == map[]
      ensures !ReplySetsNewData(outcome, old(data), old(dataIsNull)) ==>
                charts == old(charts) && chartRef == old(chartRef) && nextHandle == old(nextHandle)
    {
      var changed := ReplySetsNewData(outcome, data, dataIsNull);
      match outcome {
        case Replied(reply) =>
          if reply.status == "success" {
            data := reply.data;
            dataIsNull := reply.data.None?;
          } else {
            error := Some(MessageOr(reply.message, LoadFallbackMessage));
          }
        case TransportFailed =>
          error := Some(LoadFailedMessage);
      }
      loading := false;
      fetchesInFlight := fetchesInFlight - 1;
      request := None;
      if changed {
        ChartCleanup();
        request := FetchEffect();
        ChartEffect();
      }
    }

    /**
     * The route parameter changes while the page stays mounted; the fetch
     * effect runs again, and the chart effect, which does not depend on the
     * id, does not.
     */
    method RouteChanged(routeId: Option<string>) returns (request: Option<string>)
      requires Valid() && routeId != id
      modifies this
      ensures Valid()
      ensures id == routeId
      ensures request == (if NeedsFetch(old(data), routeId) then routeId else None)
      ensures request.Some? ==> loading && error == None && fetchesInFlight == old(fetchesInFlight) + 1
      ensures request.None? ==>
                loading == old(loading) && error == old(error) && fetchesInFlight == old(fetchesInFlight)
      ensures data == old(data) && dataIsNull == old(dataIsNull)
      ensures charts == old(charts) && chartRef == old(chartRef) && nextHandle == old(nextHandle)
    {
      id := routeId;
      request := FetchEffect();
    }

    /** Unmount: the chart cleanup leaves no chart alive. */
    method Unmount()
      requires Valid()
      modifies this
      ensures Valid() && charts == map[]
      ensures data == old(data) && dataIsNull == old(dataIsNull) && loading == old(loading) && error == old(error) && id == old(id)
      ensures chartRef == old(chartRef) && nextHandle == old(nextHandle) && fetchesInFlight == old(fetchesInFlight)
    {
      ChartCleanup();
    }

    /**
     * `handleDownload`: without data nothing is requested; otherwise the
     * analysis' id is downloaded, and a failure only raises an alert. The page
     * state is not touched either way.
     */
    method Download(succeeds: bool) returns (request: Option<nat>, alert: Option<string>)
      ensures data.None? ==> request == None && alert == None
      ensures data.Some? ==> request == Some(data.value.id)
      ensures alert.Some? <==> data.Some? && !succeeds
      ensures alert.Some? ==> alert.value == DownloadFailedMessage
    {
      if data.None? {
        return None, None;
      }
      request := Some(data.value.id);
      alert := if succeeds then None else Some(DownloadFailedMessage);
    }
  }

  /** An error or a missing result never shows the chart canvas or the result. */
  lemma ErrorViewHasNoChart(loading: bool, error: Option<string>, data: Option<Analysis>)
    requires Truthy(error) || data.None? || loading
    ensures !HasCanvas(Render(loading, error, data))
  {
  }
}
