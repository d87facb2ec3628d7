/**
 * The fittings page (frontend/src/routes/FittingsPage.js): choosing a trained
 * model (a fitting) to analyse a molecule with, the details and help poppers
 * of the fitting cards, the histogram charts of the chosen fitting's labels
 * and the dialog that shows the analysis.
 */
module Fittings {
  import opened Wrappers

  /** A trained model as the backend lists it. */
  datatype Fitting = Fitting(id: string, datasetID: string, labels: seq<string>)

  /** A label's histogram: `histograms[label][0]` are the counts, `[1]` the x-axis. */
  datatype Histogram = Histogram(counts: seq<int>, xaxis: seq<string>)

  datatype ChartSeries = ChartSeries(name: string, data: seq<int>)

  /** A chart: its options (`chart.type`, `xaxis`) and its series. */
  datatype Chart = Chart(chartType: string, xaxis: seq<string>, series: seq<ChartSeries>)

  /** What a chart built for a label from its histogram is. */
  predicate IsChartOf(c: Chart, name: string, h: Histogram)
  {
    c.chartType == "bar" && c.xaxis == h.xaxis && c.series == [ChartSeries(name, h.counts)]
  }

  /**
   * The chart effect's loop: one chart per label. A label without a histogram
   * makes `histograms[label][1]` fail, and then no chart map is produced.
   */
  method BuildCharts(labels: seq<string>, histograms: map<string, Histogram>)
    returns (charts: Option<map<string, Chart>>)
    ensures charts.Some? <==> forall l :: l in labels ==> l in histograms
    ensures charts.Some? ==> charts.value.Keys == set l | l in labels
    ensures charts.Some? ==> forall l :: l in charts.value ==>
      l in histograms && IsChartOf(charts.value[l], l, histograms[l])
  {
    var newCharts: map<string, Chart> := map[];
    var i := 0;
    while i < |labels|
      invariant 0 <= i <= |labels|
      invariant forall l :: l in labels[..i] ==> l in histograms
      invariant newCharts.Keys == set l | l in labels[..i]
      invariant forall l :: l in newCharts ==> l in histograms && IsChartOf(newCharts[l], l, histograms[l])
    {
      var name := labels[i];
      if name !in histograms {
        return None;
      }
      var h := histograms[name];
      newCharts := newCharts[name := Chart("bar", h.xaxis, [ChartSeries(name, h.counts)])];
      assert labels[..i + 1] == labels[..i] + [name];
      i := i + 1;
    }
    assert labels[..i] == labels;
    return Some(newCharts);
  }

  /** The `show` argument a card click passes: open unless it is a second click on the open card. */
  function ShowOnClick(anchor: Option<int>, open: bool, target: int): (show: bool)
  {
    anchor != Some(target) || !open
  }

  /** Clicking the same card twice in a row toggles the details popper. */
  lemma SecondClickToggles(anchor: Option<int>, open: bool, target: int)
    ensures ShowOnClick(Some(target), ShowOnClick(anchor, open, target), target)
            == !ShowOnClick(anchor, open, target)
  {
  }

  // ---------------------------------------------------------------------------
  // The analysis text: `${Object.entries(response)}`
  // ---------------------------------------------------------------------------

  /** Parts joined with commas, as an array's string conversion does. */
  function Join(parts: seq<string>): string
  {
    if parts == [] then ""
    else if |parts| == 1 then parts[0]
    else parts[0] + "," + Join(parts[1..])
  }

  /** The pairs of `Object.entries`, flattened: key, value, key, value, … */
  function Flatten(entries: seq<(string, string)>): (parts: seq<string>)
    ensures |parts| == 2 * |entries|
  {
    if entries == [] then [] else [entries[0].0, entries[0].1] + Flatten(entries[1..])
  }

  /** The analysis text shown in the dialog for a response's entries. */
  function AnalysisText(entries: seq<(string, string)>): string
  {
    Join(Flatten(entries))
  }

  /** Splits a text at every comma; the inverse of Join for comma-free parts. */
  function Split(s: string): (parts: seq<string>)
    ensures |parts| >= 1
  {
    if s == [] then [""]
    else if s[0] == ',' then [""] + Split(s[1..])
    else var rest := Split(s[1..]); [[s[0]] + rest[0]] + rest[1..]
  }

  predicate CommaFree(parts: seq<string>)
  {
    forall p :: p in parts ==> ',' !in p
  }

  lemma {:induction false} SplitWord(w: string, rest: string)
    requires ',' !in w
    ensures Split(w + rest) == [w + Split(rest)[0]] + Split(rest)[1..]
  {
    if w != [] {
      assert (w + rest)[0] == w[0];
      assert (w + rest)[1..] == w[1..] + rest;
      SplitWord(w[1..], rest);
      assert [w[0]] + (w[1..] + Split(rest)[0]) == w + Split(rest)[0];
    } else {
      assert w + rest == rest;
      assert w + Split(rest)[0] == Split(rest)[0];
    }
  }

  /** Joining comma-free parts and splitting the text gives the parts back. */
  lemma {:induction false} SplitJoin(parts: seq<string>)
    requires |parts| >= 1 && CommaFree(parts)
    ensures Split(Join(parts)) == parts
  {
    assert parts[0] in parts;
    if |parts| == 1 {
      SplitWord(parts[0], "");
      assert parts[0] + "" == parts[0];
    } else {
      forall p | p in parts[1..] ensures ',' !in p {
        assert p in parts;
      }
      SplitJoin(parts[1..]);
      var tail := "," + Join(parts[1..]);
      assert Join(parts) == parts[0] + tail;
      SplitWord(parts[0], tail);
      assert tail[0] == ',' && tail[1..] == Join(parts[1..]);
      assert Split(tail) == [""] + parts[1..];
      assert parts[0] + "" == parts[0];
    }
  }

  /**
   * The analysis text lists every key and value of the response, in order:
   * when no key or value holds a comma, it splits back into them.
   */
  lemma AnalysisTextReadsBack(entries: seq<(string, string)>)
    requires entries != [] && CommaFree(Flatten(entries))
    ensures Split(AnalysisText(entries)) == Flatten(entries)
  {
    SplitJoin(Flatten(entries));
  }

  // ---------------------------------------------------------------------------
  // The page's state
  // ---------------------------------------------------------------------------

  /** Calls the page makes on the REST client, in order. */
  datatype Request =
    | GetFittings
    | GetHistograms(datasetID: string, labels: seq<string>)
    | AnalyzeMolecule(fittingID: string, smiles: string)

  /** The details popper's content. */
  datatype Content = PlaceholderContent | FittingDetails(fitting: Fitting)

  /**
   * What the page renders: the placeholder card, the grid of fitting cards,
   * or nothing because rendering fails (`charts.map` on the chart object).
   */
  datatype View =
    | NoFittingsCard
    | CardGrid(cards: seq<Fitting>, detailsOpen: bool, helpOpen: bool, dialogOpen: bool)
    | RenderFails

  /** DOM elements are told apart by identity; the model numbers them. */
  type Element = int

  class FittingsPage {
    const selectedSmiles: string
    var fittingArray: seq<Fitting>
    var open: bool
    var content: Content
    var anchor: Option<Element>
    var openDialog: bool
    var analysis: string
    var selectedFitting: Option<Fitting>   // None is the empty object `{}`
    var charts: Option<map<string, Chart>>   // None is the initial empty array
    var histograms: map<string, Histogram>
    var helpAnchorEl: Option<Element>
    var helpPopperContent: string
    var requests: seq<Request>
    var navigations: seq<string>

    /** Charts are built, and the result dialog opened, only once a fitting was selected. */
    ghost predicate Valid()
      reads this
    {
      (charts.Some? || openDialog) ==> selectedFitting.Some?
    }

    /** Mounting the page: initial state, and the fittings are requested. */
    constructor (smiles: string)
      ensures Valid()
      ensures selectedSmiles == smiles && fittingArray == [] && !open && content == PlaceholderContent
      ensures anchor == None && !openDialog && analysis == "" && selectedFitting == None
      ensures charts == None && histograms == map[] && helpAnchorEl == None && helpPopperContent == ""
      ensures requests == [GetFittings] && navigations == []
    {
      selectedSmiles := smiles;
      fittingArray := [];
      open := false;
      content := PlaceholderContent;
      anchor := None;
      openDialog := false;
      analysis := "";
      selectedFitting := None;
      charts := None;
      histograms := map[];
      helpAnchorEl := None;
      helpPopperContent := "";
      requests := [GetFittings];
      navigations := [];
    }

    /** The fittings arrive from the backend. */
    method FittingsArrived(fittings: seq<Fitting>)
      modifies this`fittingArray
      ensures fittingArray == fittings
    {
      fittingArray := fittings;
    }

    /**
     * The placeholder is rendered exactly when there is no fitting. The grid
     * maps over `charts` in every fitting's dialog: that works on the initial
     * empty array, but once a chart object has been built it fails. The
     * result dialog is never shown before a fitting was selected.
     */
    function Render(): (v: View)
      reads this
      requires Valid()
      ensures v.NoFittingsCard? <==> |fittingArray| == 0
      ensures v.RenderFails? <==> |fittingArray| > 0 && charts.Some?
      ensures v.RenderFails? ==> selectedFitting.Some?
      ensures v.CardGrid? ==>
        v.cards == fittingArray && v.detailsOpen == open &&
        v.helpOpen == HelpOpen() && v.dialogOpen == openDialog
      ensures v.CardGrid? && v.dialogOpen ==> selectedFitting.Some?
    {
      if |fittingArray| == 0 then NoFittingsCard
      else if charts.Some? then RenderFails
      else CardGrid(fittingArray, open, HelpOpen(), openDialog)
    }

    /**
     * A click on a card: the content is replaced and the card becomes the
     * anchor; the popper is open unless this was a second click on the card
     * it is open at.
     */
    method ClickCard(target: Element, fitting: Fitting)
      modifies this`content, this`anchor, this`open
      ensures content == FittingDetails(fitting) && anchor == Some(target)
      ensures open <==> old(anchor) != Some(target) || !old(open)
    {
      var show := ShowOnClick(anchor, open, target);
      content := FittingDetails(fitting);
      anchor := Some(target);
      open := show;
    }

    /** handleHelpPopperOpen: only in help mode does hovering anchor the help popper. */
    method HelpPopperOpen(target: Element, text: string, helpMode: bool)
      modifies this`helpAnchorEl, this`helpPopperContent
      ensures helpMode ==> helpAnchorEl == Some(target) && helpPopperContent == text
      ensures !helpMode ==>
        helpAnchorEl == old(helpAnchorEl) && helpPopperContent == old(helpPopperContent)
    {
      if helpMode {
        helpAnchorEl := Some(target);
        helpPopperContent := text;
      }
    }

    /** handleHelpPopperClose. */
    method HelpPopperClose()
      modifies this`helpAnchorEl
      ensures helpAnchorEl == None && !HelpOpen()
    {
      helpAnchorEl := None;
    }

    /** `helpOpen`: the help popper is open exactly when it has an anchor. */
    function HelpOpen(): bool
      reads this
    {
      helpAnchorEl.Some?
    }

    /**
     * handleFittingSelection: the fitting is recorded and the analysis
     * requested. The histogram effect then runs if the selected dataset
     * changed, and requests the histograms of the fitting's labels.
     */
    method HandleFittingSelection(fitting: Fitting)
      requires Valid()
      modifies this`selectedFitting, this`requests
      ensures Valid()
      ensures selectedFitting == Some(fitting)
      ensures var analyze := [AnalyzeMolecule(fitting.id, selectedSmiles)];
        if old(selectedFitting) == None || old(selectedFitting).value.datasetID != fitting.datasetID
        then requests == old(requests) + analyze + [GetHistograms(fitting.datasetID, fitting.labels)]
        else requests == old(requests) + analyze
    {
      var previous := selectedFitting;
      selectedFitting := Some(fitting);
      requests := requests + [AnalyzeMolecule(fitting.id, selectedSmiles)];
      if previous == None || previous.value.datasetID != fitting.datasetID {
        requests := requests + [GetHistograms(fitting.datasetID, fitting.labels)];
      }
    }

    /**
     * The histograms response: only a non-null one replaces the histograms,
     * and then the chart effect rebuilds the chart map if a fitting is
     * selected. A selected label without a histogram makes the effect fail
     * (`threw`), and the old chart map stays.
     */
    method HistogramsArrived(response: Option<map<string, Histogram>>) returns (threw: bool)
      requires Valid()
      modifies this`histograms, this`charts
      ensures Valid()
      ensures threw <==>
        response.Some? && selectedFitting.Some? &&
        exists l :: l in selectedFitting.value.labels && l !in response.value
      ensures response.None? ==> histograms == old(histograms) && charts == old(charts)
      ensures response.Some? ==> histograms == response.value
      ensures selectedFitting.None? || threw ==> charts == old(charts)
      ensures response.Some? && selectedFitting.Some? && !threw ==>
        var labels := selectedFitting.value.labels;
        charts.Some? && charts.value.Keys == (set l | l in labels) &&
        forall l :: l in charts.value ==> IsChartOf(charts.value[l], l, histograms[l])
    {
      threw := false;
      if response.Some? {
        histograms := response.value;
        if selectedFitting.Some? {
          var built := BuildCharts(selectedFitting.value.labels, histograms);
          if built.Some? {
            charts := built;
          } else {
            threw := true;
          }
        }
      }
    }

    /** The analysis response arrives: its text is set and the result dialog opened. */
    method AnalysisArrived(response: seq<(string, string)>)
      requires Valid() && selectedFitting.Some?
      modifies this`analysis, this`openDialog
      ensures Valid()
      ensures analysis == AnalysisText(response) && openDialog
    {
      analysis := AnalysisText(response);
      openDialog := true;
    }

    /** handleCloseDialog: "Remain here". */
    method HandleCloseDialog()
      requires Valid()
      modifies this`openDialog
      ensures Valid() && !openDialog
    {
      openDialog := false;
    }

    /** handleGoToMol: the dialog is closed, then the molecules page is opened. */
    method HandleGoToMol()
      requires Valid()
      modifies this`openDialog, this`navigations
      ensures Valid() && !openDialog
      ensures navigations == old(navigations) + ["/molecules"]
    {
      openDialog := false;
      navigations := navigations + ["/molecules"];
    }

    /** handleClick: the placeholder card leads to the base models. */
    method HandleClick()
      modifies this`navigations
      ensures navigations == old(navigations) + ["/models/base-models"]
    {
      navigations := navigations + ["/models/base-models"];
    }
  }
}
