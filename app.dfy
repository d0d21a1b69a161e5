/**
 * The application shell (App.js): the one piece of shared state, the
 * analysis selected for `/visualization`, and the route table that decides
 * which page a path shows.
 */
module App {

  import opened Optional
  import opened Api
  import Text
  import Upload
  import History
  import Visualization

  /** What a route renders. */
  datatype Element =
    | HomeView
    | UploadView
    /** A result page, with the analysis injected by the parent and the `:id` route parameter. */
    | VisualizationView(injected: Option<Analysis>, routeId: Option<string>)
    /** `<Navigate to=... replace />`. */
    | RedirectTo(target: string, replace: bool)
    | HistoryView
    | NoRoute

  const VisualizationPrefix: string := "/visualization/"

  /** The `:id` segment of `/visualization/:id`: a non-empty segment with no further `/`. */
  function IdSegment(path: string): (seg: Option<string>)
    ensures seg.Some? <==> |path| > |VisualizationPrefix| && path[..|VisualizationPrefix|] == VisualizationPrefix
                           && '/' !in path[|VisualizationPrefix|..]
    ensures seg.Some? ==> path == VisualizationPrefix + seg.value && seg.value != []
  {
    var n := |VisualizationPrefix|;
    if |path| > n && path[..n] == VisualizationPrefix && '/' !in path[n..] then Some(path[n..]) else None
  }

  /** The route table. `/visualization` needs a selected analysis and otherwise redirects, replacing the entry, to `/upload`; `/visualization/:id` never receives one. */
  function Resolve(path: string, selected: Option<Analysis>): (e: Element)
    ensures path == "/visualization" && selected.Some? ==> e == VisualizationView(selected, None)
    ensures path == "/visualization" && selected.None? ==> e == RedirectTo("/upload", true)
    ensures IdSegment(path).Some? ==> e == VisualizationView(None, IdSegment(path))
    ensures e.VisualizationView? <==> (path == "/visualization" && selected.Some?) || IdSegment(path).Some?
    ensures e.RedirectTo? <==> path == "/visualization" && selected.None?
  {
    if path == "/" then HomeView
    else if path == "/upload" then UploadView
    else if path == "/visualization" then
      (if selected.Some? then VisualizationView(selected, None) else RedirectTo("/upload", true))
    else if IdSegment(path).Some? then VisualizationView(None, IdSegment(path))
    else if path == "/history" then HistoryView
    else NoRoute
  }

  /**
   * A history link reaches the by-id page with the right parameter, that page
   * fetches, and the server's integer converter reads back the same id,
   * whatever the selected analysis is.
   */
  lemma HistoryLinkReachesAnalysis(id: nat, selected: Option<Analysis>)
    ensures Resolve(History.VisualizationPath(id), selected) == VisualizationView(None, Some(Text.DecimalString(id)))
    ensures Visualization.NeedsFetch(None, Some(Text.DecimalString(id)))
    ensures Text.ParseDecimal(Text.DecimalString(id)) == Some(id)
  {
    var path := History.VisualizationPath(id);
    var digits := Text.DecimalString(id);
    assert path[..|VisualizationPrefix|] == VisualizationPrefix;
    assert path[|VisualizationPrefix|..] == digits;
    assert '/' !in digits by {
      forall i | 0 <= i < |digits| ensures digits[i] != '/' {
        assert Text.IsDigit(digits[i]);
      }
    }
    Text.ParseDecimalString(id);
  }

  class AppState {
    /** `selectedAnalysis`. */
    var selectedAnalysis: Option<Analysis>

    constructor ()
      ensures selectedAnalysis == None
    {
      selectedAnalysis := None;
    }

    function Element(path: string): Element
      reads this
    {
      Resolve(path, selectedAnalysis)
    }

    /** `handleViewAnalysis`: the callback both the upload and the history page receive. */
    method HandleViewAnalysis(analysis: Option<Analysis>)
      modifies this
      ensures selectedAnalysis == analysis
    {
      selectedAnalysis := analysis;
    }

    /**
     * An upload settles: the page updates itself, and on success its hand-off
     * goes through `handleViewAnalysis` and returns the route to navigate to.
     */
    method UploadSettled(page: Upload.UploadPage, outcome: Completion<Option<Analysis>>) returns (route: Option<string>)
      requires page.uploadsInFlight > 0
      modifies this, page
      ensures outcome.Replied? && outcome.reply.status == "success" ==>
                selectedAnalysis == outcome.reply.data && route == Some("/visualization")
      ensures outcome.Replied? && outcome.reply.status == "success" ==>
                Element(route.value) == if outcome.reply.data.Some? then VisualizationView(outcome.reply.data, None)
                                        else RedirectTo("/upload", true)
      ensures !(outcome.Replied? && outcome.reply.status == "success") ==>
                selectedAnalysis == old(selectedAnalysis) && route == None
      ensures !page.loading && page.uploadsInFlight == old(page.uploadsInFlight) - 1
      ensures page.file == old(page.file) && page.preview == old(page.preview)
      ensures page.dragging == old(page.dragging) && page.pendingReads == old(page.pendingReads)
      ensures outcome.Replied? && outcome.reply.status == "success" ==> page.error == old(page.error)
      ensures outcome.Replied? && outcome.reply.status != "success" ==>
                page.error == Some(MessageOr(outcome.reply.message, Upload.AnalysisFallbackMessage))
      ensures outcome.TransportFailed? ==> page.error == Some(Upload.UploadFailedMessage)
    {
      var handoff := page.SubmitCompleted(outcome);
      route := None;
      if handoff.Handoff? {
        HandleViewAnalysis(handoff.analysis);
        route := Some(handoff.route);
      }
    }

    /**
     * A history row or its view button is activated: the entry goes through
     * `handleViewAnalysis` and the by-id route is returned; an unknown id
     * changes nothing.
     */
    method HistoryActivated(page: History.HistoryPage, id: nat) returns (route: Option<string>)
      modifies this
      ensures route.None? <==> forall k :: 0 <= k < |page.history| ==> page.history[k].id != id
      ensures route.None? ==> selectedAnalysis == old(selectedAnalysis)
      ensures route.Some? ==> selectedAnalysis == History.FindById(page.history, id)
      ensures route.Some? ==> route.value == History.VisualizationPath(id)
                              && selectedAnalysis.Some? && selectedAnalysis.value.id == id
                              && selectedAnalysis.value in page.history
    {
      var activation := page.ViewAnalysis(id);
      route := None;
      if activation.Some? {
        HandleViewAnalysis(Some(activation.value.entry));
        route := Some(activation.value.route);
      }
    }
  }

  /** The page the by-id route mounts starts with no data and fetches; the selected analysis plays no part. */
  lemma {:induction false} ByIdPageIgnoresSelection(path: string, s1: Option<Analysis>, s2: Option<Analysis>)
    requires IdSegment(path).Some?
    ensures Resolve(path, s1) == Resolve(path, s2)
    ensures Resolve(path, s1).injected.None? && Visualization.NeedsFetch(Resolve(path, s1).injected, Resolve(path, s1).routeId)
  {
  }

  /**
   * Opening a `/visualization/:id` link: the shell mounts a page with no
   * analysis, the page requests the id, and the reply settles. A reply with
   * data shows the result with exactly one chart of it; a success with null
   * data replaces the initial `undefined`, so the page requests the id again;
   * a failure shows an error and no chart.
   */
  method OpenDirectLink(path: string, selected: Option<Analysis>, outcome: Completion<Option<Analysis>>)
    returns (page: Visualization.VisualizationPage)
    requires IdSegment(path).Some?
    ensures page.Valid() && page.id == IdSegment(path)
    ensures outcome.Replied? && outcome.reply.status == "success" && outcome.reply.data.Some? ==>
              page.View().ResultPage? && page.chartRef.Some?
              && page.charts == map[page.chartRef.value := Visualization.ChartFor(outcome.reply.data.value)]
    ensures outcome.Replied? && outcome.reply.status == "success" && outcome.reply.data.None? ==>
              page.loading && page.View() == Visualization.Spinner && page.charts == map[]
    ensures outcome.Replied? && outcome.reply.status != "success" ==>
              page.View().ErrorAlert? && page.charts == map[]
    ensures outcome.TransportFailed? ==>
              page.View() == Visualization.ErrorAlert(Visualization.LoadFailedMessage) && page.charts == map[]
  {
    var element := Resolve(path, selected);
    page := new Visualization.VisualizationPage(element.injected, element.routeId);
    var request := page.Mount();
    assert request.Some?;
    var again := page.FetchCompleted(outcome);
  }
}
