/**
 * The history list (HistoryPage.js): the disease/filename filter, row
 * activation by id, the confidence badge, the empty-state text, the load
 * states, and which handlers a click in a row reaches.
 */
module History {

  import opened Optional
  import opened Api
  import Text
  import Visualization

  /** `filteredHistory`'s test: the disease filter, then the case-insensitive filename search. */
  function Matches(item: Analysis, filterType: string, searchTerm: string): (ok: bool)
    ensures ok <==> (filterType == "all" || item.diseaseClass == filterType)
                    && (searchTerm == "" || Text.Contains(Text.Lower(item.filename), Text.Lower(searchTerm)))
  {
    if filterType != "all" && item.diseaseClass != filterType then false
    else if searchTerm != "" && !Text.Contains(Text.Lower(item.filename), Text.Lower(searchTerm)) then false
    else true
  }

  /** `history.filter(...)`. */
  function Filter(items: seq<Analysis>, filterType: string, searchTerm: string): (kept: seq<Analysis>)
    ensures |kept| <= |items|
    ensures forall x :: x in kept <==> x in items && Matches(x, filterType, searchTerm)
    ensures forall x :: multiset(kept)[x] == if Matches(x, filterType, searchTerm) then multiset(items)[x] else 0
  {
    if items == [] then []
    else
      var rest := Filter(items[1..], filterType, searchTerm);
      assert items == [items[0]] + items[1..];
      if Matches(items[0], filterType, searchTerm) then [items[0]] + rest else rest
  }

  /** `sub` is `full` with some entries left out, the rest in their original order. */
  predicate IsSubsequence<T(==)>(sub: seq<T>, full: seq<T>)
    decreases |full|
  {
    if sub == [] then true
    else if full == [] then false
    else if sub[0] == full[0] then IsSubsequence(sub[1..], full[1..])
    else IsSubsequence(sub, full[1..])
  }

  /** Filtering keeps the order of the history. */
  lemma {:induction false} FilterIsSubsequence(items: seq<Analysis>, filterType: string, searchTerm: string)
    ensures IsSubsequence(Filter(items, filterType, searchTerm), items)
  {
    if items != [] {
      FilterIsSubsequence(items[1..], filterType, searchTerm);
      var rest := Filter(items[1..], filterType, searchTerm);
      if Matches(items[0], filterType, searchTerm) {
        assert ([items[0]] + rest)[1..] == rest;
      } else {
        SubsequenceOfTail(rest, items);
      }
    }
  }

  /** A subsequence of the tail is a subsequence of the whole. */
  lemma {:induction false} SubsequenceOfTail<T>(sub: seq<T>, full: seq<T>)
    requires full != [] && IsSubsequence(sub, full[1..])
    ensures IsSubsequence(sub, full)
    decreases |sub| + |full|
  {
    if sub != [] && sub[0] == full[0] {
      SubsequenceDropHead(sub, full[1..]);
    }
  }

  /** Leaving out the first entry of a subsequence keeps it a subsequence. */
  lemma {:induction false} SubsequenceDropHead<T>(sub: seq<T>, full: seq<T>)
    requires sub != [] && IsSubsequence(sub, full)
    ensures IsSubsequence(sub[1..], full)
    decreases |sub| + |full|
  {
    if sub[0] == full[0] {
      SubsequenceOfTail(sub[1..], full);
    } else {
      SubsequenceDropHead(sub, full[1..]);
      SubsequenceOfTail(sub[1..], full);
    }
  }

  /** With filter "all" and an empty search the list is the whole history. */
  lemma {:induction false} FilterAllIsIdentity(items: seq<Analysis>)
    ensures Filter(items, "all", "") == items
  {
    if items != [] {
      FilterAllIsIdentity(items[1..]);
      assert [items[0]] + items[1..] == items;
    }
  }

  /** Re-casing the search term changes nothing. */
  lemma SearchIgnoresCase(items: seq<Analysis>, filterType: string, term1: string, term2: string)
    requires Text.SameIgnoringCase(term1, term2)
    ensures Filter(items, filterType, term1) == Filter(items, filterType, term2)
  {
    Text.LowerOfSameIgnoringCase(term1, term2);
    FilterAgrees(items, filterType, term1, term2);
  }

  lemma {:induction false} FilterAgrees(items: seq<Analysis>, filterType: string, term1: string, term2: string)
    requires forall x :: Matches(x, filterType, term1) == Matches(x, filterType, term2)
    ensures Filter(items, filterType, term1) == Filter(items, filterType, term2)
  {
    if items != [] {
      FilterAgrees(items[1..], filterType, term1, term2);
    }
  }

  /** `history.find(item => item.id === id)`: the first entry with that id. */
  function FindById(items: seq<Analysis>, id: nat): (found: Option<Analysis>)
    ensures found.None? <==> forall k :: 0 <= k < |items| ==> items[k].id != id
    ensures found.Some? ==> exists k :: 0 <= k < |items| && items[k] == found.value && items[k].id == id
                                        && forall j :: 0 <= j < k ==> items[j].id != id
  {
    if items == [] then None
    else if items[0].id == id then Some(items[0])
    else
      var found := FindById(items[1..], id);
      FirstMatchShifts(items, id, found);
      found
  }

  /** A first match in the tail, behind a head with another id, is a first match in the whole list. */
  lemma FirstMatchShifts(items: seq<Analysis>, id: nat, found: Option<Analysis>)
    requires items != [] && items[0].id != id
    requires found.Some? ==> exists k :: 0 <= k < |items[1..]| && items[1..][k] == found.value && items[1..][k].id == id
                                         && forall j :: 0 <= j < k ==> items[1..][j].id != id
    ensures found.Some? ==> exists k :: 0 <= k < |items| && items[k] == found.value && items[k].id == id
                                        && forall j :: 0 <= j < k ==> items[j].id != id
  {
    if found.Some? {
      var k :| 0 <= k < |items[1..]| && items[1..][k] == found.value && items[1..][k].id == id
               && forall j :: 0 <= j < k ==> items[1..][j].id != id;
      assert items[k + 1] == found.value;
      assert forall j :: 0 <= j < k + 1 ==> items[j].id != id by {
        forall j | 0 <= j < k + 1 ensures items[j].id != id {
          if j > 0 { assert items[j] == items[1..][j - 1]; }
        }
      }
    }
  }

  /** `getConfidenceBadgeClass`: the same boundaries as the result view's tiers. */
  function BadgeClass(confidence: real): (badge: string)
    ensures badge == "bg-danger" <==> confidence >= 0.7
    ensures badge == "bg-warning text-dark" <==> 0.4 <= confidence < 0.7
    ensures badge == "bg-success" <==> confidence < 0.4
  {
    if confidence >= 0.7 then "bg-danger"
    else if confidence >= 0.4 then "bg-warning text-dark"
    else "bg-success"
  }

  /** The history badge and the result view's tier agree on every confidence. */
  lemma BadgeAgreesWithResultTier(confidence: real)
    ensures BadgeClass(confidence) == "bg-danger" <==> Visualization.ConfidenceClass(confidence) == "high"
    ensures BadgeClass(confidence) == "bg-warning text-dark" <==> Visualization.ConfidenceClass(confidence) == "medium"
    ensures BadgeClass(confidence) == "bg-success" <==> Visualization.ConfidenceClass(confidence) == "low"
  {
  }

  const NothingYetMessage: string := "You haven't analyzed any images yet."
  const NoMatchMessage: string := "No results match your search criteria."
  const HistoryFallbackMessage: string := "Failed to load history"
  const HistoryFailedMessage: string := "Failed to load analysis history"
  const DownloadFailedMessage: string := "Failed to download analysis results"

  /** One table row: the file, its date, its disease and its confidence badge. */
  datatype TableRow = TableRow(id: nat, filename: string, createdAt: Option<string>, diseaseClass: string, badge: string)

  function RowOf(item: Analysis): TableRow {
    TableRow(item.id, item.filename, item.createdAt, item.diseaseClass, BadgeClass(item.confidence))
  }

  function RowsOf(items: seq<Analysis>): (rows: seq<TableRow>)
    ensures |rows| == |items|
    ensures forall i :: 0 <= i < |items| ==> rows[i] == RowOf(items[i])
  {
    if items == [] then [] else [RowOf(items[0])] + RowsOf(items[1..])
  }

  /** Below the filters: the empty-state text (with the first-upload button for an empty history), or the table. */
  datatype Listing =
    | EmptyState(message: string, offerFirstUpload: bool)
    | Table(rows: seq<TableRow>)

  /** What the page renders; a listing carries the "Showing X of Y" counts. */
  datatype HistoryView =
    | Spinner
    | ErrorAlert(message: string)
    | Listed(listing: Listing, shown: nat, total: nat)

  function ListingFor(history: seq<Analysis>, filtered: seq<Analysis>): Listing {
    if |filtered| == 0 then
      if |history| == 0 then EmptyState(NothingYetMessage, true) else EmptyState(NoMatchMessage, false)
    else
      Table(RowsOf(filtered))
  }

  function Render(loading: bool, error: Option<string>, history: seq<Analysis>,
                  filterType: string, searchTerm: string): (v: HistoryView)
    ensures loading ==> v == Spinner
    ensures !loading && Truthy(error) ==> v == ErrorAlert(error.value)
    ensures v.Listed? <==> !loading && !Truthy(error)
    ensures v.Listed? ==>
              var filtered := Filter(history, filterType, searchTerm);
              v.shown == |filtered| && v.total == |history| && v.shown <= v.total
              && (v.listing.Table? <==> filtered != [])
              && (v.listing.Table? ==> v.listing.rows == RowsOf(filtered))
              && (v.listing.EmptyState? ==>
                    (v.listing.message == NothingYetMessage <==> history == [])
                    && (v.listing.message == NoMatchMessage <==> history != []))
  {
    if loading then Spinner
    else if Truthy(error) then ErrorAlert(error.value)
    else
      var filtered := Filter(history, filterType, searchTerm);
      Listed(ListingFor(history, filtered), |filtered|, |history|)
  }

  /** A non-empty history with no filter never shows an empty state. */
  lemma UnfilteredNonEmptyShowsTable(history: seq<Analysis>)
    requires history != []
    ensures Render(false, None, history, "all", "").listing.Table?
  {
    FilterAllIsIdentity(history);
  }

  /** The elements of a row a click can land on. */
  datatype ClickTarget = RowCell(id: nat) | ViewButton(id: nat) | DownloadButton(id: nat)

  /** The two handlers a click can reach. */
  datatype Handler = Activate(id: nat) | StartDownload(id: nat)

  /** The handler of the element itself, if it has one. */
  function OwnHandler(t: ClickTarget): seq<Handler> {
    match t
    case RowCell(_) => []
    case ViewButton(id) => [Activate(id)]
    case DownloadButton(id) => [StartDownload(id)]
  }

  /** Only the download button calls `e.stopPropagation()`. */
  predicate StopsPropagation(t: ClickTarget) {
    t.DownloadButton?
  }

  /**
   * The handlers a click runs, innermost first: the element's own, then the
   * row's `onClick` unless stopped. A download click never activates the row;
   * every other click does, and the view button's does so twice.
   */
  function Dispatch(t: ClickTarget): (handlers: seq<Handler>)
    ensures t.DownloadButton? ==> handlers == [StartDownload(t.id)]
    ensures t.DownloadButton? <==> forall h :: h in handlers ==> !h.Activate?
    ensures t.ViewButton? ==> handlers == [Activate(t.id), Activate(t.id)]
    ensures t.RowCell? ==> handlers == [Activate(t.id)]
  {
    var handlers := OwnHandler(t) + (if StopsPropagation(t) then [] else [Activate(t.id)]);
    assert !t.DownloadButton? ==> handlers[|handlers| - 1] == Activate(t.id);
    handlers
  }

  /** What `handleViewAnalysis` asks of the parent: `onViewAnalysis(entry)` then `navigate(route)`. */
  datatype Activation = Activation(entry: Analysis, route: string)

  function VisualizationPath(id: nat): string {
    "/visualization/" + Text.DecimalString(id)
  }

  class HistoryPage {
    var history: seq<Analysis>
    var loading: bool
    var error: Option<string>
    var searchTerm: string
    var filterType: string
    /** `getHistory` calls whose promise has not yet settled. */
    ghost var loadsInFlight: nat

    constructor ()
      ensures history == [] && loading && error == None && searchTerm == "" && filterType == "all"
      ensures loadsInFlight == 0
    {
      history, loading, error, searchTerm, filterType := [], true, None, "", "all";
      loadsInFlight := 0;
    }

    function Filtered(): seq<Analysis>
      reads this
    {
      Filter(history, filterType, searchTerm)
    }

    function View(): HistoryView
      reads this
    {
      Render(loading, error, history, filterType, searchTerm)
    }

    /** The mount effect: loading, no error, one `getHistory` request. */
    method LoadEffect()
      modifies this
      ensures loading && error == None && loadsInFlight == old(loadsInFlight) + 1
      ensures history == old(history) && searchTerm == old(searchTerm) && filterType == old(filterType)
    {
      loading := true;
      error := None;
      loadsInFlight := loadsInFlight + 1;
    }

    /**
     * A settled `getHistory`: success replaces the history; another status
     * shows the server's message or the fallback; a rejected promise shows the
     * generic message; loading ends.
     */
    method LoadCompleted(outcome: Completion<seq<Analysis>>)
      requires loadsInFlight > 0
      modifies this
      ensures !loading && loadsInFlight == old(loadsInFlight) - 1
      ensures searchTerm == old(searchTerm) && filterType == old(filterType)
      ensures outcome.Replied? && outcome.reply.status == "success" ==>
                history == outcome.reply.data && error == old(error)
      ensures outcome.Replied? && outcome.reply.status != "success" ==>
                history == old(history) && error == Some(MessageOr(outcome.reply.message, HistoryFallbackMessage))
      ensures outcome.TransportFailed? ==> history == old(history) && error == Some(HistoryFailedMessage)
    {
      match outcome {
        case Replied(reply) =>
          if reply.status == "success" {
            history := reply.data;
          } else {
            error := Some(MessageOr(reply.message, HistoryFallbackMessage));
          }
        case TransportFailed =>
          error := Some(HistoryFailedMessage);
      }
      loading := false;
      loadsInFlight := loadsInFlight - 1;
    }

    method SetSearchTerm(term: string)
      modifies this
      ensures searchTerm == term
      ensures history == old(history) && loading == old(loading) && error == old(error)
      ensures filterType == old(filterType) && loadsInFlight == old(loadsInFlight)
    {
      searchTerm := term;
    }

    method SetFilterType(choice: string)
      modifies this
      ensures filterType == choice
      ensures history == old(history) && loading == old(loading) && error == old(error)
      ensures searchTerm == old(searchTerm) && loadsInFlight == old(loadsInFlight)
    {
      filterType := choice;
    }

    /**
     * `handleViewAnalysis(id)`: with an entry of that id, hand the first such
     * entry to the parent and go to its page; otherwise do nothing.
     */
    method ViewAnalysis(id: nat) returns (activation: Option<Activation>)
      ensures activation.None? <==> forall k :: 0 <= k < |history| ==> history[k].id != id
      ensures activation.Some? ==> FindById(history, id) == Some(activation.value.entry)
      ensures activation.Some? ==>
                activation.value.route == VisualizationPath(id)
                && activation.value.entry.id == id
                && exists k :: 0 <= k < |history| && history[k] == activation.value.entry
                               && forall j :: 0 <= j < k ==> history[j].id != id
    {
      var analysis := FindById(history, id);
      activation := None;
      if analysis.Some? {
        activation := Some(Activation(analysis.value, VisualizationPath(id)));
      }
    }

    /** `handleDownload(id, e)`: request the download; a failure only raises an alert. */
    method Download(id: nat, succeeds: bool) returns (request: nat, alert: Option<string>)
      ensures request == id
      ensures alert == if succeeds then None else Some(DownloadFailedMessage)
    {
      request := id;
      alert := if succeeds then None else Some(DownloadFailedMessage);
    }
  }
}
