/**
 * The document viewer (src/components/PDFViewer.jsx): the in-document
 * search that lists one entry per match, page by page, the navigation
 * between matches, the debounced trigger that starts a search, the reset
 * when another file is shown, and the zoom buttons.
 *
 * A loaded document is modelled by the text items of its pages; fetching
 * a page and its text content is asynchronous in the viewer and is read
 * here in one step.
 */
module PdfViewer {
  import opened JsCore
  import opened JsStrings

  /** A loaded document: for each page, in order, the `str` of each text item. */
  datatype Doc = Doc(pages: seq<seq<string>>)

  /** One search hit: the 1-based page and the position of the hit on that page. */
  datatype Match = Match(pageIndex: nat, matchIndex: nat)

  // The match list

  /** The searchable text of page `i` (1-based): its items joined with single spaces. */
  function PageText(doc: Doc, i: nat): (text: string)
    requires 1 <= i <= |doc.pages|
    ensures |doc.pages[i - 1]| >= 1 ==> |text| == TotalLength(doc.pages[i - 1]) + |doc.pages[i - 1]| - 1
  {
    Join(doc.pages[i - 1], " ")
  }

  /**
   * The number of entries page `i` contributes: when the lower-cased page
   * text contains the lower-cased query, the number of non-overlapping
   * case-insensitive occurrences of the query as a literal; otherwise none.
   */
  function PageCount(doc: Doc, i: nat, query: string): (n: nat)
    requires 1 <= i <= |doc.pages|
    requires query != ""
    ensures n > 0 <==> Contains(Lower(PageText(doc, i)), Lower(query))
    ensures n * |query| <= |PageText(doc, i)|
  {
    var text := Lower(PageText(doc, i));
    CountPositiveIffContains(text, Lower(query));
    if Contains(text, Lower(query)) then CountFrom(text, Lower(query), 0) else 0
  }

  /** The `includes` guard never hides a match: the count alone decides. */
  lemma PageCountIsOccurrences(doc: Doc, i: nat, query: string)
    requires 1 <= i <= |doc.pages|
    requires query != ""
    ensures PageCount(doc, i, query) == CountFrom(Lower(PageText(doc, i)), Lower(query), 0)
  {
    CountPositiveIffContains(Lower(PageText(doc, i)), Lower(query));
  }

  /** The entries of page `page` after `count` of them have been pushed. */
  function PageMatches(page: nat, count: nat): (r: seq<Match>)
    ensures |r| == count
    ensures forall k :: 0 <= k < count ==> r[k] == Match(page, k)
  {
    seq(count, k requires 0 <= k < count => Match(page, k))
  }

  /** The list the search builds from pages `1..upTo`. */
  function AllMatches(doc: Doc, query: string, upTo: nat): (r: seq<Match>)
    requires upTo <= |doc.pages|
    requires query != ""
    ensures forall k :: 0 <= k < |r| ==> 1 <= r[k].pageIndex <= upTo
  {
    if upTo == 0 then [] else AllMatches(doc, query, upTo - 1) + PageMatches(upTo, PageCount(doc, upTo, query))
  }

  /** The total of the page counts over pages `1..upTo`. */
  function TotalCount(doc: Doc, query: string, upTo: nat): nat
    requires upTo <= |doc.pages|
    requires query != ""
  {
    if upTo == 0 then 0 else TotalCount(doc, query, upTo - 1) + PageCount(doc, upTo, query)
  }

  /** `a` comes before `b`: an earlier page, or the same page and an earlier hit. */
  predicate Before(a: Match, b: Match)
  {
    a.pageIndex < b.pageIndex || (a.pageIndex == b.pageIndex && a.matchIndex < b.matchIndex)
  }

  /** The list is as long as the sum of the page counts. */
  lemma {:induction false} AllMatchesLength(doc: Doc, query: string, upTo: nat)
    requires upTo <= |doc.pages|
    requires query != ""
    ensures |AllMatches(doc, query, upTo)| == TotalCount(doc, query, upTo)
  {
    if upTo > 0 {
      AllMatchesLength(doc, query, upTo - 1);
    }
  }

  /** Every entry names a page in `1..upTo` and a hit that page has. */
  lemma {:induction false} AllMatchesSound(doc: Doc, query: string, upTo: nat)
    requires upTo <= |doc.pages|
    requires query != ""
    ensures forall k :: 0 <= k < |AllMatches(doc, query, upTo)| ==>
              1 <= AllMatches(doc, query, upTo)[k].pageIndex <= upTo
              && AllMatches(doc, query, upTo)[k].matchIndex < PageCount(doc, AllMatches(doc, query, upTo)[k].pageIndex, query)
  {
    if upTo > 0 {
      AllMatchesSound(doc, query, upTo - 1);
      var init := AllMatches(doc, query, upTo - 1);
      var page := PageMatches(upTo, PageCount(doc, upTo, query));
      var all := AllMatches(doc, query, upTo);
      forall k | 0 <= k < |all|
        ensures 1 <= all[k].pageIndex <= upTo && all[k].matchIndex < PageCount(doc, all[k].pageIndex, query)
      {
        if k < |init| {
          assert all[k] == init[k];
        } else {
          assert all[k] == page[k - |init|];
        }
      }
    }
  }

  /** Every hit of every page in `1..upTo` has its entry. */
  lemma {:induction false} AllMatchesComplete(doc: Doc, query: string, upTo: nat)
    requires upTo <= |doc.pages|
    requires query != ""
    ensures forall p, m :: 1 <= p <= upTo && 0 <= m < PageCount(doc, p, query) ==> Match(p, m) in AllMatches(doc, query, upTo)
  {
    if upTo > 0 {
      AllMatchesComplete(doc, query, upTo - 1);
      var init := AllMatches(doc, query, upTo - 1);
      var page := PageMatches(upTo, PageCount(doc, upTo, query));
      var all := AllMatches(doc, query, upTo);
      forall p, m | 1 <= p <= upTo && 0 <= m < PageCount(doc, p, query)
        ensures Match(p, m) in all
      {
        if p == upTo {
          assert all[|init| + m] == page[m] == Match(p, m);
        } else {
          assert Match(p, m) in init;
        }
      }
    }
  }

  /** The entries are in ascending order, so none is listed twice. */
  lemma {:induction false} AllMatchesSorted(doc: Doc, query: string, upTo: nat)
    requires upTo <= |doc.pages|
    requires query != ""
    ensures forall j, k :: 0 <= j < k < |AllMatches(doc, query, upTo)| ==>
              Before(AllMatches(doc, query, upTo)[j], AllMatches(doc, query, upTo)[k])
  {
    if upTo > 0 {
      AllMatchesSorted(doc, query, upTo - 1);
      AllMatchesSound(doc, query, upTo - 1);
      var init := AllMatches(doc, query, upTo - 1);
      var page := PageMatches(upTo, PageCount(doc, upTo, query));
      var all := AllMatches(doc, query, upTo);
      forall j, k | 0 <= j < k < |all|
        ensures Before(all[j], all[k])
      {
        if k < |init| {
          assert all[j] == init[j] && all[k] == init[k];
        } else if j < |init| {
          assert all[j] == init[j] && all[k] == page[k - |init|];
        } else {
          assert all[j] == page[j - |init|] && all[k] == page[k - |init|];
        }
      }
    }
  }

  /**
   * The loop of `performSearch`: pages in ascending order, and for each
   * page one entry per match, numbered from zero.
   */
  method BuildMatches(doc: Doc, query: string) returns (matches: seq<Match>)
    requires query != ""
    ensures matches == AllMatches(doc, query, |doc.pages|)
  {
    matches := [];
    var lowerQuery := Lower(query);
    for i := 1 to |doc.pages| + 1
      invariant matches == AllMatches(doc, query, i - 1)
    {
      var text := Join(doc.pages[i - 1], " ");
      if Contains(Lower(text), lowerQuery) {
        var count := CountFrom(Lower(text), lowerQuery, 0);
        var before := matches;
        for m := 0 to count
          invariant matches == before + PageMatches(i, m)
        {
          matches := matches + [Match(i, m)];
        }
      }
    }
  }

  // Navigation between matches

  /** `nextMatch`: one forward, from the last back to the first. */
  function NextIndex(i: nat, n: nat): (r: nat)
    requires n > 0
    ensures r < n
    ensures i < n - 1 ==> r == i + 1
    ensures i == n - 1 ==> r == 0
  {
    (i + 1) % n
  }

  /**
   * `prevMatch`: one back, from the first to the last. `i - 1 + n` is never
   * negative here, so JavaScript's remainder agrees with the mathematical one.
   */
  function PrevIndex(i: nat, n: nat): (r: nat)
    requires n > 0
    ensures r < n
    ensures 0 < i < n ==> r == i - 1
    ensures i == 0 ==> r == n - 1
  {
    (i - 1 + n) % n
  }

  /** Going back after going forward, and forward after going back, returns to the same match. */
  lemma NavigationInverse(i: nat, n: nat)
    requires i < n
    ensures PrevIndex(NextIndex(i, n), n) == i
    ensures NextIndex(PrevIndex(i, n), n) == i
  {
  }

  /** The index after `k` presses of the next button. */
  function NextTimes(i: nat, n: nat, k: nat): nat
    requires n > 0
  {
    if k == 0 then i else NextIndex(NextTimes(i, n, k - 1), n)
  }

  /** Up to `n` presses of the next button move `k` matches on, wrapping past the last once. */
  lemma {:induction false} NextTimesShifts(i: nat, n: nat, k: nat)
    requires i < n && k <= n
    ensures NextTimes(i, n, k) == if i + k < n then i + k else i + k - n
  {
    if k > 0 {
      NextTimesShifts(i, n, k - 1);
    }
  }

  /** Pressing next visits every match within `n` presses, and `n` presses return to the start. */
  lemma NextVisitsEveryMatch(i: nat, n: nat, j: nat)
    requires i < n && j < n
    ensures NextTimes(i, n, n) == i
    ensures exists k :: 0 <= k < n && NextTimes(i, n, k) == j
  {
    NextTimesShifts(i, n, n);
    var k := if i <= j then j - i else j + n - i;
    NextTimesShifts(i, n, k);
    assert NextTimes(i, n, k) == j;
  }

  // Zoom

  /** The smallest and largest scale, in tenths. */
  const MinScale: int := 5
  const MaxScale: int := 20

  /** The zoom-in button: one tenth larger, never above 2.0. */
  function ZoomedIn(scale: int): (r: int)
    ensures r <= MaxScale
    ensures scale < MaxScale ==> r == scale + 1
    ensures scale >= MaxScale ==> r == MaxScale
  {
    if scale + 1 < MaxScale then scale + 1 else MaxScale
  }

  /** The zoom-out button: one tenth smaller, never below 0.5. */
  function ZoomedOut(scale: int): (r: int)
    ensures r >= MinScale
    ensures scale > MinScale ==> r == scale - 1
    ensures scale <= MinScale ==> r == MinScale
  {
    if scale - 1 > MinScale then scale - 1 else MinScale
  }

  /** Zooming in and back out, below the largest scale, restores the scale. */
  lemma ZoomRoundTrip(scale: int)
    requires MinScale <= scale < MaxScale
    ensures ZoomedOut(ZoomedIn(scale)) == scale
  {
  }

  // The viewer

  /** What the debounced effect does once `searchText` has been stable for half a second. */
  datatype Trigger = Search | Clear | Nothing

  /**
   * Longer than two UTF-16 code units with a document loaded searches;
   * empty text clears; anything else does nothing.
   */
  function TriggerFor(searchText: string, doc: Option<Doc>): (t: Trigger)
    ensures t == Search <==> Utf16Length(searchText) > 2 && doc.Some?
    ensures t == Clear <==> searchText == ""
    ensures t == Nothing <==> (0 < Utf16Length(searchText) <= 2 || (Utf16Length(searchText) > 2 && doc.None?))
  {
    if Utf16Length(searchText) > 2 && doc.Some? then Search
    else if Utf16Length(searchText) == 0 then Clear
    else Nothing
  }

  /**
   * Two characters outside the Basic Multilingual Plane are four code
   * units, so they search; two plain letters do nothing.
   */
  lemma TriggerCountsCodeUnits(doc: Doc)
    ensures TriggerFor("\U{1F600}\U{1F600}", Some(doc)) == Search
    ensures TriggerFor("ab", Some(doc)) == Nothing
  {
    assert Utf16Length("\U{1F600}\U{1F600}") == Utf16Length("\U{1F600}") + 2;
    assert Utf16Length("ab") == Utf16Length("a") + 1;
  }

  /** The viewer's state. The scale is kept in tenths (`scale * 10`). */
  class PdfViewer {
    var searchText: string
    var matches: seq<Match>
    var currentMatchIndex: nat
    var pdfDocument: Option<Doc>
    var numPages: Option<nat>
    var scale: int
    var isSearchOpen: bool

    /** The zoom stays between 0.5 and 2.0, and while there are matches the current one is one of them. */
    predicate Valid()
      reads this
    {
      MinScale <= scale <= MaxScale
      && (|matches| > 0 ==> currentMatchIndex < |matches|)
    }

    /** No document yet, no search, scale 1.0. */
    constructor()
      ensures Valid()
      ensures searchText == "" && matches == [] && currentMatchIndex == 0
      ensures pdfDocument == None && numPages == None && scale == 10 && !isSearchOpen
    {
      searchText := "";
      matches := [];
      currentMatchIndex := 0;
      pdfDocument := None;
      numPages := None;
      scale := 10;
      isSearchOpen := false;
    }

    /**
     * The effect run when the `file` prop changes: the matches, the search
     * text and the index are reset; the old document stays until the new
     * one has loaded.
     */
    method OnFileChange()
      requires Valid()
      modifies this
      ensures Valid()
      ensures matches == [] && searchText == "" && currentMatchIndex == 0
      ensures pdfDocument == old(pdfDocument) && numPages == old(numPages)
      ensures scale == old(scale) && isSearchOpen == old(isSearchOpen)
    {
      matches := [];
      searchText := "";
      currentMatchIndex := 0;
    }

    /** `onDocumentLoadSuccess`: the document and its page count are kept. */
    method OnDocumentLoadSuccess(doc: Doc)
      requires Valid()
      modifies this
      ensures Valid()
      ensures pdfDocument == Some(doc) && numPages == Some(|doc.pages|)
      ensures searchText == old(searchText) && matches == old(matches) && currentMatchIndex == old(currentMatchIndex)
      ensures scale == old(scale) && isSearchOpen == old(isSearchOpen)
    {
      pdfDocument := Some(doc);
      numPages := Some(|doc.pages|);
    }

    /** Typing in the search box only changes the text. */
    method SetSearchText(text: string)
      requires Valid()
      modifies this
      ensures Valid()
      ensures searchText == text
      ensures matches == old(matches) && currentMatchIndex == old(currentMatchIndex)
      ensures pdfDocument == old(pdfDocument) && numPages == old(numPages) && scale == old(scale) && isSearchOpen == old(isSearchOpen)
    {
      searchText := text;
    }

    /** The search button opens or closes the search box. */
    method ToggleSearch()
      requires Valid()
      modifies this
      ensures Valid()
      ensures isSearchOpen == !old(isSearchOpen)
      ensures searchText == old(searchText) && matches == old(matches) && currentMatchIndex == old(currentMatchIndex)
      ensures pdfDocument == old(pdfDocument) && numPages == old(numPages) && scale == old(scale)
    {
      isSearchOpen := !isSearchOpen;
    }

    /**
     * `performSearch(query, pdfDocument)`: nothing happens for an empty
     * query or without a document; otherwise the matches are replaced by
     * the list for the whole document, and the index goes back to the first
     * match when there is one (an empty result leaves the index alone).
     */
    method PerformSearch(query: string, doc: Option<Doc>)
      requires Valid()
      modifies this
      ensures Valid()
      ensures query == "" || doc.None? ==> matches == old(matches) && currentMatchIndex == old(currentMatchIndex)
      ensures query != "" && doc.Some? ==> matches == AllMatches(doc.value, query, |doc.value.pages|)
      ensures query != "" && doc.Some? && |matches| > 0 ==> currentMatchIndex == 0
      ensures |matches| == 0 ==> currentMatchIndex == old(currentMatchIndex)
      ensures searchText == old(searchText) && pdfDocument == old(pdfDocument) && numPages == old(numPages)
      ensures scale == old(scale) && isSearchOpen == old(isSearchOpen)
    {
      if query == "" || doc.None? {
        return;
      }
      var found := BuildMatches(doc.value, query);
      matches := found;
      if |found| > 0 {
        currentMatchIndex := 0;
      }
    }

    /**
     * The debounced effect on `searchText`: searches the loaded document for
     * text longer than two characters, empties the matches for empty text,
     * and leaves everything as it is otherwise.
     */
    method SearchTimerFired()
      requires Valid()
      modifies this
      ensures Valid()
      ensures TriggerFor(searchText, pdfDocument) == Search ==>
                matches == AllMatches(pdfDocument.value, searchText, |pdfDocument.value.pages|)
                && (|matches| > 0 ==> currentMatchIndex == 0)
      ensures TriggerFor(searchText, pdfDocument) == Clear ==> matches == []
      ensures TriggerFor(searchText, pdfDocument) == Nothing ==> matches == old(matches)
      ensures TriggerFor(searchText, pdfDocument) != Search ==> currentMatchIndex == old(currentMatchIndex)
      ensures searchText == old(searchText) && pdfDocument == old(pdfDocument) && numPages == old(numPages)
      ensures scale == old(scale) && isSearchOpen == old(isSearchOpen)
    {
      if Utf16Length(searchText) > 2 && pdfDocument.Some? {
        PerformSearch(searchText, pdfDocument);
      } else if Utf16Length(searchText) == 0 {
        matches := [];
      }
    }

    /** `nextMatch`: no effect without matches; otherwise the following match, wrapping round. */
    method NextMatch()
      requires Valid()
      modifies this
      ensures Valid()
      ensures |matches| == 0 ==> currentMatchIndex == old(currentMatchIndex)
      ensures |matches| > 0 ==> currentMatchIndex == NextIndex(old(currentMatchIndex), |matches|)
      ensures matches == old(matches) && searchText == old(searchText) && pdfDocument == old(pdfDocument) && numPages == old(numPages)
      ensures scale == old(scale) && isSearchOpen == old(isSearchOpen)
    {
      if |matches| == 0 {
        return;
      }
      currentMatchIndex := NextIndex(currentMatchIndex, |matches|);
    }

    /** `prevMatch`: no effect without matches; otherwise the preceding match, wrapping round. */
    method PrevMatch()
      requires Valid()
      modifies this
      ensures Valid()
      ensures |matches| == 0 ==> currentMatchIndex == old(currentMatchIndex)
      ensures |matches| > 0 ==> currentMatchIndex == PrevIndex(old(currentMatchIndex), |matches|)
      ensures matches == old(matches) && searchText == old(searchText) && pdfDocument == old(pdfDocument) && numPages == old(numPages)
      ensures scale == old(scale) && isSearchOpen == old(isSearchOpen)
    {
      if |matches| == 0 {
        return;
      }
      currentMatchIndex := PrevIndex(currentMatchIndex, |matches|);
    }

    /** The zoom-in button. */
    method ZoomIn()
      requires Valid()
      modifies this
      ensures Valid()
      ensures scale == ZoomedIn(old(scale))
      ensures searchText == old(searchText) && matches == old(matches) && currentMatchIndex == old(currentMatchIndex)
      ensures pdfDocument == old(pdfDocument) && numPages == old(numPages) && isSearchOpen == old(isSearchOpen)
    {
      scale := ZoomedIn(scale);
    }

    /** The zoom-out button. */
    method ZoomOut()
      requires Valid()
      modifies this
      ensures Valid()
      ensures scale == ZoomedOut(old(scale))
      ensures searchText == old(searchText) && matches == old(matches) && currentMatchIndex == old(currentMatchIndex)
      ensures pdfDocument == old(pdfDocument) && numPages == old(numPages) && isSearchOpen == old(isSearchOpen)
    {
      scale := ZoomedOut(scale);
    }
  }
}
