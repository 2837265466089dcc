/** The dashboard's view logic: the filter chain over the loaded
    announcements, pagination, date-range validation, the parameters of a
    fetch, the socket rooms derived from the filters and the loaded data,
    the viewed and saved lists, and the reload trigger. */
module Dashboard {
  import opened Wrappers
  import opened Seqs
  import opened Text
  import opened Announcements
  import opened FilterState
  import SocketContext

  const ItemsPerPage := 15
  const LoadFailedMessage := "Failed to load announcements. Please try again."
  /** How many test announcements replace an empty list when a load fails. */
  const FallbackTestCount := 3
  const TestCategories := ["Financial Results", "Dividend", "Mergers & Acquisitions"]
  const TestSentiments := ["Positive", "Negative", "Neutral"]
  const HourMs := 3600000

  // ---------------------------------------------------------------------
  // The filter chain
  // ---------------------------------------------------------------------

  /** The filters the filter effect reads; "" and [] mean "not set". */
  datatype Criteria = Criteria(company: string, search: string, categories: seq<string>, sentiments: seq<string>)

  /** The search term, lower-cased, occurs in the lower-cased company or
      summary, or in a non-empty ticker or ISIN. */
  predicate MatchesSearch(a: Announcement, term: string): (b: bool)
    ensures Lower(term) == Lower(a.company) ==> b
    ensures |term| > |a.company| && |term| > |a.summary| && |term| > |a.ticker| && |term| > |a.isin| ==> !b
  {
    var t := Lower(term);
    assert Lower(term) == Lower(a.company) ==> OccursAt(Lower(a.company), t, 0);
    || Contains(Lower(a.company), t)
    || Contains(Lower(a.summary), t)
    || (a.ticker != "" && Contains(Lower(a.ticker), t))
    || (a.isin != "" && Contains(Lower(a.isin), t))
  }

  /** The announcement passes every active filter. */
  predicate Passes(c: Criteria, a: Announcement) {
    && (c.company != "" ==> a.company == c.company)
    && (c.search != "" ==> MatchesSearch(a, c.search))
    && (|c.categories| > 0 ==> a.category in c.categories)
    && (|c.sentiments| > 0 ==> a.sentiment != "" && a.sentiment in c.sentiments)
  }

  function CompanyIs(company: string): Announcement -> bool {
    (a: Announcement) => a.company == company
  }

  function SearchFor(term: string): Announcement -> bool {
    (a: Announcement) => MatchesSearch(a, term)
  }

  function CategoryIn(categories: seq<string>): Announcement -> bool {
    (a: Announcement) => a.category in categories
  }

  function SentimentIn(sentiments: seq<string>): Announcement -> bool {
    (a: Announcement) => a.sentiment != "" && a.sentiment in sentiments
  }

  function PassesAll(c: Criteria): Announcement -> bool {
    (a: Announcement) => Passes(c, a)
  }

  /** One step of the chain, applied only when its filter is set. */
  function Stage(xs: seq<Announcement>, active: bool, p: Announcement -> bool): seq<Announcement> {
    if active then Filter(xs, p) else xs
  }

  /** The filter effect's chain, before sorting: company, search, category, sentiment. */
  function ApplyFilters(xs: seq<Announcement>, c: Criteria): (r: seq<Announcement>)
    ensures |r| <= |xs|
    ensures forall a :: a in r <==> a in xs && Passes(c, a)
  {
    var byCompany := Stage(xs, c.company != "", CompanyIs(c.company));
    var bySearch := Stage(byCompany, c.search != "", SearchFor(c.search));
    var byCategory := Stage(bySearch, |c.categories| > 0, CategoryIn(c.categories));
    Stage(byCategory, |c.sentiments| > 0, SentimentIn(c.sentiments))
  }

  lemma StageAfterFilter(xs: seq<Announcement>, p: Announcement -> bool, active: bool,
                         q: Announcement -> bool, pq: Announcement -> bool)
    requires forall x :: pq(x) == (p(x) && (active ==> q(x)))
    ensures Stage(Filter(xs, p), active, q) == Filter(xs, pq)
  {
    if active {
      FilterFilter(xs, p, q, pq);
    } else {
      FilterExt(xs, p, pq);
    }
  }

  /** The chain of four stages is one filter by their conjunction: it keeps
      exactly the announcements that pass every active filter, in loaded
      order. */
  lemma ApplyFiltersCharacterised(xs: seq<Announcement>, c: Criteria)
    ensures ApplyFilters(xs, c) == Filter(xs, PassesAll(c))
    ensures forall a :: a in ApplyFilters(xs, c) <==> a in xs && Passes(c, a)
    ensures IsSubsequence(ApplyFilters(xs, c), xs)
  {
    var p1: Announcement -> bool := (a: Announcement) => c.company != "" ==> a.company == c.company;
    var p2: Announcement -> bool := (a: Announcement) => p1(a) && (c.search != "" ==> MatchesSearch(a, c.search));
    var p3: Announcement -> bool := (a: Announcement) => p2(a) && (|c.categories| > 0 ==> a.category in c.categories);
    if c.company != "" {
      FilterExt(xs, CompanyIs(c.company), p1);
    } else {
      FilterAllPass(xs, p1);
    }
    StageAfterFilter(xs, p1, c.search != "", SearchFor(c.search), p2);
    StageAfterFilter(xs, p2, |c.categories| > 0, CategoryIn(c.categories), p3);
    StageAfterFilter(xs, p3, |c.sentiments| > 0, SentimentIn(c.sentiments), PassesAll(c));
    FilterIsSubsequence(xs, PassesAll(c));
  }

  /** Lower-casing is idempotent on the modelled alphabet. */
  lemma LowerIdempotent(s: string)
    ensures Lower(Lower(s)) == Lower(s)
  {
    assert forall i :: 0 <= i < |s| ==> Lower(Lower(s))[i] == Lower(s)[i];
  }

  /** The search is case-insensitive in the term. */
  lemma SearchIgnoresTermCase(a: Announcement, term: string)
    ensures MatchesSearch(a, term) == MatchesSearch(a, Lower(term))
  {
    LowerIdempotent(term);
  }

  // ---------------------------------------------------------------------
  // Pagination
  // ---------------------------------------------------------------------

  /** `Math.max(1, Math.ceil(totalItems / 15))`. */
  function TotalPages(totalItems: nat): (r: nat)
    ensures r >= 1
    ensures totalItems <= r * ItemsPerPage
    ensures r > 1 ==> (r - 1) * ItemsPerPage < totalItems
  {
    var pages := (totalItems + ItemsPerPage - 1) / ItemsPerPage;
    if pages > 1 then pages else 1
  }

  /** A `slice` index: a negative one counts from the end; both are clamped to the list. */
  function SliceIndex(i: int, len: nat): (r: nat)
    ensures r <= len
    ensures 0 <= i <= len ==> r == i
  {
    if i < 0 then (if len + i < 0 then 0 else len + i) else if i > len then len else i
  }

  /** `xs.slice(start, end)`. */
  function JsSlice(xs: seq<Announcement>, start: int, end: int): (r: seq<Announcement>)
    ensures exists i, j :: 0 <= i <= j <= |xs| && r == xs[i..j]
    ensures 0 <= start <= end <= |xs| ==> r == xs[start..end]
  {
    var s := SliceIndex(start, |xs|);
    var e := SliceIndex(end, |xs|);
    if s < e then xs[s..e] else assert xs[s..s] == []; []
  }

  /** The items shown on page `page`: at most 15, and from page 1 on, the
      consecutive run that starts at `(page - 1) * 15`. */
  function PageItems(xs: seq<Announcement>, page: int): (r: seq<Announcement>)
    ensures |r| <= ItemsPerPage
    ensures page >= 1 ==>
      forall i :: 0 <= i < |r| ==> (page - 1) * ItemsPerPage + i < |xs| && r[i] == xs[(page - 1) * ItemsPerPage + i]
    ensures page >= 1 && (page - 1) * ItemsPerPage < |xs| ==>
      |r| == if |xs| - (page - 1) * ItemsPerPage < ItemsPerPage then |xs| - (page - 1) * ItemsPerPage else ItemsPerPage
  {
    var start := (page - 1) * ItemsPerPage;
    JsSlice(xs, start, start + ItemsPerPage)
  }

  /** Every item is on some page within the page count: item `k` is at
      position `k % 15` of page `k / 15 + 1`. */
  lemma PagesCoverList(xs: seq<Announcement>, k: nat)
    requires k < |xs|
    ensures var page := k / ItemsPerPage + 1;
      && page <= TotalPages(|xs|)
      && k % ItemsPerPage < |PageItems(xs, page)|
      && PageItems(xs, page)[k % ItemsPerPage] == xs[k]
  {
    var page := k / ItemsPerPage + 1;
    assert (page - 1) * ItemsPerPage + k % ItemsPerPage == k;
    assert (page - 1) * ItemsPerPage < TotalPages(|xs|) * ItemsPerPage;
  }

  function SavedIn(saved: seq<string>): Announcement -> bool {
    (a: Announcement) => a.id in saved
  }

  /** The list the pager works on: every filtered item, or in saved mode only the saved ones. */
  function DisplayedAnnouncements(filtered: seq<Announcement>, saved: seq<string>, showSaved: bool): (r: seq<Announcement>)
    ensures |r| <= |filtered|
    ensures forall a :: a in r <==> a in filtered && (showSaved ==> a.id in saved)
    ensures !showSaved ==> r == filtered
  {
    if showSaved then Filter(filtered, SavedIn(saved)) else filtered
  }

  // ---------------------------------------------------------------------
  // Dates and fetch parameters
  // ---------------------------------------------------------------------

  /** `/^\d{4}-\d{2}-\d{2}$/`. */
  predicate IsDateString(s: string): (b: bool)
    ensures b ==> |s| == 10 && forall i :: 0 <= i < |s| ==> IsDigit(s[i]) || s[i] == '-'
  {
    && |s| == 10 && s[4] == '-' && s[7] == '-'
    && forall i :: 0 <= i < 10 && i != 4 && i != 7 ==> IsDigit(s[i])
  }

  lemma DateStringExamples()
    ensures IsDateString("2024-01-31")
    ensures !IsDateString("2024-1-31") && !IsDateString("2024/01/31") && !IsDateString("")
  {
  }

  datatype Bound = Start | End

  /** The arguments of `fetchAnnouncements`. */
  datatype FetchRequest = FetchRequest(startDate: string, endDate: string, industry: string)

  /** A bound is passed on only if it is a well-formed date; an industry only if exactly one is selected. */
  function FetchArgs(dateStart: string, dateEnd: string, industries: seq<string>): (r: FetchRequest)
    ensures r.startDate == (if IsDateString(dateStart) then dateStart else "")
    ensures r.endDate == (if IsDateString(dateEnd) then dateEnd else "")
    ensures r.industry == (if |industries| == 1 then industries[0] else "")
    ensures r.startDate == "" || IsDateString(r.startDate)
    ensures r.endDate == "" || IsDateString(r.endDate)
  {
    FetchRequest(if IsDateString(dateStart) then dateStart else "",
                 if IsDateString(dateEnd) then dateEnd else "",
                 if |industries| == 1 then industries[0] else "")
  }

  // ---------------------------------------------------------------------
  // Socket rooms
  // ---------------------------------------------------------------------

  function CategoryRooms(categories: seq<string>): (r: seq<string>)
    ensures |r| == |categories|
    ensures forall i :: 0 <= i < |r| ==> r[i] == "category:" + categories[i]
  {
    seq(|categories|, i requires 0 <= i < |categories| => "category:" + categories[i])
  }

  function Tickers(xs: seq<Announcement>): seq<string> {
    seq(|xs|, i requires 0 <= i < |xs| => xs[i].ticker)
  }

  function Isins(xs: seq<Announcement>): seq<string> {
    seq(|xs|, i requires 0 <= i < |xs| => xs[i].isin)
  }

  function NonEmptyString(): string -> bool {
    (s: string) => s != ""
  }

  /** `.filter(Boolean).filter((x, i, self) => self.indexOf(x) === i)`. */
  function DistinctNonEmpty(xs: seq<string>): (r: seq<string>)
    ensures NoDup(r)
    ensures forall s :: s in r <==> s in xs && s != ""
  {
    DistinctFrom(Filter(xs, NonEmptyString()), {})
  }

  /** The rooms that depend on the industry, category and loaded-data
      filters: the single selected industry, each selected category, then
      the distinct non-empty tickers and ISINs of the loaded data. */
  function DataRooms(industries: seq<string>, categories: seq<string>, loaded: seq<Announcement>): seq<string> {
    (if |industries| == 1 then ["industry:" + industries[0]] else [])
    + CategoryRooms(categories)
    + DistinctNonEmpty(Tickers(loaded))
    + DistinctNonEmpty(Isins(loaded))
  }

  /** The rooms the dashboard joins, in the order it joins them. */
  function RoomList(company: string, industries: seq<string>, categories: seq<string>, loaded: seq<Announcement>): (r: seq<string>)
    ensures |r| >= 1 && r[0] == "all"
    ensures company != "" ==> |r| >= 2 && r[1] == "company:" + company
    ensures company == "" ==> r[1..] == DataRooms(industries, categories, loaded)
  {
    ["all"]
    + (if company != "" then ["company:" + company] else [])
    + DataRooms(industries, categories, loaded)
  }

  predicate IsCategoryRoom(room: string, categories: seq<string>) {
    exists i :: 0 <= i < |categories| && room == "category:" + categories[i]
  }

  predicate IsLoadedTicker(room: string, loaded: seq<Announcement>) {
    room != "" && exists i :: 0 <= i < |loaded| && loaded[i].ticker == room
  }

  predicate IsLoadedIsin(room: string, loaded: seq<Announcement>) {
    room != "" && exists i :: 0 <= i < |loaded| && loaded[i].isin == room
  }

  predicate IsDataRoom(room: string, industries: seq<string>, categories: seq<string>, loaded: seq<Announcement>) {
    || (|industries| == 1 && room == "industry:" + industries[0])
    || IsCategoryRoom(room, categories)
    || IsLoadedTicker(room, loaded)
    || IsLoadedIsin(room, loaded)
  }

  lemma CategoryRoomMember(room: string, categories: seq<string>)
    ensures room in CategoryRooms(categories) <==> IsCategoryRoom(room, categories)
  {
    var cats := CategoryRooms(categories);
    if room in cats {
      var i :| 0 <= i < |cats| && cats[i] == room;
      assert room == "category:" + categories[i];
    }
    if IsCategoryRoom(room, categories) {
      var i :| 0 <= i < |categories| && room == "category:" + categories[i];
      assert cats[i] == room;
    }
  }

  lemma TickerRoomMember(room: string, loaded: seq<Announcement>)
    ensures room in DistinctNonEmpty(Tickers(loaded)) <==> IsLoadedTicker(room, loaded)
  {
    if IsLoadedTicker(room, loaded) {
      var i :| 0 <= i < |loaded| && loaded[i].ticker == room;
      assert Tickers(loaded)[i] == room;
    }
  }

  lemma IsinRoomMember(room: string, loaded: seq<Announcement>)
    ensures room in DistinctNonEmpty(Isins(loaded)) <==> IsLoadedIsin(room, loaded)
  {
    if IsLoadedIsin(room, loaded) {
      var i :| 0 <= i < |loaded| && loaded[i].isin == room;
      assert Isins(loaded)[i] == room;
    }
  }

  lemma DataRoomMember(room: string, industries: seq<string>, categories: seq<string>, loaded: seq<Announcement>)
    ensures room in DataRooms(industries, categories, loaded) <==> IsDataRoom(room, industries, categories, loaded)
  {
    CategoryRoomMember(room, categories);
    TickerRoomMember(room, loaded);
    IsinRoomMember(room, loaded);
  }

  /** The joined rooms are exactly: 'all', the selected company, the single
      selected industry, each selected category, and each non-empty ticker and
      ISIN of the loaded data; none is empty, and no ticker or ISIN is joined twice. */
  lemma RoomListCharacterised(company: string, industries: seq<string>, categories: seq<string>, loaded: seq<Announcement>)
    ensures forall room :: room in RoomList(company, industries, categories, loaded) <==>
      || room == "all"
      || (company != "" && room == "company:" + company)
      || (|industries| == 1 && room == "industry:" + industries[0])
      || IsCategoryRoom(room, categories)
      || IsLoadedTicker(room, loaded)
      || IsLoadedIsin(room, loaded)
  {
    forall room
      ensures room in RoomList(company, industries, categories, loaded) <==>
        || room == "all"
        || (company != "" && room == "company:" + company)
        || IsDataRoom(room, industries, categories, loaded)
    {
      DataRoomMember(room, industries, categories, loaded);
    }
  }

  /** No joined room is empty, so `joinRoom` never ignores one. */
  lemma RoomListNonEmpty(company: string, industries: seq<string>, categories: seq<string>, loaded: seq<Announcement>)
    ensures "" !in RoomList(company, industries, categories, loaded)
  {
    var cats := CategoryRooms(categories);
    assert forall i :: 0 <= i < |cats| ==> |cats[i]| >= 9;
  }

  /** Changing only the selected company changes only the company room. */
  lemma CompanyRoomOnly(c1: string, c2: string, industries: seq<string>, categories: seq<string>, loaded: seq<Announcement>)
    requires c1 != "" && c2 != ""
    ensures RoomList(c2, industries, categories, loaded)
         == RoomList(c1, industries, categories, loaded)[1 := "company:" + c2]
  {
    CompanyRoomUpdate("company:" + c1, "company:" + c2, DataRooms(industries, categories, loaded));
  }

  lemma CompanyRoomUpdate(r1: string, r2: string, rest: seq<string>)
    ensures ["all"] + [r2] + rest == (["all"] + [r1] + rest)[1 := r2]
  {
  }

  /** Switching the selected company from `a` to `b` (the room effect's
      cleanup, then the effect again) leaves no subscription to `company:a`
      and one to `company:b`, provided no loaded ticker or ISIN is itself
      named `company:a`. */
  lemma CompanySwitchMovesRoom(a: string, b: string, industries: seq<string>, categories: seq<string>,
                               loaded: seq<Announcement>, active: set<string>)
    requires a != "" && b != "" && a != b
    requires !IsLoadedTicker("company:" + a, loaded) && !IsLoadedIsin("company:" + a, loaded)
    ensures var after := (active - Elems(RoomList(a, industries, categories, loaded)))
                         + Elems(RoomList(b, industries, categories, loaded));
      "company:" + a !in after && "company:" + b in after
  {
    var room := "company:" + a;
    assert room != "all" && room != "company:" + b by {
      assert room[..8] == "company:";
      assert room[8..] == a;
      assert ("company:" + b)[8..] == b;
    }
    assert !IsDataRoom(room, industries, categories, loaded) by {
      assert (|industries| == 1 ==> room != "industry:" + industries[0]) by {
        if |industries| == 1 {
          assert room[1] == 'o';
          assert ("industry:" + industries[0])[1] == 'n';
        }
      }
      forall i | 0 <= i < |categories|
        ensures room != "category:" + categories[i]
      {
        assert room[2] == 'm';
        assert ("category:" + categories[i])[2] == 't';
      }
    }
    DataRoomMember(room, industries, categories, loaded);
    RoomSwitch(room, "company:" + b, DataRooms(industries, categories, loaded), active);
  }

  /** Leaving `["all", r1] + rest` and joining `["all", r2] + rest` drops `r1`
      and keeps `r2` when `r1` is none of the others. */
  lemma RoomSwitch(r1: string, r2: string, rest: seq<string>, active: set<string>)
    requires r1 != "all" && r1 != r2 && r1 !in rest
    ensures var after := (active - Elems(["all"] + [r1] + rest)) + Elems(["all"] + [r2] + rest);
      r1 !in after && r2 in after
  {
  }

  // ---------------------------------------------------------------------
  // Fallback test data
  // ---------------------------------------------------------------------

  function TestId(i: nat, nowMs: nat): string {
    "test-" + NatToString(i) + "-" + NatToString(nowMs)
  }

  /** Test records drawn at the same millisecond have distinct ids. */
  lemma TestIdsDistinct(i: nat, j: nat, nowMs: nat)
    requires i != j
    ensures TestId(i, nowMs) != TestId(j, nowMs)
  {
    var a, b := NatToString(i), NatToString(j);
    var s, t := TestId(i, nowMs), TestId(j, nowMs);
    NatToStringRoundTrip(i);
    NatToStringRoundTrip(j);
    assert a != b;
    if |a| == |b| {
      var k :| 0 <= k < |a| && a[k] != b[k];
      assert s[5 + k] == a[k] && t[5 + k] == b[k];
    } else if |a| < |b| {
      assert s[5 + |a|] == '-' && t[5 + |a|] == b[|a|] && IsDigit(b[|a|]);
    } else {
      assert t[5 + |b|] == '-' && s[5 + |b|] == a[|b|] && IsDigit(a[|b|]);
    }
  }

  /** The `i`-th fallback record; `isoAt` renders a millisecond timestamp as an ISO date. */
  function TestAnnouncement(i: nat, nowMs: nat, isoAt: int -> string): (a: Announcement)
    ensures a.category == TestCategories[i % 3] && a.sentiment == TestSentiments[i % 3]
    ensures a.id == TestId(i, nowMs) && a.summary <= a.detailedContent
    ensures a.ticker != "" && a.isin != ""
  {
    var n := NatToString(i + 1);
    var category := TestCategories[i % 3];
    var summary := "**Category:** " + category + "\n**Headline:** Test Announcement " + n + " for " + category
                   + "\n\nThis is a test announcement " + n + " for debugging purposes.";
    Announcement(
      TestId(i, nowMs), "Test Company " + n, "TC" + n, category, isoAt(nowMs - i * HourMs), summary,
      summary + "\n\n## Additional Details\n\nThis is a detailed content for test announcement " + n + ".",
      "TEST" + NatToString(i) + "1234567890", TestSentiments[i % 3], false)
  }

  /** `generateTestData`: the push loop. */
  method GenerateTestData(count: nat, nowMs: nat, isoAt: int -> string) returns (data: seq<Announcement>)
    ensures |data| == count
    ensures forall i :: 0 <= i < count ==> data[i] == TestAnnouncement(i, nowMs, isoAt)
  {
    data := [];
    var i := 0;
    while i < count
      invariant 0 <= i <= count && |data| == i
      invariant forall k :: 0 <= k < i ==> data[k] == TestAnnouncement(k, nowMs, isoAt)
    {
      data := data + [TestAnnouncement(i, nowMs, isoAt)];
      i := i + 1;
    }
  }

  /** The generated records have pairwise distinct ids. */
  lemma TestDataIdsDistinct(count: nat, nowMs: nat, isoAt: int -> string)
    ensures forall i, j :: 0 <= i < j < count ==> TestAnnouncement(i, nowMs, isoAt).id != TestAnnouncement(j, nowMs, isoAt).id
  {
    forall i, j | 0 <= i < j < count
      ensures TestAnnouncement(i, nowMs, isoAt).id != TestAnnouncement(j, nowMs, isoAt).id
    {
      TestIdsDistinct(i, j, nowMs);
    }
  }

  // ---------------------------------------------------------------------
  // Reload trigger
  // ---------------------------------------------------------------------

  /** The reload effect runs when the trigger moved and is positive. */
  predicate ShouldReload(previous: nat, trigger: nat): (b: bool)
    ensures trigger == previous ==> !b
    ensures trigger == 0 ==> !b
  {
    trigger != previous && trigger > 0
  }

  /** `sortByNewestDate` is external; it is taken to reorder and nothing more. */
  ghost predicate Reorders(sort: seq<Announcement> -> seq<Announcement>) {
    forall xs :: multiset(sort(xs)) == multiset(xs)
  }

  // ---------------------------------------------------------------------
  // The component
  // ---------------------------------------------------------------------

  class DashboardView {
    var announcements: seq<Announcement>
    var filtered: seq<Announcement>
    var currentPage: int
    var savedFilings: seq<string>
    var showSavedFilings: bool
    var viewed: seq<string>
    var error: Option<string>
    var isLoading: bool
    var processedIds: set<string>
    var previousReloadTrigger: nat

    ghost predicate Valid()
      reads this
    {
      NoDup(viewed)
    }

    constructor (reloadTrigger: nat)
      ensures Valid()
      ensures announcements == [] && filtered == [] && currentPage == 1
      ensures savedFilings == [] && !showSavedFilings && viewed == []
      ensures error == None && isLoading && processedIds == {}
      ensures previousReloadTrigger == reloadTrigger
    {
      announcements, filtered, currentPage := [], [], 1;
      savedFilings, showSavedFilings, viewed := [], false, [];
      error, isLoading, processedIds := None, true, {};
      previousReloadTrigger := reloadTrigger;
    }

    /** `markAnnouncementAsRead`: appended only when absent. */
    method MarkAnnouncementAsRead(id: string)
      requires Valid()
      modifies this`viewed
      ensures Valid()
      ensures viewed == if id in old(viewed) then old(viewed) else old(viewed) + [id]
    {
      if id !in viewed {
        SnocNoDup(viewed, id);
        viewed := viewed + [id];
      }
    }

    /** `toggleSavedFiling`. */
    method ToggleSavedFiling(id: string)
      modifies this`savedFilings
      ensures savedFilings == Toggle(old(savedFilings), id)
      ensures id in savedFilings <==> id !in old(savedFilings)
    {
      if id in savedFilings {
        savedFilings := RemoveAll(savedFilings, id);
      } else {
        savedFilings := savedFilings + [id];
      }
    }

    /** The filter effect: the chain, then the external sort; back to page 1. */
    method ApplyFilterEffect(ctx: FilterContext, sort: seq<Announcement> -> seq<Announcement>)
      requires Reorders(sort)
      modifies this`filtered, this`currentPage
      ensures var c := Criteria(ctx.selectedCompany, ctx.searchTerm, ctx.selectedCategories, ctx.selectedSentiments);
        && filtered == sort(ApplyFilters(announcements, c))
        && (forall a :: a in filtered <==> a in announcements && Passes(c, a))
      ensures currentPage == 1
    {
      var c := Criteria(ctx.selectedCompany, ctx.searchTerm, ctx.selectedCategories, ctx.selectedSentiments);
      var chained := ApplyFilters(announcements, c);
      ApplyFiltersCharacterised(announcements, c);
      filtered := sort(chained);
      assert multiset(filtered) == multiset(chained);
      forall a
        ensures a in filtered <==> a in chained
      {
        assert a in filtered <==> a in multiset(filtered);
        assert a in chained <==> a in multiset(chained);
      }
      currentPage := 1;
    }

    /** `totalItems`: how many items the pager works on. It is 0 exactly
        when no filtered item is shown, which hides the pager. */
    function TotalItems(): (r: nat)
      reads this
      ensures r <= |filtered|
      ensures !showSavedFilings ==> r == |filtered|
      ensures r == 0 <==> forall a :: a in filtered ==> showSavedFilings && a.id !in savedFilings
    {
      var shown := DisplayedAnnouncements(filtered, savedFilings, showSavedFilings);
      assert shown != [] ==> shown[0] in shown;
      |shown|
    }

    /** A page within `TotalPages(TotalItems())` is never empty, and every
        page before the last one is full. */
    lemma PageInRangeShowsItems()
      requires TotalItems() > 0 && 1 <= currentPage <= TotalPages(TotalItems())
      ensures |CurrentPageItems()| > 0
      ensures currentPage < TotalPages(TotalItems()) ==> |CurrentPageItems()| == ItemsPerPage
    {
      var n := TotalItems();
      var pages := TotalPages(n);
      var start := (currentPage - 1) * ItemsPerPage;
      if pages > 1 {
        assert start <= (pages - 1) * ItemsPerPage;
      }
      assert start < n;
      if currentPage < pages {
        assert start + ItemsPerPage == currentPage * ItemsPerPage <= (pages - 1) * ItemsPerPage;
      }
    }

    /** `getCurrentPageItems`. */
    function CurrentPageItems(): (r: seq<Announcement>)
      reads this
      ensures |r| <= ItemsPerPage
      ensures forall a :: a in r ==> a in filtered && (showSavedFilings ==> a.id in savedFilings)
    {
      var shown := DisplayedAnnouncements(filtered, savedFilings, showSavedFilings);
      var r := PageItems(shown, currentPage);
      assert forall a :: a in r ==> a in shown by {
        if currentPage < 1 {
          var s := SliceIndex((currentPage - 1) * ItemsPerPage, |shown|);
          var e := SliceIndex((currentPage - 1) * ItemsPerPage + ItemsPerPage, |shown|);
          assert r == if s < e then shown[s..e] else [];
        }
      }
      r
    }

    /** `handleDateChange`: a non-empty value that is not a date is
        rejected; otherwise only the named bound changes. */
    method HandleDateChange(ctx: FilterContext, which: Bound, value: string)
      modifies ctx`dateStart, ctx`dateEnd
      ensures value != "" && !IsDateString(value) ==> ctx.dateStart == old(ctx.dateStart) && ctx.dateEnd == old(ctx.dateEnd)
      ensures value == "" || IsDateString(value) ==>
        && ctx.dateStart == (if which == Start then value else old(ctx.dateStart))
        && ctx.dateEnd == (if which == End then value else old(ctx.dateEnd))
    {
      if !IsDateString(value) && value != "" {
        return;
      }
      ctx.SetDateRange(if which == Start then value else ctx.dateStart,
                       if which == End then value else ctx.dateEnd);
    }

    /** `loadAnnouncements`, given the filters it reads and the outcome of
        the fetch it makes. On success every fetched id is recorded and the
        list replaced; on failure the error is set and an empty list is
        replaced by test data. */
    method LoadAnnouncements(ctx: FilterContext, outcome: Result<seq<Announcement>, string>, nowMs: nat, isoAt: int -> string)
      returns (request: FetchRequest)
      modifies this`announcements, this`processedIds, this`currentPage, this`error, this`isLoading
      ensures request == FetchArgs(ctx.dateStart, ctx.dateEnd, ctx.selectedIndustries)
      ensures !isLoading
      ensures outcome.Success? ==>
        && announcements == outcome.value && processedIds == old(processedIds) + IdsOf(outcome.value)
        && currentPage == 1 && error == None
      ensures outcome.Failure? ==>
        && error == Some(LoadFailedMessage) && processedIds == old(processedIds) && currentPage == old(currentPage)
        && announcements == if old(announcements) == [] then seq(FallbackTestCount, i requires 0 <= i < FallbackTestCount => TestAnnouncement(i, nowMs, isoAt)) else old(announcements)
    {
      isLoading, error := true, None;
      request := FetchArgs(ctx.dateStart, ctx.dateEnd, ctx.selectedIndustries);
      match outcome {
        case Success(data) =>
          RecordIds(data);
          announcements := data;
          currentPage := 1;
        case Failure(_) =>
          error := Some(LoadFailedMessage);
          if announcements == [] {
            announcements := GenerateTestData(FallbackTestCount, nowMs, isoAt);
          }
      }
      isLoading := false;
    }

    /** The loop that records every fetched id as processed. */
    method RecordIds(data: seq<Announcement>)
      modifies this`processedIds
      ensures processedIds == old(processedIds) + IdsOf(data)
    {
      var i := 0;
      while i < |data|
        invariant 0 <= i <= |data|
        invariant processedIds == old(processedIds) + IdsOf(data[..i])
      {
        assert IdsOf(data[..i + 1]) == IdsOf(data[..i]) + {data[i].id} by {
          assert data[..i + 1] == data[..i] + [data[i]];
        }
        processedIds := processedIds + {data[i].id};
        i := i + 1;
      }
      assert data[..|data|] == data;
    }

    /** The reload-trigger effect: a positive trigger that moved is
        remembered and the announcements are loaded again (`request` is the
        fetch made); any other trigger changes nothing. */
    method OnReloadTrigger(trigger: nat, ctx: FilterContext, outcome: Result<seq<Announcement>, string>, nowMs: nat, isoAt: int -> string)
      returns (reloaded: bool, request: Option<FetchRequest>)
      modifies this`announcements, this`processedIds, this`currentPage, this`error, this`isLoading, this`previousReloadTrigger
      ensures reloaded == ShouldReload(old(previousReloadTrigger), trigger)
      ensures reloaded ==>
        && previousReloadTrigger == trigger && !isLoading
        && request == Some(FetchArgs(ctx.dateStart, ctx.dateEnd, ctx.selectedIndustries))
      ensures reloaded && outcome.Success? ==>
        && announcements == outcome.value && processedIds == old(processedIds) + IdsOf(outcome.value)
        && currentPage == 1 && error == None
      ensures reloaded && outcome.Failure? ==>
        && error == Some(LoadFailedMessage) && processedIds == old(processedIds) && currentPage == old(currentPage)
        && announcements == if old(announcements) == [] then seq(FallbackTestCount, i requires 0 <= i < FallbackTestCount => TestAnnouncement(i, nowMs, isoAt)) else old(announcements)
      ensures !reloaded ==>
        && request == None
        && previousReloadTrigger == old(previousReloadTrigger) && announcements == old(announcements)
        && processedIds == old(processedIds) && error == old(error)
        && currentPage == old(currentPage) && isLoading == old(isLoading)
    {
      reloaded := ShouldReload(previousReloadTrigger, trigger);
      request := None;
      if reloaded {
        previousReloadTrigger := trigger;
        var fetch := LoadAnnouncements(ctx, outcome, nowMs, isoAt);
        request := Some(fetch);
      }
    }

    /** The room effect: when connected, join every room of `RoomList`, in order. */
    method JoinFilterRooms(ctx: FilterContext, socket: SocketContext.SocketProvider) returns (rooms: seq<string>)
      requires socket.Valid()
      modifies socket`activeRooms, socket`effects
      ensures socket.Valid()
      ensures rooms == if socket.isConnected then RoomList(ctx.selectedCompany, ctx.selectedIndustries, ctx.selectedCategories, announcements) else []
      ensures socket.activeRooms == old(socket.activeRooms) + Elems(rooms)
      ensures socket.effects == old(socket.effects) + SocketContext.RoomLog(socket.socketReady, rooms, true)
    {
      if !socket.isConnected {
        return [];
      }
      rooms := RoomList(ctx.selectedCompany, ctx.selectedIndustries, ctx.selectedCategories, announcements);
      RoomListNonEmpty(ctx.selectedCompany, ctx.selectedIndustries, ctx.selectedCategories, announcements);
      JoinEach(rooms, socket);
    }

    /** A change of the filters: the previous run's cleanup leaves its rooms,
        then the effect joins the rooms of the new filters. */
    method RefreshFilterRooms(previous: seq<string>, ctx: FilterContext, socket: SocketContext.SocketProvider)
      returns (rooms: seq<string>)
      requires socket.Valid() && "" !in previous
      modifies socket`activeRooms, socket`effects
      ensures socket.Valid()
      ensures rooms == if socket.isConnected then RoomList(ctx.selectedCompany, ctx.selectedIndustries, ctx.selectedCategories, announcements) else []
      ensures socket.activeRooms == (old(socket.activeRooms) - Elems(previous)) + Elems(rooms)
      ensures socket.effects == old(socket.effects) + SocketContext.RoomLog(socket.socketReady, previous, false)
                                + SocketContext.RoomLog(socket.socketReady, rooms, true)
    {
      LeaveFilterRooms(previous, socket);
      rooms := JoinFilterRooms(ctx, socket);
    }

    /** `joinRoom` for each room, in order. */
    static method JoinEach(rooms: seq<string>, socket: SocketContext.SocketProvider)
      requires socket.Valid() && "" !in rooms
      modifies socket`activeRooms, socket`effects
      ensures socket.Valid()
      ensures socket.activeRooms == old(socket.activeRooms) + Elems(rooms)
      ensures socket.effects == old(socket.effects) + SocketContext.RoomLog(socket.socketReady, rooms, true)
    {
      var i := 0;
      while i < |rooms|
        invariant 0 <= i <= |rooms|
        invariant socket.Valid()
        invariant socket.activeRooms == old(socket.activeRooms) + Elems(rooms[..i])
        invariant socket.effects == old(socket.effects) + SocketContext.RoomLog(socket.socketReady, rooms[..i], true)
      {
        assert rooms[..i + 1][..i] == rooms[..i];
        assert Elems(rooms[..i + 1]) == Elems(rooms[..i]) + {rooms[i]} by {
          assert rooms[..i + 1] == rooms[..i] + [rooms[i]];
        }
        socket.JoinRoom(rooms[i]);
        i := i + 1;
      }
      assert rooms[..|rooms|] == rooms;
    }

    /** The room effect's cleanup: leave every room that was joined. */
    static method LeaveFilterRooms(rooms: seq<string>, socket: SocketContext.SocketProvider)
      requires socket.Valid() && "" !in rooms
      modifies socket`activeRooms, socket`effects
      ensures socket.Valid()
      ensures socket.activeRooms == old(socket.activeRooms) - Elems(rooms)
      ensures socket.effects == old(socket.effects) + SocketContext.RoomLog(socket.socketReady, rooms, false)
    {
      var i := 0;
      while i < |rooms|
        invariant 0 <= i <= |rooms|
        invariant socket.Valid()
        invariant socket.activeRooms == old(socket.activeRooms) - Elems(rooms[..i])
        invariant socket.effects == old(socket.effects) + SocketContext.RoomLog(socket.socketReady, rooms[..i], false)
      {
        assert rooms[..i + 1][..i] == rooms[..i];
        assert Elems(rooms[..i + 1]) == Elems(rooms[..i]) + {rooms[i]} by {
          assert rooms[..i + 1] == rooms[..i] + [rooms[i]];
        }
        socket.LeaveRoom(rooms[i]);
        i := i + 1;
      }
      assert rooms[..|rooms|] == rooms;
    }
  }
}
