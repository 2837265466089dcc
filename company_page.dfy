/** The company page: the announcement preview text, the per-company
    announcement list, the saved-filing toggle and the two loaders. */
module CompanyPage {
  import opened Wrappers
  import opened Seqs
  import opened Announcements
  import StockPriceChart

  const PreviewLimit := 120
  const Ellipsis := "..."
  const OverviewCount := 3
  const LoadFailedMessage := "Failed to load announcements. Please try again."
  const StockFailedMessage := "Failed to load stock price data"

  // ---------------------------------------------------------------------
  // Preview text
  // ---------------------------------------------------------------------

  /** The characters JavaScript's `String.prototype.trim` removes. */
  predicate IsJsSpace(c: char) {
    c == '\t' || c == '\n' || c == '\U{000B}' || c == '\U{000C}' || c == '\r' || c == ' ' ||
    c == '\U{00A0}' || c == '\U{1680}' || ('\U{2000}' <= c <= '\U{200A}') ||
    c == '\U{2028}' || c == '\U{2029}' || c == '\U{202F}' || c == '\U{205F}' ||
    c == '\U{3000}' || c == '\U{FEFF}'
  }

  /** Every character of `s` is whitespace. */
  predicate AllSpace(s: string) {
    forall k :: 0 <= k < |s| ==> IsJsSpace(s[k])
  }

  /** `trimStart()`: a suffix that does not start with whitespace (only
      whitespace is removed: `TrimStartRemovesSpace`). */
  function TrimStart(s: string): (r: string)
    ensures |r| <= |s| && r == s[|s| - |r|..]
    ensures r == [] || !IsJsSpace(r[0])
  {
    if s != [] && IsJsSpace(s[0]) then TrimStart(s[1..]) else s
  }

  /** `trimEnd()`: a prefix that does not end with whitespace (only
      whitespace is removed: `TrimEndRemovesSpace`). */
  function TrimEnd(s: string): (r: string)
    ensures |r| <= |s| && r == s[..|r|]
    ensures r == [] || !IsJsSpace(r[|r| - 1])
  {
    if s != [] && IsJsSpace(s[|s| - 1]) then TrimEnd(s[..|s| - 1]) else s
  }

  /** Everything `trimStart()` removes is whitespace. */
  lemma {:induction false} TrimStartRemovesSpace(s: string)
    ensures AllSpace(s[..|s| - |TrimStart(s)|])
  {
    if s != [] && IsJsSpace(s[0]) {
      var r := TrimStart(s[1..]);
      TrimStartRemovesSpace(s[1..]);
      assert forall k :: 1 <= k < |s| - |r| ==> s[k] == s[1..][..|s| - 1 - |r|][k - 1];
    }
  }

  /** Everything `trimEnd()` removes is whitespace. */
  lemma {:induction false} TrimEndRemovesSpace(s: string)
    ensures AllSpace(s[|TrimEnd(s)|..])
  {
    if s != [] && IsJsSpace(s[|s| - 1]) {
      var r := TrimEnd(s[..|s| - 1]);
      TrimEndRemovesSpace(s[..|s| - 1]);
      assert forall k :: |r| <= k < |s| - 1 ==> s[k] == s[..|s| - 1][|r|..][k - |r|];
    }
  }

  /** `trim()`: whitespace is removed from both ends (see `TrimIsSlice`). */
  function Trim(s: string): (r: string)
    ensures |r| <= |s| && forall c :: c in r ==> c in s
    ensures r == [] || (!IsJsSpace(r[0]) && !IsJsSpace(r[|r| - 1]))
  {
    var t := TrimStart(s);
    var r := TrimEnd(t);
    assert forall k :: 0 <= k < |r| ==> r[k] == s[|s| - |t| + k];
    r
  }

  /** The trim is a contiguous slice of the input, and everything cut away
      on either side of it is whitespace. */
  lemma TrimIsSlice(s: string)
    ensures exists i, j :: 0 <= i <= j <= |s| && Trim(s) == s[i..j] && AllSpace(s[..i]) && AllSpace(s[j..])
  {
    var t := TrimStart(s);
    var r := TrimEnd(t);
    var i := |s| - |t|;
    TrimStartRemovesSpace(s);
    TrimEndRemovesSpace(t);
    assert r == s[i..i + |r|];
    assert t[|r|..] == s[i + |r|..];
  }

  /** A string with no whitespace at either end is its own trim. */
  lemma TrimmedUnchanged(s: string)
    requires s == [] || (!IsJsSpace(s[0]) && !IsJsSpace(s[|s| - 1]))
    ensures Trim(s) == s
  {
  }

  /** Drops a leading run of newlines. */
  function DropNewlines(s: string): (r: string)
    ensures |r| <= |s| && r == s[|s| - |r|..]
    ensures r == [] || r[0] != '\n'
    ensures forall k :: 0 <= k < |s| - |r| ==> s[k] == '\n'
  {
    if s != [] && s[0] == '\n' then DropNewlines(s[1..]) else s
  }

  /** `replace(/\n+/g, ' ')`: every run of newlines becomes one space. */
  function CollapseNewlines(s: string): (r: string)
    ensures '\n' !in r
    ensures |r| <= |s|
    ensures '\n' !in s ==> r == s
    decreases |s|
  {
    if s == [] then []
    else if s[0] == '\n' then [' '] + CollapseNewlines(DropNewlines(s[1..]))
    else [s[0]] + CollapseNewlines(s[1..])
  }

  /** `n` is a run of newlines. */
  predicate AllNewlines(n: string) {
    forall k :: 0 <= k < |n| ==> n[k] == '\n'
  }

  /** A leading run that stops inside `x` does not reach `y`. */
  lemma {:induction false} DropNewlinesConcat(x: string, y: string)
    requires x != [] && x[|x| - 1] != '\n'
    ensures DropNewlines(x + y) == DropNewlines(x) + y
    decreases |x|
  {
    if x[0] == '\n' {
      assert (x + y)[1..] == x[1..] + y;
      DropNewlinesConcat(x[1..], y);
    }
  }

  /** A run of newlines followed by text that does not start with one drops to that text. */
  lemma {:induction false} DropNewlinesRun(n: string, b: string)
    requires AllNewlines(n)
    requires b == [] || b[0] != '\n'
    ensures DropNewlines(n + b) == b
    decreases |n|
  {
    if n == [] {
      assert n + b == b;
    } else {
      assert (n + b)[1..] == n[1..] + b;
      DropNewlinesRun(n[1..], b);
    }
  }

  /** No run of newlines crosses a boundary after a character that is not a
      newline, so each side is collapsed on its own. */
  lemma {:induction false} CollapseConcat(a: string, b: string)
    requires a == [] || a[|a| - 1] != '\n'
    ensures CollapseNewlines(a + b) == CollapseNewlines(a) + CollapseNewlines(b)
    decreases |a|
  {
    if a == [] {
      assert a + b == b;
    } else if a[0] != '\n' {
      assert (a + b)[1..] == a[1..] + b;
      CollapseConcat(a[1..], b);
    } else {
      var rest := DropNewlines(a[1..]);
      assert (a + b)[1..] == a[1..] + b;
      DropNewlinesConcat(a[1..], b);
      assert rest != [] && rest[|rest| - 1] == a[|a| - 1];
      CollapseConcat(rest, b);
    }
  }

  /** Each maximal run of newlines becomes exactly one space, and the text on
      either side of it is kept. */
  lemma CollapseRun(a: string, n: string, b: string)
    requires |n| > 0 && AllNewlines(n)
    requires a == [] || a[|a| - 1] != '\n'
    requires b == [] || b[0] != '\n'
    ensures CollapseNewlines(a + n + b) == CollapseNewlines(a) + [' '] + CollapseNewlines(b)
  {
    AppendAssoc(a, n, b);
    CollapseConcat(a, n + b);
    CollapseLeadingRun(n, b);
    AppendAssoc(CollapseNewlines(a), [' '], CollapseNewlines(b));
  }

  /** A string that opens with a run of newlines collapses it to one space. */
  lemma CollapseLeadingRun(n: string, b: string)
    requires |n| > 0 && AllNewlines(n)
    requires b == [] || b[0] != '\n'
    ensures CollapseNewlines(n + b) == [' '] + CollapseNewlines(b)
  {
    var nb := n + b;
    assert nb[0] == '\n' && nb[1..] == n[1..] + b;
    DropNewlinesRun(n[1..], b);
  }

  /** The cleaned text before truncation. The input is the summary after the
      company-name prefix and the markdown markup have been stripped. */
  function Cleaned(text: string): (r: string)
    ensures '\n' !in r
  {
    Trim(CollapseNewlines(text))
  }

  /** `getPreviewText`'s truncation: the cleaned text when it has at most 120
      characters, otherwise its first 120 characters and an ellipsis. */
  function PreviewText(text: string): (r: string)
    ensures '\n' !in r
    ensures |r| <= PreviewLimit + |Ellipsis|
    ensures |Cleaned(text)| <= PreviewLimit ==> r == Cleaned(text)
    ensures |Cleaned(text)| > PreviewLimit ==>
      |r| == PreviewLimit + |Ellipsis| && r[..PreviewLimit] == Cleaned(text)[..PreviewLimit] && r[PreviewLimit..] == Ellipsis
  {
    var t := Cleaned(text);
    if |t| > PreviewLimit then
      var r := t[..PreviewLimit] + Ellipsis;
      assert forall k :: 0 <= k < PreviewLimit ==> r[k] == t[k];
      assert forall k :: PreviewLimit <= k < |r| ==> r[k] == '.';
      r
    else t
  }

  /** Text that is already a clean, short preview is shown as it is. */
  lemma TidyTextIsItsOwnPreview(text: string)
    requires '\n' !in text && |text| <= PreviewLimit
    requires text == [] || (!IsJsSpace(text[0]) && !IsJsSpace(text[|text| - 1]))
    ensures PreviewText(text) == text
  {
    TrimmedUnchanged(text);
  }

  /** Previewing a preview changes nothing. */
  lemma PreviewIdempotent(text: string)
    ensures PreviewText(PreviewText(text)) == PreviewText(text)
  {
    var t := Cleaned(text);
    var r := PreviewText(text);
    if |t| > PreviewLimit {
      assert r[0] == t[0];
      assert r[|r| - 1] == '.';
      TrimmedUnchanged(r);
      assert Cleaned(r) == r;
      assert r[..PreviewLimit] + Ellipsis == r;
    } else {
      TrimmedUnchanged(t);
    }
  }

  // ---------------------------------------------------------------------
  // Per-company announcement list
  // ---------------------------------------------------------------------

  /** The page's filter as written: same company name, or same ticker. */
  function MatchesCompanyAsWritten(company: Company): Announcement -> bool {
    (a: Announcement) => a.company == company.name || a.ticker == company.symbol
  }

  function CompanyAnnouncementsAsWritten(fetched: seq<Announcement>, company: Company): (r: seq<Announcement>)
    ensures forall a :: a in r <==> a in fetched && (a.company == company.name || a.ticker == company.symbol)
  {
    Filter(fetched, MatchesCompanyAsWritten(company))
  }

  /** A company without a symbol (one with no NSE code) picks up every
      announcement that has no ticker, whatever company it is about. */
  lemma EmptySymbolAdmitsOtherCompanies()
    ensures var company := Company("c1", "Acme", "", "INE000A01011", "Chemicals");
      var other := Announcement("a1", "Other Co", "", "Other", "2024-01-02", "", "", "", "Neutral", false);
      CompanyAnnouncementsAsWritten([other], company) == [other] &&
      CompanyAnnouncements([other], company) == []
  {
    var company := Company("c1", "Acme", "", "INE000A01011", "Chemicals");
    var other := Announcement("a1", "Other Co", "", "Other", "2024-01-02", "", "", "", "Neutral", false);
    assert MatchesCompanyAsWritten(company)(other);
    assert !MatchesCompany(company)(other);
    assert [other][1..] == [];
  }

  /** The intended filter: same company name, or same non-empty ticker. */
  function MatchesCompany(company: Company): Announcement -> bool {
    (a: Announcement) => a.company == company.name || (company.symbol != "" && a.ticker == company.symbol)
  }

  /** The fetched announcements about `company`, in fetched order. */
  function CompanyAnnouncements(fetched: seq<Announcement>, company: Company): (r: seq<Announcement>)
    ensures |r| <= |fetched|
    ensures forall a :: a in r <==> a in fetched && (a.company == company.name || (company.symbol != "" && a.ticker == company.symbol))
  {
    Filter(fetched, MatchesCompany(company))
  }

  /** The list keeps exactly the announcements about the company, in the
      order fetched; with no symbol only the company name decides. */
  lemma CompanyAnnouncementsCharacterised(fetched: seq<Announcement>, company: Company)
    ensures forall a :: a in CompanyAnnouncements(fetched, company) <==>
      a in fetched && (a.company == company.name || (company.symbol != "" && a.ticker == company.symbol))
    ensures company.symbol == "" ==>
      forall a :: a in CompanyAnnouncements(fetched, company) ==> a.company == company.name
    ensures IsSubsequence(CompanyAnnouncements(fetched, company), fetched)
  {
    FilterIsSubsequence(fetched, MatchesCompany(company));
  }

  /** For a company with a symbol, the intended filter is the written one. */
  lemma CorrectionAgreesWithSymbol(fetched: seq<Announcement>, company: Company)
    requires company.symbol != ""
    ensures CompanyAnnouncements(fetched, company) == CompanyAnnouncementsAsWritten(fetched, company)
  {
    FilterExt(fetched, MatchesCompany(company), MatchesCompanyAsWritten(company));
  }

  /** `announcements.slice(0, 3)` on the overview tab. */
  function OverviewPreview(xs: seq<Announcement>): (r: seq<Announcement>)
    ensures |r| <= OverviewCount
    ensures r <= xs
    ensures |r| == |xs| || |r| == OverviewCount
  {
    if |xs| <= OverviewCount then xs else xs[..OverviewCount]
  }

  // ---------------------------------------------------------------------
  // The page
  // ---------------------------------------------------------------------

  class Page {
    var announcements: seq<Announcement>
    var isLoading: bool
    var error: Option<string>
    var savedFilings: seq<string>
    var stockPriceData: seq<StockPriceChart.PricePoint>
    var stockDataLoading: bool
    var stockDataError: Option<string>

    constructor ()
      ensures announcements == [] && isLoading && error == None && savedFilings == []
      ensures stockPriceData == [] && !stockDataLoading && stockDataError == None
    {
      announcements, isLoading, error, savedFilings := [], true, None, [];
      stockPriceData, stockDataLoading, stockDataError := [], false, None;
    }

    /** `loadAnnouncements`, given the fetch's outcome. */
    method LoadAnnouncements(company: Company, outcome: Result<seq<Announcement>, string>)
      modifies this`announcements, this`isLoading, this`error
      ensures !isLoading
      ensures outcome.Success? ==> error == None && announcements == CompanyAnnouncements(outcome.value, company)
      ensures outcome.Failure? ==> error == Some(LoadFailedMessage) && announcements == old(announcements)
    {
      isLoading, error := true, None;
      match outcome {
        case Success(data) =>
          announcements := CompanyAnnouncements(data, company);
        case Failure(_) =>
          error := Some(LoadFailedMessage);
      }
      isLoading := false;
    }

    /** `loadStockData`: a company without an ISIN is not fetched at all. */
    method LoadStockData(company: Company, outcome: Result<seq<StockPriceChart.PricePoint>, string>)
      returns (fetched: bool)
      modifies this`stockPriceData, this`stockDataLoading, this`stockDataError
      ensures fetched <==> company.isin != ""
      ensures !fetched ==> unchanged(this)
      ensures fetched ==> !stockDataLoading
      ensures fetched && outcome.Success? ==> stockDataError == None && stockPriceData == outcome.value
      ensures fetched && outcome.Failure? ==>
        stockDataError == Some(StockFailedMessage) && stockPriceData == old(stockPriceData)
    {
      if company.isin == "" {
        return false;
      }
      fetched := true;
      stockDataLoading, stockDataError := true, None;
      match outcome {
        case Success(data) =>
          stockPriceData := data;
        case Failure(_) =>
          stockDataError := Some(StockFailedMessage);
      }
      stockDataLoading := false;
    }

    /** `toggleSavedFiling`: removes a saved id, or appends an unsaved one. */
    method ToggleSavedFiling(id: string)
      modifies this`savedFilings
      ensures savedFilings == Toggle(old(savedFilings), id)
      ensures id in savedFilings <==> id !in old(savedFilings)
      ensures forall other :: other != id ==> (other in savedFilings <==> other in old(savedFilings))
    {
      savedFilings := Toggle(savedFilings, id);
    }
  }
}
