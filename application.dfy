/** The top-level application shell: page navigation, the app's own
    duplicate guard for the provider's callback, and the reload trigger that
    the badge fires. */
module Application {
  import opened Wrappers
  import opened Announcements
  import SocketContext

  const ReloadedNotice := "Announcements reloaded!"

  datatype Page = DashboardPage | WatchlistPage | CompanyPage

  /** The pages `handleNavigate` can be asked for. */
  datatype NavTarget = Home | Watchlist | CompanyTarget

  /** `{ watchlistId?: string }`; `{}` has no id. */
  datatype WatchlistParams = WatchlistParams(watchlistId: Option<string>)

  const NoParams := WatchlistParams(None)

  /** The app's identity for the record the provider's callback delivers:
      `corp_id || id`, else a fresh random id. The delivered record has no
      `corp_id` property, so its own `id` decides. */
  function AppIdentity(a: Announcement, freshSuffix: string): (id: string)
    ensures id != ""
    ensures a.id != "" ==> id == a.id
    ensures a.id == "" ==> id == SocketContext.FreshId(freshSuffix)
  {
    if a.id != "" then a.id else SocketContext.FreshId(freshSuffix)
  }

  /** The enhancer, when it succeeds, keeps the record's id. */
  ghost predicate KeepsIds(enhance: Announcement -> Option<Announcement>) {
    forall x :: enhance(x).Some? ==> enhance(x).value.id == x.id
  }

  /** The callback the provider issues for a new message carries a record
      whose identity in the app is the provider's own identity for that
      message, whatever random suffix the app would draw: the two duplicate
      guards agree on every record that reaches the app. */
  lemma CallbackIdentityAgrees(s: SocketContext.Pipeline, m: SocketContext.Inbound,
                               enhance: Announcement -> Option<Announcement>, freshSuffix: string)
    requires SocketContext.IsNew(s, m)
    requires KeepsIds(enhance)
    ensures var a := SocketContext.DeliveredFor(m, enhance);
      && SocketContext.Callback(a) in SocketContext.Process(s, m, enhance, true).emitted
      && AppIdentity(a, freshSuffix) == SocketContext.Identity(m.payload.value, m.freshSuffix)
  {
    var p := m.payload.value;
    var id := SocketContext.Identity(p, m.freshSuffix);
    var record := SocketContext.Normalize(p, id, m.nowIso);
    var a := SocketContext.DeliveredFor(m, enhance);
    assert a.id == id;
    var r := SocketContext.Notify(SocketContext.Pipeline(s.processed + {id}, s.cache), a, m.now, true);
    assert r.emitted[|r.emitted| - 1] == SocketContext.Callback(a);
  }

  class App {
    var activePage: Page
    var selectedCompany: Option<Company>
    var watchlistParams: WatchlistParams
    var reloadTrigger: nat
    var processedIds: set<string>
    /** Success toasts shown. */
    var notices: seq<string>

    constructor ()
      ensures activePage == DashboardPage && selectedCompany == None && watchlistParams == NoParams
      ensures reloadTrigger == 0 && processedIds == {} && notices == []
    {
      activePage, selectedCompany, watchlistParams := DashboardPage, None, NoParams;
      reloadTrigger, processedIds, notices := 0, {}, [];
    }

    /** `handleNavigate`: home clears the company; watchlist takes the given
        params or none; company only switches when one is selected. */
    method HandleNavigate(target: NavTarget, params: Option<WatchlistParams>)
      modifies this`activePage, this`selectedCompany, this`watchlistParams
      ensures target == Home ==>
        activePage == DashboardPage && selectedCompany == None && watchlistParams == old(watchlistParams)
      ensures target == Watchlist ==>
        && activePage == WatchlistPage && selectedCompany == old(selectedCompany)
        && watchlistParams == params.GetOr(NoParams)
      ensures target == CompanyTarget ==>
        && activePage == (if old(selectedCompany).Some? then CompanyPage else old(activePage))
        && selectedCompany == old(selectedCompany) && watchlistParams == old(watchlistParams)
    {
      match target {
        case Home =>
          activePage, selectedCompany := DashboardPage, None;
        case Watchlist =>
          activePage, watchlistParams := WatchlistPage, params.GetOr(NoParams);
        case CompanyTarget =>
          if selectedCompany.Some? {
            activePage := CompanyPage;
          }
      }
    }

    /** `handleCompanyClick`. */
    method HandleCompanyClick(company: Company)
      modifies this`activePage, this`selectedCompany
      ensures selectedCompany == Some(company) && activePage == CompanyPage
    {
      selectedCompany, activePage := Some(company), CompanyPage;
    }

    /** `handleViewAnnouncements`. */
    method HandleViewAnnouncements()
      modifies this`activePage
      ensures activePage == DashboardPage
    {
      activePage := DashboardPage;
    }

    /** `handleNewAnnouncement`, the provider's callback: an empty argument
        is ignored; otherwise the record's identity is recorded once. It
        returns whether the identity was new. */
    method HandleNewAnnouncement(delivered: Option<Announcement>, freshSuffix: string) returns (added: bool)
      modifies this`processedIds
      ensures delivered.None? ==> !added && processedIds == old(processedIds)
      ensures delivered.Some? ==>
        var id := AppIdentity(delivered.value, freshSuffix);
        && added == (id !in old(processedIds))
        && processedIds == old(processedIds) + {id}
    {
      if delivered.None? {
        return false;
      }
      var id := AppIdentity(delivered.value, freshSuffix);
      if id in processedIds {
        return false;
      }
      processedIds := processedIds + {id};
      added := true;
    }

    /** `handleReloadAnnouncements`: forget the processed ids, bump the
        trigger the dashboard watches, and show a success toast. */
    method HandleReloadAnnouncements()
      modifies this`processedIds, this`reloadTrigger, this`notices
      ensures processedIds == {} && reloadTrigger == old(reloadTrigger) + 1
      ensures notices == old(notices) + [ReloadedNotice]
    {
      processedIds := {};
      reloadTrigger := reloadTrigger + 1;
      notices := notices + [ReloadedNotice];
    }
  }
}
