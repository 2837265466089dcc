# MarketWire live-update dashboard, modelled in Dafny

MarketWire is a React dashboard for listed-company announcements (filings).
Its core is the live-update pipeline of `SocketProvider`. An inbound
socket message is given an identity and checked against the set of ids
processed on this connection. A new message is normalised into an
announcement. It then raises one toast (rate-limited by a time-windowed
toast cache), one `new-announcement-received` window event and one call
of the app's callback. A re-entrancy flag defers messages that arrive
while another is being processed. The provider also tracks the connection
status, remembers the rooms it has joined, and rejoins them on connect.

The app's own duplicate guard reads `corp_id || id` from the record the
provider delivers (`src/App.tsx:79-81`). That record has no `corp_id`, and
its `id` is the provider's identity for the message, so the two guards agree
on every record that reaches the app (`Application.CallbackIdentityAgrees`).

Around that pipeline the model covers:

- the app shell: navigation, the app's own duplicate guard, and the
  reload trigger;
- the "new announcements" badge and the notification indicator;
- the dashboard: filter chain, pagination, date validation, fetch
  parameters, socket rooms derived from the filters, fallback test data,
  viewed and saved lists, and the reload effect;
- the category colour table;
- the filter panel's toggles;
- the company page: preview truncation, per-company list, saved filings,
  and loaders;
- the price chart's time-range window.

Each React component whose handlers update state is a `class`. Its
fields are the component's state and refs, and each handler is a method
with a `modifies` frame. The pipeline is also given as a function
(`SocketContext.Process`, `SocketContext.Run`) over an explicit state of
processed ids and toast cache. The provider's method is proved to follow
that function, and the per-connection properties are proved about it.

Side effects the pipeline causes outside its own state are recorded in an
effect log (`SocketContext.Effect`): toasts, window events, callback
calls, socket joins and leaves, and connection notices. The clock, random
ids and the results of network calls are parameters. The enhancer is a
function that may fail (`None`).

Modules, one per source file, plus shared helpers:

| module | file | models |
|---|---|---|
| `Wrappers`, `Seqs`, `Text`, `Announcements` | `wrappers.dfy`, `seqs.dfy`, `text.dfy`, `announcements.dfy` | Option/Result, JavaScript `filter`/toggle/`indexOf` de-duplication, digits, lower-casing, `includes`, the payload/announcement/company records |
| `SocketContext` | `socket_context.dfy` | `src/context/SocketContext.tsx` |
| `Application` | `application.dfy` | `src/App.tsx` |
| `AnnouncementBadge` | `badge.dfy` | `src/components/common/NewAnnouncementBadge.tsx` |
| `NotificationIndicator` | `notification_indicator.dfy` | `src/components/common/NotificationIndicator.tsx` |
| `FilterState` | `filter_context.dfy` | the shared filter state read by the dashboard and written by the panel |
| `Dashboard` | `dashboard.dfy` | `src/components/Dashboard.tsx` |
| `CategoryUtils` | `category_utils.dfy` | `src/utils/categoryUtils.ts` |
| `FilterPanel` | `filter_panel.dfy` | `src/components/common/FilterPanel.tsx` |
| `CompanyPage` | `company_page.dfy` | `src/components/company/CompanyPage.tsx` |
| `StockPriceChart` | `stock_price_chart.dfy` | `src/components/company/StockPriceChart.tsx` |

Two places where the code does less than its own comments promise; the
model follows the code:

- **Reconnect and the duplicate guard.** `reconnect` and `handleConnect`
  clear the processed ids so that no announcement is missed
  (`src/context/SocketContext.tsx:206-207`, `:272-273`). The toast cache
  only rate-limits toasts (`:58-64`). But the connection's message callback
  is wrapped by a guard (`src/context/SocketContext.tsx:184-192`). The guard
  drops the whole message when its correlation id is in the toast cache at
  all, however old the entry. Entries are pruned only when another toast is
  shown.
  - So after a reconnect, a redelivered message whose toast was shown
    45 s earlier raises no badge event at all, although the pipeline itself
    would raise one. `SocketContext.WrapperOutlastsReconnect` exhibits this.
  - A connection set up by `reconnect` when no socket exists is not wrapped
    (`src/context/SocketContext.tsx:279`). `SocketProvider.wrapped` records
    which case applies.
- **Reconnect after a failed setup.** The connect, disconnect and error
  listeners are registered only after `setupSocketConnection` succeeded in
  the mount effect (`src/context/SocketContext.tsx:243-245`). When that setup
  fails, the status is `error`, and the dashboard's retry calls `reconnect`
  (`src/components/Dashboard.tsx:148-150`). `reconnect` then sets up a new
  connection, since none exists (`:277-281`), but registers no listener. So
  the status stays `connecting`, and rooms are not rejoined on connect.
  `SocketProvider.listening` records whether the listeners exist, and
  `SocketContext.FailedSetupScenario` exhibits this state.
## Model

| member | source | states |
|---|---|---|
| SocketContext.Identity | src/context/SocketContext.tsx:111-114 | The identity is never empty: `corp_id`, else `id`, else `dedup_id`, else `companyname-<first 20 chars of summary>` when both are present, else a fresh `new-…` id |
| SocketContext.CorrelatedIdentity | src/context/SocketContext.tsx:111 | Two payloads carrying the same correlation id get that id as their identity, whatever else they carry and whatever random suffix is drawn |
| SocketContext.CompositeIdentityCollapses | src/context/SocketContext.tsx:112-113 | Without a correlation id, the same company name and the same first 20 summary characters give one identity |
| SocketContext.Normalize | src/context/SocketContext.tsx:123-134 | The record keeps the identity as its id, is `Neutral` and new, has `detailedContent` equal to its summary, and never has an empty company or category |
| SocketContext.NormalizeDefaults | src/context/SocketContext.tsx:123-134 | An empty payload normalises to company "Unknown Company", ticker "", category "Other", date = now, summary "", isin "" |
| SocketContext.CacheAfterToast | src/context/SocketContext.tsx:58-91 | A toast within 30000 ms of the last one for the id leaves the cache unchanged. Otherwise the id maps to now, every surviving entry is at most 60000 ms old, and every other in-window entry survives unchanged |
| SocketContext.ToastAllowed | src/context/SocketContext.tsx:58-64 | An id never toasted may be toasted; one toasted less than 30000 ms ago may not |
| SocketContext.Notify | src/context/SocketContext.tsx:136-167 | The processed set is unchanged; the log holds the badge event, the callback exactly when one is given, and the toast exactly when the cache allows it, all for the same record |
| SocketContext.Process | src/context/SocketContext.tsx:106-169 | The identity is added to the processed set. An empty or already-processed message emits nothing. A new one emits exactly one badge event, one callback if a callback is given, and one toast exactly when the cache allows it. Every effect carries the enhanced record, or the plain one when enhancement fails. The cache becomes `CacheAfterToast` |
| SocketContext.Run | src/context/SocketContext.tsx:106-169 | Processing messages one after another only adds to the processed set, emits at most three effects per message, and emits only toasts, badge events and callbacks |
| SocketContext.AtMostOncePerConnection | src/context/SocketContext.tsx:116-121 | Over any run of messages sharing one identity, the badge and callback counts are 1 if the identity was unseen and 0 otherwise, the toast count is at most that, and the identity ends up processed |
| SocketContext.RepeatedMessageScenario | src/context/SocketContext.tsx:111-121 | `{corp_id: "X1", companyname: "Acme", …}` delivered twice on a fresh connection gives one toast and one badge event |
| SocketContext.ReconnectTreatsSeenIdentityAsNewOnce | src/context/SocketContext.tsx:268-273 | After the processed set is cleared, messages with a previously seen identity raise exactly one badge event and callback, and at most one toast |
| SocketContext.WrapperOutlastsReconnect | src/context/SocketContext.tsx:184-192 | A redelivery whose cache entry is 45 s old is dropped by the wrapper although the pipeline would raise a badge event for it |
| SocketContext.RejoinAll | src/context/SocketContext.tsx:216-220 | One join per remembered room and nothing else |
| SocketContext.SocketProvider.constructor | src/context/SocketContext.tsx:44-52 | Connecting, not connected, no error, no processed ids, rooms or cache entries |
| SocketContext.SocketProvider.Initialize | src/context/SocketContext.tsx:178-264 | Setting up succeeds with a wrapped socket and the three status listeners registered, or fails with status error and `lastError` "Failed to initialize socket: " + the reason, registering nothing |
| SocketContext.SocketProvider.PruneToastCache | src/context/SocketContext.tsx:86-91 | The key-by-key deletion loop leaves exactly the entries stamped at or after the cutoff |
| SocketContext.SocketProvider.ShowAnnouncementToast | src/context/SocketContext.tsx:55-92 | The cache becomes `CacheAfterToast`, and a toast is logged exactly when it is allowed |
| SocketContext.SocketProvider.Dispatch | src/context/SocketContext.tsx:139-152 | Toast attempt, badge event and optional callback for one record, as `Notify` states |
| SocketContext.SocketProvider.ProcessNewAnnouncement | src/context/SocketContext.tsx:95-175 | A call made while processing is deferred and changes nothing. Otherwise the state and effects follow `Process`, and the flag is cleared on every exit |
| SocketContext.SocketProvider.OnSocketMessage | src/context/SocketContext.tsx:184-192 | A wrapped connection drops a message whose correlation id is in the toast cache, changing nothing. Any other message goes to `ProcessNewAnnouncement` |
| SocketContext.SocketProvider.HandleConnect | src/context/SocketContext.tsx:200-221 | Only once a successful mount registered the listeners: connected, error cleared, processed ids forgotten, one connection notice, then exactly one join per active room |
| SocketContext.SocketProvider.HandleDisconnect | src/context/SocketContext.tsx:223-234 | Only once a successful mount registered the listeners: disconnected, with one disconnection notice |
| SocketContext.SocketProvider.HandleError | src/context/SocketContext.tsx:236-240 | Only once a successful mount registered the listeners: status error, and `lastError` is the message or "Unknown connection error" |
| SocketContext.SocketProvider.Reconnect | src/context/SocketContext.tsx:268-283 | Back to connecting with the processed ids cleared. It reconnects the existing socket, or sets up an unwrapped new one that gets no status listeners; when that unguarded setup fails, the exception escapes and there is still no socket |
| SocketContext.SocketProvider.JoinRoom | src/context/SocketContext.tsx:287-298 | An empty room is ignored. Otherwise the room is remembered, and joined when a socket exists |
| SocketContext.SocketProvider.LeaveRoom | src/context/SocketContext.tsx:299-308 | An empty room is ignored. Otherwise the room is forgotten, and left when a socket exists |
| SocketContext.SocketProvider.Unmount | src/context/SocketContext.tsx:246-262 | Only the cleanup of a successful mount does anything: it disconnects the mount's socket, and afterwards no status listener is registered |
| SocketContext.StatusScenario | src/context/SocketContext.tsx:178-283 | Mount, connect, a message-less error, a manual reconnect and a second connect end connected with no error |
| SocketContext.FailedSetupScenario | src/context/SocketContext.tsx:243-281 | After a failed mount and a manual reconnect a socket exists, but no status listener is registered and the status is still connecting |
| Application.AppIdentity | src/App.tsx:79-81 | Never empty: the delivered record's own id, or a fresh `new-…` id when it has none |
| Application.CallbackIdentityAgrees | src/App.tsx:79-81 | For a new message the provider issues one callback carrying the delivered record, and the app's identity for that record is the provider's identity for the message (given an enhancer that keeps ids) |
| Application.App.constructor | src/App.tsx:23-29 | Dashboard page, no company, empty params, trigger 0, no processed ids |
| Application.App.HandleNavigate | src/App.tsx:47-60 | Home shows the dashboard and clears the company. Watchlist takes the given params or `{}`. Company switches only when a company is selected |
| Application.App.HandleCompanyClick | src/App.tsx:62-65 | The company is selected and its page shown |
| Application.App.HandleViewAnnouncements | src/App.tsx:43-45 | The dashboard is shown |
| Application.App.HandleNewAnnouncement | src/App.tsx:68-101 | An empty argument is ignored. Otherwise the delivered record's identity is added, and reported new exactly when it was absent |
| Application.App.HandleReloadAnnouncements | src/App.tsx:104-118 | The processed ids are cleared, the trigger goes up by exactly 1, and one "Announcements reloaded!" notice is shown |
| AnnouncementBadge.LabelPlural | src/components/common/NewAnnouncementBadge.tsx:78 | The label reads "announcements - Click to reload" exactly when the count is not 1 |
| AnnouncementBadge.Badge.Rendered | src/components/common/NewAnnouncementBadge.tsx:58-60 | Nothing is rendered exactly when the badge is hidden or the count is 0 |
| AnnouncementBadge.Badge.constructor | src/components/common/NewAnnouncementBadge.tsx:12-13 | Count 0, hidden |
| AnnouncementBadge.Badge.Mount | src/components/common/NewAnnouncementBadge.tsx:17-21 | Whatever the prior state, count 0 and hidden |
| AnnouncementBadge.Badge.OnAnnouncementEvent | src/components/common/NewAnnouncementBadge.tsx:25-35 | An event with a detail adds exactly 1 and shows the badge. One without changes nothing |
| AnnouncementBadge.Badge.Click | src/components/common/NewAnnouncementBadge.tsx:46-55 | The app reloads once (trigger + 1, processed ids cleared), and the badge is hidden with count 0 |
| NotificationIndicator.InlineIndicator | src/components/common/NotificationIndicator.tsx:8-24 | Nothing is rendered exactly when the count is at most 0 |
| NotificationIndicator.InlineIndicatorPlural | src/components/common/NotificationIndicator.tsx:21 | The label ends in "updates" exactly when the count is not 1 |
| NotificationIndicator.AudioFromStorage | src/components/common/NotificationIndicator.tsx:36-38 | Sound is off exactly when "disabled" is stored |
| NotificationIndicator.Indicator.constructor | src/components/common/NotificationIndicator.tsx:34-38 | Count 0, hidden, and sound read from storage |
| NotificationIndicator.Indicator.ToggleAudio | src/components/common/NotificationIndicator.tsx:49-53 | The preference flips, and the stored value reads back as the new preference |
| NotificationIndicator.Indicator.OnNewAnnouncementsChanged | src/components/common/NotificationIndicator.tsx:55-67 | A non-empty list sets the count to its length, shows the indicator, and chimes if sound is on. An empty one hides it |
| NotificationIndicator.Indicator.OnAnnouncementEvent | src/components/common/NotificationIndicator.tsx:69-86 | An event with a detail adds 1, shows the indicator, and chimes if sound is on |
| CategoryUtils.ColorsIn | src/utils/categoryUtils.ts:55-68 | The scheme of the first parent listing the name, else the default. The result is always the default or some parent's scheme |
| CategoryUtils.GetCategoryColors | src/utils/categoryUtils.ts:53-69 | The result is always one of the table's eight schemes |
| CategoryUtils.DefaultIsAdministrativeMatters | src/utils/categoryUtils.ts:64-68 | The default colours are those of "Administrative Matters" |
| CategoryUtils.ParentsDisjoint | src/utils/categoryUtils.ts:9-50 | No category is listed under two parents |
| CategoryUtils.ListedCategoryColors | src/utils/categoryUtils.ts:55-61 | A listed category gets its own parent's colours |
| CategoryUtils.UnknownCategoryColors | src/utils/categoryUtils.ts:64-68 | An unlisted category gets the default colours |
| CategoryUtils.FlattenLength | src/utils/categoryUtils.ts:72-74 | Flattening keeps every item of every parent |
| CategoryUtils.HierarchyItemCount | src/utils/categoryUtils.ts:9-50 | The eight parents list 55 categories in total |
| CategoryUtils.GetAllCategories | src/utils/categoryUtils.ts:72-74 | 55 categories, exactly those listed under some parent |
| FilterPanel.InitialExpansionMatchesHierarchy | src/components/common/FilterPanel.tsx:31-40 | The expansion keys are exactly the colour table's parents, all expanded |
| FilterPanel.ToggleKey | src/components/common/FilterPanel.tsx:70-75 | The key flips, an absent key becomes true, and other keys are unchanged |
| FilterPanel.ToggleKeyTwice | src/components/common/FilterPanel.tsx:70-75 | Flipping a present key twice restores the map |
| FilterPanel.Panel.constructor | src/components/common/FilterPanel.tsx:15-40 | Starts from the shared selections, with no sectors or market caps and every parent expanded |
| FilterPanel.Panel.ToggleParentCategory | src/components/common/FilterPanel.tsx:70-75 | The expansion map becomes `ToggleKey` of the old one |
| FilterPanel.Panel.ToggleCategory | src/components/common/FilterPanel.tsx:77-83 | The local categories become `Toggle` of the old ones |
| FilterPanel.Panel.ToggleSentiment | src/components/common/FilterPanel.tsx:85-91 | The local sentiments become `Toggle` of the old ones |
| FilterPanel.Panel.ToggleSector | src/components/common/FilterPanel.tsx:93-99 | The sectors become `Toggle` of the old ones |
| FilterPanel.Panel.ToggleMarketCap | src/components/common/FilterPanel.tsx:101-107 | The market caps become `Toggle` of the old ones |
| FilterPanel.Panel.ApplyCategoryFilters | src/components/common/FilterPanel.tsx:110-113 | The shared categories become the local ones |
| FilterPanel.Panel.ApplySentimentFilters | src/components/common/FilterPanel.tsx:115-118 | The shared sentiments become the local ones |
| FilterPanel.Panel.ClearCategoryFilters | src/components/common/FilterPanel.tsx:120-123 | Both the local and the shared categories are emptied |
| FilterPanel.Panel.ClearSentimentFilters | src/components/common/FilterPanel.tsx:125-128 | Both the local and the shared sentiments are emptied |
| FilterPanel.Panel.ClearSectorFilters | src/components/common/FilterPanel.tsx:130-132 | The sectors are emptied |
| FilterPanel.Panel.ClearMarketCapFilters | src/components/common/FilterPanel.tsx:134-136 | The market caps are emptied |
| FilterPanel.Panel.SyncFromContext | src/components/common/FilterPanel.tsx:139-145 | The local lists take the shared ones |
| Seqs.Toggle | src/components/Dashboard.tsx:470-478 | The value is in the result exactly when it was absent, other values keep their membership, an absent value is appended at the end, and removing a present value keeps the others in order |
| Seqs.ToggleTwiceRestores | src/components/Dashboard.tsx:470-478 | Toggling an absent id twice restores the list |
| Seqs.ToggleKeepsNoDup | src/components/Dashboard.tsx:470-478 | Toggling keeps a duplicate-free list duplicate-free |
| Seqs.DistinctFrom | src/components/Dashboard.tsx:317-320 | The result has no duplicates and holds exactly the listed values not already seen |
| Dashboard.MatchesSearch | src/components/Dashboard.tsx:254-260 | The company's own name matches in any case; a term longer than the company, summary, ticker and ISIN never matches |
| Dashboard.ApplyFilters | src/components/Dashboard.tsx:247-270 | The chain keeps exactly the announcements that pass every active filter, and never adds any |
| Dashboard.ApplyFiltersCharacterised | src/components/Dashboard.tsx:247-270 | The company, search, category and sentiment stages, each applied only when set, compose into one filter by the conjunction of the active filters: the chain keeps exactly the passing announcements, in loaded order |
| Dashboard.SearchIgnoresTermCase | src/components/Dashboard.tsx:254-260 | The search does not depend on the case of the term |
| Dashboard.TotalPages | src/components/Dashboard.tsx:444 | At least 1 page, enough pages for every item, and no empty trailing page |
| Dashboard.JsSlice | src/components/Dashboard.tsx:447-454 | `slice` returns a contiguous run of the list, and exactly `xs[start..end]` for in-range indices |
| Dashboard.PageItems | src/components/Dashboard.tsx:447-454 | At most 15 items. From page 1 on, they are the consecutive items from `(page-1)*15`, and there are exactly as many as remain, up to 15 |
| Dashboard.PagesCoverList | src/components/Dashboard.tsx:440-454 | Every item `k` appears on page `k/15+1`, which is within the page count |
| Dashboard.DisplayedAnnouncements | src/components/Dashboard.tsx:440-450 | In saved mode exactly the saved filtered items, otherwise all filtered items |
| Dashboard.IsDateString | src/components/Dashboard.tsx:178 | An accepted date has 10 characters, all digits or dashes |
| Dashboard.DateStringExamples | src/components/Dashboard.tsx:178 | The date pattern accepts "2024-01-31" and rejects "2024-1-31", "2024/01/31" and "" |
| Dashboard.FetchArgs | src/components/Dashboard.tsx:178-183 | A bound is passed only when it is a well-formed date, and an industry only when exactly one is selected |
| Dashboard.DistinctNonEmpty | src/components/Dashboard.tsx:317-320 | Exactly the non-empty values, each once |
| Dashboard.RoomList | src/components/Dashboard.tsx:297-333 | 'all' is joined first, then the selected company's room; without a company the rest are the industry, category, ticker and ISIN rooms |
| Dashboard.RoomListCharacterised | src/components/Dashboard.tsx:297-333 | The joined rooms are exactly: 'all', the selected company, the single selected industry, each selected category, and each non-empty loaded ticker and ISIN |
| Dashboard.RoomListNonEmpty | src/components/Dashboard.tsx:297-333 | No joined room is empty |
| Dashboard.CompanyRoomOnly | src/components/Dashboard.tsx:303-305 | Changing only the company changes only the company room |
| Dashboard.CompanySwitchMovesRoom | src/components/Dashboard.tsx:297-359 | Switching the company from A to B leaves no `company:A` subscription and one `company:B` subscription |
| Dashboard.TestIdsDistinct | src/components/Dashboard.tsx:230 | Test ids drawn at the same millisecond are distinct |
| Dashboard.TestAnnouncement | src/components/Dashboard.tsx:218-240 | Category and sentiment cycle with `i % 3`, the id is `test-i-now`, the detailed content extends the summary, and ticker and ISIN are non-empty |
| Dashboard.GenerateTestData | src/components/Dashboard.tsx:213-244 | The push loop yields exactly `count` records, the i-th being `TestAnnouncement(i)` |
| Dashboard.TestDataIdsDistinct | src/components/Dashboard.tsx:229-230 | The generated records have pairwise distinct ids |
| Dashboard.DashboardView.constructor | src/components/Dashboard.tsx:47-72 | Empty lists, page 1, loading, and the reload trigger remembered |
| Dashboard.DashboardView.MarkAnnouncementAsRead | src/components/Dashboard.tsx:89-95 | The id is appended only when absent, so the viewed list stays duplicate-free |
| Dashboard.DashboardView.ToggleSavedFiling | src/components/Dashboard.tsx:470-478 | The saved list becomes `Toggle` of the old one, and the id is saved exactly when it was not |
| Dashboard.DashboardView.ApplyFilterEffect | src/components/Dashboard.tsx:247-280 | The filtered list is the sorted chain, holding exactly the passing announcements, and the page returns to 1 |
| Dashboard.DashboardView.CurrentPageItems | src/components/Dashboard.tsx:447-454 | At most 15 items, all filtered, and all saved in saved mode |
| Dashboard.DashboardView.TotalItems | src/components/Dashboard.tsx:440-442 | At most the filtered count, equal to it outside saved mode, and 0 exactly when no filtered item is shown |
| Dashboard.DashboardView.PageInRangeShowsItems | src/components/Dashboard.tsx:440-454 | A current page within the page count shows at least one item when there are items, and 15 on every page before the last |
| Dashboard.DashboardView.HandleDateChange | src/components/Dashboard.tsx:481-495 | A non-empty malformed value changes nothing. Otherwise only the named bound changes |
| Dashboard.DashboardView.RecordIds | src/components/Dashboard.tsx:189-191 | The processed-id set grows by exactly the ids of the fetched list |
| Dashboard.DashboardView.LoadAnnouncements | src/components/Dashboard.tsx:164-210 | Sends `FetchArgs`. On success, every fetched id is recorded by the loop, the list is replaced and the page reset. On failure, the error is set and an empty list is replaced by 3 test records |
| Dashboard.ShouldReload | src/components/Dashboard.tsx:104-112 | No reload for trigger 0 or for the trigger value already handled |
| Dashboard.DashboardView.OnReloadTrigger | src/components/Dashboard.tsx:104-112 | Reloads exactly when the trigger moved and is positive. A reload remembers the trigger, makes the fetch `FetchArgs` of the current filters, ends loading, and on success replaces the list and records its ids, or on failure sets the error and fills an empty list with test data. Otherwise nothing changes |
| Dashboard.DashboardView.JoinFilterRooms | src/components/Dashboard.tsx:297-334 | When connected, joins every room of `RoomList` in order, and the active rooms gain exactly those |
| Dashboard.DashboardView.RefreshFilterRooms | src/components/Dashboard.tsx:297-359 | The previous rooms are left, then the new ones joined: active rooms = (old − previous) + new |
| Dashboard.DashboardView.JoinEach | src/components/Dashboard.tsx:300-333 | `joinRoom` for each room in order |
| Dashboard.DashboardView.LeaveFilterRooms | src/components/Dashboard.tsx:335-359 | `leaveRoom` for each joined room, and the active rooms lose exactly those |
| CompanyPage.TrimStart | src/components/company/CompanyPage.tsx:44 | A suffix of the input that does not start with whitespace |
| CompanyPage.TrimEnd | src/components/company/CompanyPage.tsx:44 | A prefix of the input that does not end with whitespace |
| CompanyPage.TrimStartRemovesSpace | src/components/company/CompanyPage.tsx:44 | Everything the leading trim removes is whitespace |
| CompanyPage.TrimEndRemovesSpace | src/components/company/CompanyPage.tsx:44 | Everything the trailing trim removes is whitespace |
| CompanyPage.Trim | src/components/company/CompanyPage.tsx:44 | No longer than the input, made only of the input's characters, and with no JavaScript whitespace at either end |
| CompanyPage.TrimIsSlice | src/components/company/CompanyPage.tsx:44 | The trim is a contiguous slice of the input, and everything cut away on either side is whitespace |
| CompanyPage.TrimmedUnchanged | src/components/company/CompanyPage.tsx:44 | Text without whitespace at either end is its own trim |
| CompanyPage.CollapseNewlines | src/components/company/CompanyPage.tsx:43 | No newline remains, the text does not grow, and newline-free text is unchanged |
| CompanyPage.CollapseConcat | src/components/company/CompanyPage.tsx:43 | Text split after a character that is not a newline collapses piece by piece |
| CompanyPage.CollapseRun | src/components/company/CompanyPage.tsx:43 | Each maximal run of newlines becomes exactly one space, with the text on either side collapsed on its own |
| CompanyPage.PreviewText | src/components/company/CompanyPage.tsx:43-47 | No newline, at most 123 characters. Cleaned text of at most 120 characters is returned as is; longer text becomes its first 120 characters + "..." |
| CompanyPage.TidyTextIsItsOwnPreview | src/components/company/CompanyPage.tsx:43-47 | Short, newline-free, trimmed text is its own preview |
| CompanyPage.PreviewIdempotent | src/components/company/CompanyPage.tsx:43-47 | The preview of a preview is the same preview |
| CompanyPage.CompanyAnnouncementsAsWritten | src/components/company/CompanyPage.tsx:145-148 | As written: kept exactly when the company name or the ticker matches |
| CompanyPage.EmptySymbolAdmitsOtherCompanies | src/components/company/CompanyPage.tsx:145-148 | A company with no symbol picks up another company's ticker-less announcement |
| CompanyPage.CompanyAnnouncementsCharacterised | src/components/company/CompanyPage.tsx:145-148 | The page keeps exactly the fetched announcements with the company's name or its non-empty ticker, in fetched order |
| CompanyPage.CompanyAnnouncements | src/components/company/CompanyPage.tsx:145-148 | Corrected filter: keeps exactly the fetched announcements with the company's name, or with its ticker when the company has one |
| CompanyPage.CorrectionAgreesWithSymbol | src/components/company/CompanyPage.tsx:145-148 | For a company with a symbol the corrected filter is the written one |
| CompanyPage.OverviewPreview | src/components/company/CompanyPage.tsx:425 | At most the first 3 announcements, as a prefix |
| CompanyPage.Page.constructor | src/components/company/CompanyPage.tsx:101-109 | No announcements, loading, no saved filings, no price data |
| CompanyPage.Page.LoadAnnouncements | src/components/company/CompanyPage.tsx:138-157 | On success, the corrected filter's list (`CompanyAnnouncements`); on failure, the load error with the list kept; loading ends either way |
| CompanyPage.Page.LoadStockData | src/components/company/CompanyPage.tsx:161-184 | A company without an ISIN is not fetched and nothing changes. Otherwise the data or the stock error is recorded, and loading ends |
| CompanyPage.Page.ToggleSavedFiling | src/components/company/CompanyPage.tsx:187-195 | A saved id is removed and an unsaved one appended, and other ids are untouched |
| StockPriceChart.WindowDays | src/components/company/StockPriceChart.tsx:72-92 | 1W=7, 1M=30, 3M=90, 6M=180, 1Y=365 days, MAX none, anything else 30 |
| StockPriceChart.FilterDataByTimeRange | src/components/company/StockPriceChart.tsx:66-95 | Never adds a point and never grows the series; MAX returns it unchanged |
| StockPriceChart.MaxOrEmptyUnchanged | src/components/company/StockPriceChart.tsx:66-89 | An empty series and the MAX range come back unchanged |
| StockPriceChart.WindowKeepsExactly | src/components/company/StockPriceChart.tsx:72-94 | A windowed range keeps exactly the points dated on or after now − window, as a subsequence |
| StockPriceChart.FilterDataIdempotent | src/components/company/StockPriceChart.tsx:66-95 | Windowing again with the same range at the same time changes nothing |
| StockPriceChart.WiderWindowKeepsMore | src/components/company/StockPriceChart.tsx:72-94 | A wider window keeps every point a narrower one keeps |
| StockPriceChart.Chart.constructor | src/components/company/StockPriceChart.tsx:19-24 | No data, loading, no error, range 1M, retry count 0 |
| StockPriceChart.Chart.FetchHistoricalData | src/components/company/StockPriceChart.tsx:26-63 | Empty data gives "No historical data available for this stock" and clears the series. Other data is windowed by the selected range. A failure sets the fetch error and keeps the series. Loading ends |
| StockPriceChart.Chart.HandleRetry | src/components/company/StockPriceChart.tsx:160-162 | The retry count goes up by exactly 1 |

## Left out

- Rendering (JSX, Tailwind classes, icons, ReactMarkdown, modals, tabs) is not modelled. `AnnouncementRow.tsx`, `MainLayout.tsx` and `Sidebar.tsx` are presentation only.
- The external collaborators are parameters. `setupSocketConnection` becomes a setup outcome, and `enhanceAnnouncementData` a function that may return `None`; `Application.CallbackIdentityAgrees` assumes it keeps the record's id and adds no `corp_id` (`src/api` is not part of this model). `fetchAnnouncements` and `fetchStockPriceData` become a `Result`. `sortByNewestDate` is a function assumed only to reorder (`Dashboard.Reorders`). `searchCompanies` and `extractHeadline` are not modelled.
- Time is a parameter: `Date.now()` is one integer of milliseconds per call, and `new Date().toISOString()` is a given string. `generateTestData` reads the clock once, where the source reads it per record. Random ids are a given suffix.
- Timers are not modelled. The deferral's 100 ms retry is reported as `deferred`, and the dashboard's 500 ms minimum loading time, the search debounce and the retry timers are left out.
- The `onNewAnnouncement` callback is assumed not to throw. A throw would send the enhanced path into the fallback branch and dispatch a second time.
- React effect scheduling is not modelled: each handler or effect is one atomic transition. For example, the indicator's effect re-running when the audio toggle changes is not modelled.
- Dashboard.DashboardView.LoadAnnouncements: reads the current list for the "empty list gets test data" rule. In the source this callback's dependencies omit `announcements`, so it reads the list captured when the callback was last created.
- Toasts and notices are entries in an effect or notice log. Their duration, position and the 80-character toast preview are not modelled.
- The exception that `reconnect` lets escape when its setup fails is reported as `thrown`. What it does to the calling click handler is not modelled.
- SocketContext.RejoinAll: joins the remembered rooms in an unspecified order. The source iterates the `Set` in insertion order; the rooms here are a mathematical set, which has none.
- The toast cache is module-level in the source and shared by every provider instance. Here it is a field of the one provider.
- Persistence is not modelled, except for the indicator's audio preference: the viewed and saved lists' `localStorage` reads and writes are left out.
- Lower-casing covers only ASCII letters (`Text.Lower`). Strings are sequences of characters, not UTF-16 code units.
- CompanyPage.Page.LoadAnnouncements: uses the corrected filter `CompanyAnnouncements`, not the one at `src/components/company/CompanyPage.tsx:145-148` (see "## Findings"). For a company with symbol `''` the source also keeps other companies' ticker-less announcements; this method does not.
- CompanyPage.PreviewText: takes the summary after the company-name prefix and the markdown markup have been removed. The regular expressions that remove them are not modelled, only the newline collapse, the trim and the 120-character truncation.
- The price change on the chart (floating-point arithmetic) is not modelled, nor are the page's min/max price figures.
- StockPriceChart.WindowKeepsExactly: point dates are integer timestamps. A date that does not parse (`NaN`, which the source's comparison drops) is not represented.
- The filter provider (`useFilters`) is not part of this model. `FilterState.FilterContext` assumes its setters assign the given values.
- The sector, market-cap and sentiment option lists of the filter panel are constants that only feed rendering.
- The company page's own date-range fetch arguments and its watchlist actions are not modelled.
- The dashboard's fallback test records carry `isNew = false`; the source leaves the field undefined.

## Findings

| source | as written | input that shows it | evidently intended | confidence | as-written member | corrected member |
|---|---|---|---|---|---|---|
| src/components/company/CompanyPage.tsx:145-148 | The page keeps a fetched announcement when `item.company === company.name \|\| item.ticker === company.symbol`. A company opened from search without an NSE code has symbol `''` (src/components/Dashboard.tsx:430), and a normalised announcement without a symbol has ticker `''` | company `{name: "Acme", symbol: ""}`, fetched `[{company: "Other Co", ticker: ""}]`: Acme's page lists Other Co's announcement | Match on the ticker only when the company has a symbol | not executed; medium | CompanyPage.CompanyAnnouncementsAsWritten, CompanyPage.EmptySymbolAdmitsOtherCompanies | CompanyPage.CompanyAnnouncementsCharacterised, CompanyPage.CorrectionAgreesWithSymbol |
