/** The live-update pipeline of `SocketProvider`: announcement identity,
    normalisation, the per-connection processed-id set, the time-windowed
    toast cache, the re-entrancy flag, room membership and the connection
    status. The browser side (toasts, the `new-announcement-received` window
    event, the `onNewAnnouncement` callback, socket calls) is an effect log;
    the clock is a parameter in milliseconds. */
module SocketContext {
  import opened Wrappers
  import opened Text
  import opened Announcements

  /** A second toast for the same id within this many milliseconds is suppressed. */
  const ToastSuppressMs := 30000
  /** Toast-cache entries older than this many milliseconds are pruned on every toast shown. */
  const ToastCacheTtlMs := 60000
  /** How much of the summary goes into a composite identity. */
  const SummaryKeyLength := 20

  const ConnectedNotice := "Live updates connected!"
  const DisconnectedNotice := "Live updates disconnected"
  const UnknownConnectionError := "Unknown connection error"
  const SetupFailurePrefix := "Failed to initialize socket: "

  datatype Status = Connecting | Connected | Disconnected | Error

  /** What the provider does to the world outside its own fields. */
  datatype Effect =
    | Toast(shown: Announcement)          // announcement toast displayed
    | BadgeEvent(detail: Announcement)    // `new-announcement-received` dispatched
    | Callback(arg: Announcement)         // `onNewAnnouncement` invoked
    | SocketJoin(room: string)
    | SocketLeave(room: string)
    | SocketReconnect
    | SocketDisconnect
    | Notice(text: string)                // connection toast

  // ---------------------------------------------------------------------
  // Identity and normalisation
  // ---------------------------------------------------------------------

  /** `new-${Date.now()}-${random}`; the time and random parts arrive as one fresh suffix. */
  function FreshId(suffix: string): string {
    "new-" + suffix
  }

  /** The server correlation id, `corp_id || id || dedup_id` ("" when there is none). */
  function CorrelationId(p: Payload): string {
    if p.corpId != "" then p.corpId else if p.id != "" then p.id else p.dedupId
  }

  /** The identity of an inbound announcement: the correlation id, else
      `companyname-<first 20 chars of summary>`, else a fresh random id. */
  function Identity(p: Payload, freshSuffix: string): (id: string)
    ensures id != ""
    ensures CorrelationId(p) == "" && (p.companyname == "" || p.summary == "") ==> id == FreshId(freshSuffix)
  {
    var correlation := CorrelationId(p);
    if correlation != "" then correlation
    else if p.companyname != "" && p.summary != "" then
      p.companyname + "-" + Prefix(p.summary, SummaryKeyLength)
    else FreshId(freshSuffix)
  }

  /** Payloads that carry the same correlation id get the same identity,
      whatever else they carry and whatever random suffix is drawn. */
  lemma CorrelatedIdentity(p: Payload, q: Payload, s1: string, s2: string)
    requires CorrelationId(p) != "" && CorrelationId(p) == CorrelationId(q)
    ensures Identity(p, s1) == Identity(q, s2) == CorrelationId(p)
  {
  }

  /** Without a correlation id, two payloads from the same company whose
      summaries agree on their first 20 characters collapse to one identity. */
  lemma CompositeIdentityCollapses(p: Payload, q: Payload, s1: string, s2: string)
    requires CorrelationId(p) == "" && CorrelationId(q) == ""
    requires p.companyname != "" && p.companyname == q.companyname
    requires p.summary != "" && q.summary != ""
    requires Prefix(p.summary, SummaryKeyLength) == Prefix(q.summary, SummaryKeyLength)
    ensures Identity(p, s1) == Identity(q, s2)
  {
  }

  /** The canonical record built from a payload, with the source's defaults. */
  function Normalize(p: Payload, id: string, nowIso: string): (a: Announcement)
    ensures a.id == id && a.sentiment == "Neutral" && a.isNew
    ensures a.detailedContent == a.summary
    ensures a.company != "" && a.category != ""
  {
    var company := if p.companyname != "" then p.companyname else if p.company != "" then p.company else "Unknown Company";
    var ticker := if p.symbol != "" then p.symbol else p.symbolCap;
    var category := if p.category != "" then p.category else if p.categoryCap != "" then p.categoryCap else "Other";
    var date := if p.date != "" then p.date else if p.createdAt != "" then p.createdAt else nowIso;
    var summary := if p.aiSummary != "" then p.aiSummary else p.summary;
    var isin := if p.isin != "" then p.isin else p.isinCap;
    Announcement(id, company, ticker, category, date, summary, summary, isin, "Neutral", true)
  }

  const EmptyPayload := Payload("", "", "", "", "", "", "", "", "", "", "", "", "", "", "")

  /** A payload with no usable field normalises to the documented defaults. */
  lemma NormalizeDefaults(id: string, nowIso: string)
    ensures Normalize(EmptyPayload, id, nowIso)
         == Announcement(id, "Unknown Company", "", "Other", nowIso, "", "", "", "Neutral", true)
  {
  }

  // ---------------------------------------------------------------------
  // The toast cache
  // ---------------------------------------------------------------------

  /** A toast for `id` may be shown at `now`: never shown, or shown at least 30 s ago. */
  predicate ToastAllowed(cache: map<string, int>, id: string, now: int): (b: bool)
    ensures id !in cache ==> b
    ensures id in cache && cache[id] <= now < cache[id] + ToastSuppressMs ==> !b
  {
    id !in cache || now - cache[id] >= ToastSuppressMs
  }

  /** The entries stamped at or after `cutoff`. */
  function Pruned(cache: map<string, int>, cutoff: int): map<string, int> {
    map k | k in cache && cache[k] >= cutoff :: cache[k]
  }

  /** The toast cache after a toast attempt for `id` at `now`. */
  function CacheAfterToast(cache: map<string, int>, id: string, now: int): (c: map<string, int>)
    ensures !ToastAllowed(cache, id, now) ==> c == cache
    ensures ToastAllowed(cache, id, now) ==> id in c && c[id] == now
    ensures ToastAllowed(cache, id, now) ==>
      forall k :: k in c ==> c[k] >= now - ToastCacheTtlMs && (k == id || (k in cache && c[k] == cache[k]))
    ensures ToastAllowed(cache, id, now) ==>
      forall k :: k in cache && k != id && cache[k] >= now - ToastCacheTtlMs ==> k in c && c[k] == cache[k]
  {
    if ToastAllowed(cache, id, now) then Pruned(cache[id := now], now - ToastCacheTtlMs) else cache
  }

  // ---------------------------------------------------------------------
  // The pipeline as a function of its state
  // ---------------------------------------------------------------------

  /** The pipeline state a message sees: the processed ids and the toast cache. */
  datatype Pipeline = Pipeline(processed: set<string>, cache: map<string, int>)

  /** One inbound message together with the clock readings and the random
      suffix that its processing draws. */
  datatype Inbound = Inbound(payload: Option<Payload>, freshSuffix: string, nowIso: string, now: int)

  datatype Step = Step(state: Pipeline, emitted: seq<Effect>)

  /** The record that is delivered: the enhanced one, or the canonical one when enhancement throws. */
  function Delivered(record: Announcement, enhance: Announcement -> Option<Announcement>): Announcement {
    match enhance(record)
    case Some(enhanced) => enhanced
    case None => record
  }

  /** The message is non-empty and its identity has not been processed. */
  predicate IsNew(s: Pipeline, m: Inbound) {
    m.payload.Some? && Identity(m.payload.value, m.freshSuffix) !in s.processed
  }

  function DeliveredFor(m: Inbound, enhance: Announcement -> Option<Announcement>): Announcement
    requires m.payload.Some?
  {
    var id := Identity(m.payload.value, m.freshSuffix);
    Delivered(Normalize(m.payload.value, id, m.nowIso), enhance)
  }

  /** The effect carries announcement `a`. */
  predicate Carries(e: Effect, a: Announcement) {
    match e
    case Toast(x) => x == a
    case BadgeEvent(x) => x == a
    case Callback(x) => x == a
    case _ => false
  }

  datatype Kind = ToastKind | BadgeKind | CallbackKind

  predicate OfKind(e: Effect, k: Kind) {
    match k
    case ToastKind => e.Toast?
    case BadgeKind => e.BadgeEvent?
    case CallbackKind => e.Callback?
  }

  /** How many effects of kind `k` a log holds. */
  function Count(es: seq<Effect>, k: Kind): nat {
    if es == [] then 0 else (if OfKind(es[0], k) then 1 else 0) + Count(es[1..], k)
  }

  lemma {:induction false} CountConcat(a: seq<Effect>, b: seq<Effect>, k: Kind)
    ensures Count(a + b, k) == Count(a, k) + Count(b, k)
  {
    if a != [] {
      assert (a + b)[0] == a[0];
      assert (a + b)[1..] == a[1..] + b;
      CountConcat(a[1..], b, k);
    } else {
      assert a + b == b;
    }
  }

  /** Toast attempt, badge event and callback for a delivered record. */
  function Notify(s: Pipeline, a: Announcement, now: int, hasCallback: bool): (r: Step)
    ensures r.state.processed == s.processed
    ensures BadgeEvent(a) in r.emitted
    ensures Callback(a) in r.emitted <==> hasCallback
    ensures Toast(a) in r.emitted <==> ToastAllowed(s.cache, a.id, now)
    ensures forall e :: e in r.emitted ==> Carries(e, a)
  {
    Step(Pipeline(s.processed, CacheAfterToast(s.cache, a.id, now)),
         (if ToastAllowed(s.cache, a.id, now) then [Toast(a)] else [])
         + [BadgeEvent(a)]
         + (if hasCallback then [Callback(a)] else []))
  }

  /** `processNewAnnouncement` on a state that is not already processing. */
  function Process(s: Pipeline, m: Inbound, enhance: Announcement -> Option<Announcement>, hasCallback: bool): (r: Step)
    ensures r.state.processed == if m.payload.Some? then s.processed + {Identity(m.payload.value, m.freshSuffix)} else s.processed
    ensures !IsNew(s, m) ==> r == Step(s, [])
    ensures IsNew(s, m) ==>
      var a := DeliveredFor(m, enhance);
      && Count(r.emitted, BadgeKind) == 1
      && Count(r.emitted, CallbackKind) == (if hasCallback then 1 else 0)
      && Count(r.emitted, ToastKind) == (if ToastAllowed(s.cache, a.id, m.now) then 1 else 0)
      && (forall e :: e in r.emitted ==> Carries(e, a))
      && r.state.cache == CacheAfterToast(s.cache, a.id, m.now)
  {
    match m.payload
    case None => Step(s, [])
    case Some(p) =>
      var id := Identity(p, m.freshSuffix);
      if id in s.processed then Step(s, [])
      else
        var a := Delivered(Normalize(p, id, m.nowIso), enhance);
        var r := Notify(Pipeline(s.processed + {id}, s.cache), a, m.now, hasCallback);
        var toast := if ToastAllowed(s.cache, a.id, m.now) then [Toast(a)] else [];
        var callback := if hasCallback then [Callback(a)] else [];
        CountConcat(toast + [BadgeEvent(a)], callback, BadgeKind);
        CountConcat(toast, [BadgeEvent(a)], BadgeKind);
        CountConcat(toast + [BadgeEvent(a)], callback, CallbackKind);
        CountConcat(toast, [BadgeEvent(a)], CallbackKind);
        CountConcat(toast + [BadgeEvent(a)], callback, ToastKind);
        CountConcat(toast, [BadgeEvent(a)], ToastKind);
        r
  }

  /** A stream of messages processed one after another within one connection. */
  function Run(s: Pipeline, msgs: seq<Inbound>, enhance: Announcement -> Option<Announcement>, hasCallback: bool): (r: Step)
    ensures s.processed <= r.state.processed
    ensures |r.emitted| <= 3 * |msgs|
    ensures forall e :: e in r.emitted ==> e.Toast? || e.BadgeEvent? || e.Callback?
    decreases |msgs|
  {
    if msgs == [] then Step(s, [])
    else
      var first := Process(s, msgs[0], enhance, hasCallback);
      var rest := Run(first.state, msgs[1..], enhance, hasCallback);
      Step(rest.state, first.emitted + rest.emitted)
  }

  predicate HasIdentity(m: Inbound, id: string) {
    m.payload.Some? && Identity(m.payload.value, m.freshSuffix) == id
  }

  /** At most once per connection: of any run of messages sharing one
      identity, only the first (and only if the identity is unseen) raises a
      badge event, a callback and a toast attempt. */
  lemma {:induction false} AtMostOncePerConnection(s: Pipeline, msgs: seq<Inbound>, id: string,
                                                   enhance: Announcement -> Option<Announcement>, hasCallback: bool)
    requires forall i :: 0 <= i < |msgs| ==> HasIdentity(msgs[i], id)
    ensures var r := Run(s, msgs, enhance, hasCallback);
      && Count(r.emitted, BadgeKind) == (if |msgs| > 0 && id !in s.processed then 1 else 0)
      && Count(r.emitted, CallbackKind) == (if |msgs| > 0 && id !in s.processed && hasCallback then 1 else 0)
      && Count(r.emitted, ToastKind) <= (if |msgs| > 0 && id !in s.processed then 1 else 0)
      && (|msgs| > 0 ==> id in r.state.processed)
    decreases |msgs|
  {
    if msgs != [] {
      var first := Process(s, msgs[0], enhance, hasCallback);
      assert HasIdentity(msgs[0], id);
      AtMostOncePerConnection(first.state, msgs[1..], id, enhance, hasCallback);
      var rest := Run(first.state, msgs[1..], enhance, hasCallback);
      CountConcat(first.emitted, rest.emitted, BadgeKind);
      CountConcat(first.emitted, rest.emitted, CallbackKind);
      CountConcat(first.emitted, rest.emitted, ToastKind);
      if |msgs| > 1 {
        assert id in first.state.processed;
      }
    }
  }

  /** Scenario: `{corp_id: "X1", companyname: "Acme", summary: ...}`
      delivered twice on a fresh connection gives one toast and one badge event. */
  lemma RepeatedMessageScenario(m1: Inbound, m2: Inbound, enhance: Announcement -> Option<Announcement>)
    requires m1.payload == m2.payload == Some(EmptyPayload.(corpId := "X1", companyname := "Acme", summary := "Q1 results beat estimates"))
    ensures var r := Run(Pipeline({}, map[]), [m1, m2], enhance, true);
      Count(r.emitted, ToastKind) == 1 && Count(r.emitted, BadgeKind) == 1
  {
    var msgs := [m1, m2];
    AtMostOncePerConnection(Pipeline({}, map[]), msgs, "X1", enhance, true);
    var first := Process(Pipeline({}, map[]), m1, enhance, true);
    var rest := Run(first.state, msgs[1..], enhance, true);
    CountConcat(first.emitted, rest.emitted, ToastKind);
  }

  /** After a reconnect has cleared the processed ids, a run of messages
      sharing an identity seen before the reconnect raises exactly one badge
      event, while its toast still depends on the toast cache, which the
      reconnect does not touch. */
  lemma ReconnectTreatsSeenIdentityAsNewOnce(cache: map<string, int>, msgs: seq<Inbound>, id: string,
                                             enhance: Announcement -> Option<Announcement>, hasCallback: bool)
    requires |msgs| > 0 && forall i :: 0 <= i < |msgs| ==> HasIdentity(msgs[i], id)
    ensures var r := Run(Pipeline({}, cache), msgs, enhance, hasCallback);
      && Count(r.emitted, BadgeKind) == 1
      && Count(r.emitted, CallbackKind) == (if hasCallback then 1 else 0)
      && Count(r.emitted, ToastKind) <= 1
  {
    AtMostOncePerConnection(Pipeline({}, cache), msgs, id, enhance, hasCallback);
  }

  /** The wrapper around the socket callback: a message whose correlation id
      is in the toast cache at all (however old the entry) is dropped before
      processing. */
  predicate WrapperDrops(cache: map<string, int>, m: Inbound) {
    m.payload.Some? && CorrelationId(m.payload.value) != "" && CorrelationId(m.payload.value) in cache
  }

  /** The wrapper is stricter than the pipeline: after a reconnect has
      cleared the processed ids, a redelivery whose toast was shown 45 s
      earlier would raise a badge event in the pipeline, but the wrapper
      drops it because the cache entry has not been pruned. */
  lemma WrapperOutlastsReconnect(m: Inbound, enhance: Announcement -> Option<Announcement>)
    requires m.payload == Some(EmptyPayload.(corpId := "X1")) && m.now == 45000
    ensures WrapperDrops(map["X1" := 0], m)
    ensures Count(Process(Pipeline({}, map["X1" := 0]), m, enhance, false).emitted, BadgeKind) == 1
  {
  }

  /** The socket calls made by joining (or leaving) each room of `rooms` in order. */
  function RoomLog(ready: bool, rooms: seq<string>, joining: bool): seq<Effect>
    decreases |rooms|
  {
    if rooms == [] then []
    else
      var last := rooms[|rooms| - 1];
      RoomLog(ready, rooms[..|rooms| - 1], joining)
      + (if ready && last != "" then [if joining then SocketJoin(last) else SocketLeave(last)] else [])
  }

  /** `es` joins every room of `rooms` exactly once and does nothing else. */
  ghost predicate RejoinsExactly(es: seq<Effect>, rooms: set<string>) {
    && |es| == |rooms|
    && (forall i :: 0 <= i < |es| ==> es[i].SocketJoin? && es[i].room in rooms)
    && (forall r :: r in rooms ==> SocketJoin(r) in es)
  }

  /** The socket joins made for the remembered rooms, one per room, in some
      order. */
  method RejoinAll(rooms: set<string>) returns (joins: seq<Effect>)
    ensures RejoinsExactly(joins, rooms)
  {
    joins := [];
    var pending := rooms;
    ghost var joined: set<string> := {};
    while pending != {}
      invariant pending <= rooms && joined == rooms - pending
      invariant |joins| == |joined|
      invariant forall i :: 0 <= i < |joins| ==> joins[i].SocketJoin? && joins[i].room in joined
      invariant forall r :: r in joined ==> SocketJoin(r) in joins
      decreases pending
    {
      var room :| room in pending;
      joins := joins + [SocketJoin(room)];
      pending := pending - {room};
      joined := joined + {room};
    }
  }

  // ---------------------------------------------------------------------
  // The provider
  // ---------------------------------------------------------------------

  class SocketProvider {
    var processedIds: set<string>
    var toastCache: map<string, int>
    var activeRooms: set<string>
    var status: Status
    var isConnected: bool
    var lastError: Option<string>
    /** Set while a message is being processed; a call that finds it set is deferred. */
    var processing: bool
    /** A socket connection exists (`socketRef.current`). */
    var socketReady: bool
    /** Messages reach the pipeline through the duplicate-guard wrapper. */
    var wrapped: bool
    /** The window listeners for connect, disconnect and error events are
        registered. Only a successful mount effect registers them. */
    var listening: bool
    var effects: seq<Effect>
    const hasCallback: bool

    ghost predicate Valid()
      reads this
    {
      && "" !in activeRooms
      && (status == Connected ==> lastError == None)
      && (status == Error ==> lastError.Some?)
      && (listening ==> socketReady) && (wrapped ==> socketReady)
    }

    function State(): Pipeline
      reads this
    {
      Pipeline(processedIds, toastCache)
    }

    constructor (hasCallback: bool)
      ensures Valid()
      ensures status == Connecting && lastError == None && !isConnected
      ensures processedIds == {} && toastCache == map[] && activeRooms == {}
      ensures !processing && !socketReady && !wrapped && !listening && effects == []
      ensures this.hasCallback == hasCallback
    {
      processedIds, toastCache, activeRooms := {}, map[], {};
      status, isConnected, lastError := Connecting, false, None;
      processing, socketReady, wrapped, listening := false, false, false, false;
      effects := [];
      this.hasCallback := hasCallback;
    }

    /** The mount effect: set up the connection and register the status
        listeners, or record why the setup failed (and register nothing). */
    method Initialize(setupFailure: Option<string>)
      requires Valid()
      modifies this`status, this`lastError, this`socketReady, this`wrapped, this`listening
      ensures Valid()
      ensures setupFailure.None? ==> status == Connecting && socketReady && wrapped && listening && lastError == old(lastError)
      ensures setupFailure.Some? ==>
        && status == Error && lastError == Some(SetupFailurePrefix + setupFailure.value)
        && socketReady == old(socketReady) && wrapped == old(wrapped) && listening == old(listening)
    {
      status := Connecting;
      match setupFailure {
        case None =>
          socketReady, wrapped, listening := true, true, true;
        case Some(message) =>
          status := Error;
          lastError := Some(SetupFailurePrefix + message);
      }
    }

    /** Deletes every cache entry stamped before `cutoff`, one key at a time. */
    method PruneToastCache(cutoff: int)
      modifies this`toastCache
      ensures toastCache == Pruned(old(toastCache), cutoff)
    {
      ghost var before := toastCache;
      var pending := toastCache.Keys;
      while pending != {}
        invariant pending <= before.Keys
        invariant toastCache == map k | k in before && (k in pending || before[k] >= cutoff) :: before[k]
        decreases pending
      {
        var k :| k in pending;
        if toastCache[k] < cutoff {
          toastCache := toastCache - {k};
        }
        pending := pending - {k};
      }
    }

    /** `showAnnouncementToast`. */
    method ShowAnnouncementToast(a: Announcement, now: int)
      modifies this`toastCache, this`effects
      ensures toastCache == CacheAfterToast(old(toastCache), a.id, now)
      ensures effects == old(effects) + if ToastAllowed(old(toastCache), a.id, now) then [Toast(a)] else []
    {
      if a.id in toastCache && now - toastCache[a.id] < ToastSuppressMs {
        return;
      }
      toastCache := toastCache[a.id := now];
      effects := effects + [Toast(a)];
      PruneToastCache(now - ToastCacheTtlMs);
    }

    /** Toast attempt, badge event and callback for one delivered record. */
    method Dispatch(a: Announcement, now: int)
      modifies this`toastCache, this`effects
      ensures var r := Notify(Pipeline(processedIds, old(toastCache)), a, now, hasCallback);
        toastCache == r.state.cache && effects == old(effects) + r.emitted
    {
      ShowAnnouncementToast(a, now);
      effects := effects + [BadgeEvent(a)];
      if hasCallback {
        effects := effects + [Callback(a)];
      }
    }

    /** `processNewAnnouncement`. A call that finds the flag set is deferred
        (the source retries it after 100 ms) and changes nothing. */
    method ProcessNewAnnouncement(m: Inbound, enhance: Announcement -> Option<Announcement>) returns (deferred: bool)
      modifies this`processedIds, this`toastCache, this`effects, this`processing
      ensures deferred == old(processing)
      ensures deferred ==> processing && processedIds == old(processedIds) && toastCache == old(toastCache) && effects == old(effects)
      ensures !deferred ==>
        var r := Process(old(State()), m, enhance, hasCallback);
        !processing && State() == r.state && effects == old(effects) + r.emitted
    {
      if processing {
        return true;
      }
      processing := true;
      deferred := false;
      if m.payload.Some? {
        var p := m.payload.value;
        var id := Identity(p, m.freshSuffix);
        if id !in processedIds {
          processedIds := processedIds + {id};
          var record := Normalize(p, id, m.nowIso);
          var enhanced := enhance(record);
          if enhanced.Some? {
            Dispatch(enhanced.value, m.now);
          } else {
            Dispatch(record, m.now);
          }
        }
      }
      processing := false;
    }

    /** The socket's message callback: the duplicate-guard wrapper (when the
        connection was set up with it), then `processNewAnnouncement`. */
    method OnSocketMessage(m: Inbound, enhance: Announcement -> Option<Announcement>) returns (dropped: bool, deferred: bool)
      modifies this`processedIds, this`toastCache, this`effects, this`processing
      ensures dropped == (wrapped && WrapperDrops(old(toastCache), m))
      ensures dropped ==> !deferred && unchanged(this)
      ensures !dropped ==> deferred == old(processing)
      ensures !dropped && !deferred ==>
        var r := Process(old(State()), m, enhance, hasCallback);
        State() == r.state && effects == old(effects) + r.emitted
      ensures !dropped && deferred ==> State() == old(State()) && effects == old(effects)
    {
      dropped := wrapped && WrapperDrops(toastCache, m);
      if dropped {
        deferred := false;
        return;
      }
      deferred := ProcessNewAnnouncement(m, enhance);
    }

    /** `handleConnect`: connected, error cleared, processed ids forgotten,
        a connection toast, and every active room rejoined. Like the other
        two status listeners it runs only once a successful mount effect has
        registered it. */
    method HandleConnect()
      requires Valid() && listening
      modifies this`isConnected, this`status, this`lastError, this`processedIds, this`effects
      ensures Valid()
      ensures isConnected && status == Connected && lastError == None && processedIds == {}
      ensures |effects| == |old(effects)| + 1 + |activeRooms|
      ensures effects[..|old(effects)| + 1] == old(effects) + [Notice(ConnectedNotice)]
      ensures RejoinsExactly(effects[|old(effects)| + 1..], activeRooms)
    {
      isConnected, status, lastError := true, Connected, None;
      processedIds := {};
      effects := effects + [Notice(ConnectedNotice)];
      var joins := RejoinAll(activeRooms);
      effects := effects + joins;
    }

    /** `handleDisconnect`. */
    method HandleDisconnect()
      requires Valid() && listening
      modifies this`isConnected, this`status, this`effects
      ensures Valid()
      ensures !isConnected && status == Disconnected
      ensures effects == old(effects) + [Notice(DisconnectedNotice)]
    {
      isConnected, status := false, Disconnected;
      effects := effects + [Notice(DisconnectedNotice)];
    }

    /** `handleError`: the event's message, or a fixed text when it has none. */
    method HandleError(message: string)
      requires Valid() && listening
      modifies this`status, this`lastError
      ensures Valid()
      ensures status == Error
      ensures lastError == Some(if message != "" then message else UnknownConnectionError)
    {
      status := Error;
      lastError := Some(if message != "" then message else UnknownConnectionError);
    }

    /** `reconnect`: back to connecting with the processed ids forgotten.
        Without a socket it sets up a new one, whose messages bypass the
        duplicate-guard wrapper and which gets no status listeners. That
        setup is not guarded: when it fails the exception escapes
        (`thrown`) and there is still no socket. */
    method Reconnect(setupFails: bool) returns (thrown: bool)
      requires Valid()
      modifies this`status, this`processedIds, this`effects, this`socketReady, this`wrapped
      ensures Valid()
      ensures status == Connecting && processedIds == {}
      ensures thrown == (!old(socketReady) && setupFails)
      ensures socketReady == !thrown
      ensures old(socketReady) ==> effects == old(effects) + [SocketReconnect] && wrapped == old(wrapped)
      ensures !old(socketReady) ==> effects == old(effects) && !wrapped
    {
      status := Connecting;
      processedIds := {};
      thrown := false;
      if socketReady {
        effects := effects + [SocketReconnect];
      } else if setupFails {
        thrown := true;
      } else {
        socketReady, wrapped := true, false;
      }
    }

    /** `joinRoom`: an empty room is ignored; otherwise the room is remembered
        for rejoining and, when a socket exists, joined now. */
    method JoinRoom(room: string)
      requires Valid()
      modifies this`activeRooms, this`effects
      ensures Valid()
      ensures activeRooms == if room == "" then old(activeRooms) else old(activeRooms) + {room}
      ensures effects == old(effects) + RoomLog(socketReady, [room], true)
    {
      if room == "" {
        return;
      }
      activeRooms := activeRooms + {room};
      if socketReady {
        effects := effects + [SocketJoin(room)];
      }
    }

    /** `leaveRoom`: an empty room is ignored; otherwise the room is forgotten
        and, when a socket exists, left. */
    method LeaveRoom(room: string)
      requires Valid()
      modifies this`activeRooms, this`effects
      ensures Valid()
      ensures activeRooms == if room == "" then old(activeRooms) else old(activeRooms) - {room}
      ensures effects == old(effects) + RoomLog(socketReady, [room], false)
    {
      if room == "" {
        return;
      }
      activeRooms := activeRooms - {room};
      if socketReady {
        effects := effects + [SocketLeave(room)];
      }
    }

    /** The mount effect's cleanup. Only a successful mount returns one
        that does anything: it removes the status listeners and disconnects
        the mount's socket. */
    method Unmount()
      requires Valid()
      modifies this`effects, this`listening
      ensures Valid()
      ensures !listening
      ensures effects == old(effects) + if old(listening) then [SocketDisconnect] else []
    {
      if listening {
        effects := effects + [SocketDisconnect];
      }
      listening := false;
    }
  }

  /** Status scenario: connecting, connected, error (with a message), then
      connecting again after a manual reconnect, and the error cleared once
      the new connection is up. */
  method StatusScenario() returns (provider: SocketProvider)
    ensures provider.status == Connected && provider.lastError == None && provider.isConnected
  {
    provider := new SocketProvider(false);
    assert provider.status == Connecting;
    provider.Initialize(None);
    provider.HandleConnect();
    assert provider.status == Connected && provider.lastError == None;
    provider.HandleError("");
    assert provider.status == Error && provider.lastError == Some(UnknownConnectionError);
    var thrown := provider.Reconnect(false);
    assert provider.status == Connecting && provider.processedIds == {};
    provider.HandleConnect();
  }

  /** Failed setup, then a manual reconnect (the retry offered on status
      error): the new socket exists, but no status listener was ever
      registered, so no connect event can move the status off connecting. */
  method FailedSetupScenario() returns (provider: SocketProvider)
    ensures provider.socketReady && !provider.listening && !provider.wrapped
    ensures provider.status == Connecting && !provider.isConnected
  {
    provider := new SocketProvider(false);
    provider.Initialize(Some("boom"));
    assert provider.status == Error;
    var thrown := provider.Reconnect(false);
  }
}
