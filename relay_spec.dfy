/**
 * The playback relay of pkg/noxon/noxon.go (`handlePlaybackEndpoint` and
 * `handleRecovery`) as a state transition over its three process-wide
 * maps: the per-device stream cache, the current-playback tracker and the
 * proxy history. `Noxon.NoxonServer.HandlePlaybackEndpoint` performs these steps
 * on its fields.
 *
 * The clock is one value `now` in seconds per request; `url.Parse`
 * followed by `String()` is the parameter `parse`; what the upstream
 * answers is the parameter `up`.
 */
module RelaySpec {
  import opened Wrappers
  import opened Items
  import Base64
  import Catalog

  /** `time.Hour`, in seconds. */
  const Hour := 3600

  /** A cached stream URL with the time it was obtained. */
  datatype Station = Station(streamUrl: string, lastUpdate: int)

  /** What a device is currently playing. */
  datatype Playback = Playback(streamUrl: string, stationId: string, startTime: int)

  datatype RelayState = RelayState(
    deviceStations: map<string, Station>,
    playbackTracker: map<string, Playback>,
    proxyHistory: map<string, string>)

  /**
   * What the upstream does once the proxy is started: it answers with a
   * status and its Location header values, the round trip fails, or the
   * device goes away mid-stream (the proxy panics with ErrAbortHandler).
   */
  datatype Upstream = Responded(status: int, location: seq<string>) | TransportError | ClientAborted

  /** 301, 302, 307 and 308 are the statuses `ModifyResponse` treats as redirects. */
  predicate IsRedirectStatus(code: int) {
    code == 301 || code == 302 || code == 307 || code == 308
  }

  /** A cached URL is reloaded once it was obtained strictly more than an hour ago. */
  predicate IsStale(st: Station, now: int) {
    st.lastUpdate < now - Hour
  }

  predicate NeedsReload(cache: map<string, Station>, key: string, now: int) {
    key !in cache || IsStale(cache[key], now)
  }

  /**
   * The catalog lookup of the reload path: a station item under a
   * non-empty id yields its upstream URL stamped `now`; anything else
   * (unknown id, a directory, a message) yields nothing.
   */
  function Resolve(m: Catalog.StationsModel, stationId: string, now: int): (r: Option<Station>)
    ensures r.Some? ==> r.value.lastUpdate == now
    ensures r.Some? ==> Catalog.Data(m, Some(stationId), -1).item.ItemStation?
                        && r.value.streamUrl == Catalog.Data(m, Some(stationId), -1).item.stationUrl
    ensures r.Some? <==> Catalog.Data(m, Some(stationId), -1).item.ItemStation? && Catalog.Data(m, Some(stationId), -1).id != ""
  {
    var f := Catalog.Data(m, Some(stationId), -1);
    if f.item.ItemStation? && f.id != "" then Some(Station(f.item.stationUrl, now)) else None
  }

  /** Removes a device from the playback tracker. */
  function StopPlayback(s: RelayState, mac: string): RelayState {
    s.(playbackTracker := s.playbackTracker - {mac})
  }

  /**
   * The proxy part of the handler, once the stream URL `st` is settled:
   * an unparsable or empty URL answers 500; otherwise the device's playback
   * is recorded, the upstream is asked, an upstream redirect is absorbed
   * into the cache and turned into a 302 to this server's own playback
   * link, and the playback record is removed when the proxy returns.
   */
  function Proxy(s: RelayState, c: Context, key: string, stationId: string, st: Station, now: int,
                 parse: string -> Option<string>, up: Upstream): (RelayState, Response)
  {
    var mac := Query(c, "mac");
    match parse(st.streamUrl)
    case None => (s, Status(StatusInternalServerError))
    case Some(remote) =>
      if st.streamUrl == "" then (s, Status(StatusInternalServerError))
      else
        var started := s.(playbackTracker := s.playbackTracker[mac := Playback(st.streamUrl, stationId, now)],
                          proxyHistory := s.proxyHistory[remote := mac]);
        match up
        case ClientAborted => (started, Panicked(AbortHandler))
        case TransportError => (StopPlayback(started, mac), Status(StatusBadGateway))
        case Responded(status, location) =>
          if !IsRedirectStatus(status) then (StopPlayback(started, mac), Proxied(status, remote))
          else if |location| == 0 then (StopPlayback(started, mac), Status(StatusBadGateway))
          else
            var absorbed := started.(deviceStations := started.deviceStations[key := Station(location[0], now)]);
            (StopPlayback(absorbed, mac), Redirect(StatusFound, BuildPlaybackUrl(c, stationId)))
  }

  /** One playback request, from the query string to the state after the proxy returns or panics. */
  function PlaybackStep(s: RelayState, m: Catalog.StationsModel, c: Context, now: int,
                        parse: string -> Option<string>, up: Upstream): (RelayState, Response)
  {
    var query := Query(c, "stationId");
    if query == "" then (s, Status(StatusNotFound))
    else
      match Base64.Decode(query)
      case None => (s, Status(StatusBadRequest))
      case Some(stationId) =>
        var key := Query(c, "mac") + stationId;
        if NeedsReload(s.deviceStations, key, now) then
          match Resolve(m, stationId, now)
          case None => (s, Status(StatusNotFound))
          case Some(st) => Proxy(s.(deviceStations := s.deviceStations[key := st]), c, key, stationId, st, now, parse, up)
        else
          Proxy(s, c, key, stationId, s.deviceStations[key], now, parse, up)
  }

  /** `handleRecovery`: only the client-abort panic ends the device's playback. */
  function Recover(s: RelayState, mac: string, cause: PanicCause): RelayState {
    if cause == AbortHandler then StopPlayback(s, mac) else s
  }

  /** The responses that can only come after the proxy was started. */
  predicate ProxyStarted(r: Response) {
    r.Redirect? || r.Proxied? || r == Status(StatusBadGateway) || r == Panicked(AbortHandler)
  }

  /** The station id a playback query decodes to, when it does. */
  predicate DecodesTo(c: Context, stationId: string) {
    Query(c, "stationId") != "" && Base64.Decode(Query(c, "stationId")) == Some(stationId)
  }

  /** The stream URL a request uses: the cached one while fresh, else the catalog's. */
  function StreamSource(s: RelayState, m: Catalog.StationsModel, key: string, stationId: string, now: int): Option<Station> {
    if NeedsReload(s.deviceStations, key, now) then Resolve(m, stationId, now) else Some(s.deviceStations[key])
  }

  /**
   * A playback request is either refused with 404 or 400 before anything
   * changes, or it is the proxy step on the settled URL, run on a state
   * whose cache holds that URL under the device's key.
   */
  lemma StepViaProxy(s: RelayState, m: Catalog.StationsModel, c: Context, now: int,
                     parse: string -> Option<string>, up: Upstream)
    returns (proxied: bool, stationId: string, st: Station)
    ensures var (s', r) := PlaybackStep(s, m, c, now, parse, up);
      !proxied ==> s' == s && (r == Status(StatusNotFound) || r == Status(StatusBadRequest))
    ensures !proxied ==>
      forall sid :: DecodesTo(c, sid) ==> StreamSource(s, m, Query(c, "mac") + sid, sid, now).None?
    ensures proxied ==>
      var key := Query(c, "mac") + stationId;
      DecodesTo(c, stationId) && StreamSource(s, m, key, stationId, now) == Some(st)
      && PlaybackStep(s, m, c, now, parse, up)
         == Proxy(s.(deviceStations := s.deviceStations[key := st]), c, key, stationId, st, now, parse, up)
  {
    proxied, stationId, st := false, "", Station("", 0);
    var query := Query(c, "stationId");
    if query != "" && Base64.Decode(query).Some? {
      stationId := Base64.Decode(query).value;
      var key := Query(c, "mac") + stationId;
      if NeedsReload(s.deviceStations, key, now) {
        if Resolve(m, stationId, now).Some? {
          proxied, st := true, Resolve(m, stationId, now).value;
        }
      } else {
        proxied, st := true, s.deviceStations[key];
        assert s.deviceStations[key := st] == s.deviceStations;
      }
    }
  }

  /** The proxy step touches the tracker only at the device's MAC, and records the history when it starts. */
  lemma ProxyTracker(s: RelayState, c: Context, key: string, stationId: string, st: Station, now: int,
                     parse: string -> Option<string>, up: Upstream)
    ensures var mac := Query(c, "mac");
      var (s', r) := Proxy(s, c, key, stationId, st, now, parse, up);
      s'.playbackTracker - {mac} == s.playbackTracker - {mac}
      && (!ProxyStarted(r) ==> s'.playbackTracker == s.playbackTracker && s'.proxyHistory == s.proxyHistory)
      && (ProxyStarted(r) && !r.Panicked? ==> mac !in s'.playbackTracker)
      && (r.Panicked? ==> up.ClientAborted? && mac in s'.playbackTracker)
      && (r.Proxied? ==> r.target in s'.proxyHistory && s'.proxyHistory[r.target] == mac)
  {
    var mac := Query(c, "mac");
    var t := s.playbackTracker;
    assert t[mac := Playback(st.streamUrl, stationId, now)] - {mac} == t - {mac};
    assert t - {mac} - {mac} == t - {mac};
  }

  /**
   * The proxy starts exactly when the URL is non-empty and parses; from then
   * on the history maps the upstream target to the device, and the tracker
   * holds the device's playback only if the stream was aborted.
   */
  lemma ProxyRecord(s: RelayState, c: Context, key: string, stationId: string, st: Station, now: int,
                    parse: string -> Option<string>, up: Upstream)
    ensures var mac := Query(c, "mac");
      var (s', r) := Proxy(s, c, key, stationId, st, now, parse, up);
      (ProxyStarted(r) <==> st.streamUrl != "" && parse(st.streamUrl).Some?)
      && (!ProxyStarted(r) ==> r == Status(StatusInternalServerError) && s' == s)
      && (ProxyStarted(r) ==>
            s'.proxyHistory == s.proxyHistory[parse(st.streamUrl).value := mac]
            && s'.playbackTracker == if r.Panicked? then s.playbackTracker[mac := Playback(st.streamUrl, stationId, now)]
                                     else s.playbackTracker - {mac})
  {
    var mac := Query(c, "mac");
    assert s.playbackTracker[mac := Playback(st.streamUrl, stationId, now)] - {mac} == s.playbackTracker - {mac};
  }

  /** The proxy step changes the cache only at `key`, and only on an absorbed redirect. */
  lemma ProxyCache(s: RelayState, c: Context, key: string, stationId: string, st: Station, now: int,
                   parse: string -> Option<string>, up: Upstream)
    ensures var (s', r) := Proxy(s, c, key, stationId, st, now, parse, up);
      s'.deviceStations == if r.Redirect? then s.deviceStations[key := Station(up.location[0], now)] else s.deviceStations
  {
  }

  // ---------------------------------------------------------------------
  // Properties of the relay
  // ---------------------------------------------------------------------

  /** Requests without a usable station id are refused before any state is touched. */
  lemma BadQueryRefused(s: RelayState, m: Catalog.StationsModel, c: Context, now: int,
                        parse: string -> Option<string>, up: Upstream)
    requires Query(c, "stationId") == "" || Base64.Decode(Query(c, "stationId")).None?
    ensures var (s', r) := PlaybackStep(s, m, c, now, parse, up);
      s' == s && (r == Status(StatusNotFound) || r == Status(StatusBadRequest))
      && (r == Status(StatusBadRequest) <==> Query(c, "stationId") != "")
  {
  }

  /**
   * While a device's cached URL is fresh the catalog is not consulted:
   * the outcome is the same whatever the catalog holds.
   */
  lemma FreshEntryIgnoresCatalog(s: RelayState, m1: Catalog.StationsModel, m2: Catalog.StationsModel, c: Context,
                                 stationId: string, now: int, parse: string -> Option<string>, up: Upstream)
    requires DecodesTo(c, stationId)
    requires !NeedsReload(s.deviceStations, Query(c, "mac") + stationId, now)
    ensures PlaybackStep(s, m1, c, now, parse, up) == PlaybackStep(s, m2, c, now, parse, up)
  {
  }

  /** A lookup that finds no station answers 404 and changes nothing, even if a stale entry is cached. */
  lemma FailedReloadAnswers404(s: RelayState, m: Catalog.StationsModel, c: Context, stationId: string, now: int,
                               parse: string -> Option<string>, up: Upstream)
    requires DecodesTo(c, stationId)
    requires NeedsReload(s.deviceStations, Query(c, "mac") + stationId, now)
    requires Resolve(m, stationId, now).None?
    ensures PlaybackStep(s, m, c, now, parse, up) == (s, Status(StatusNotFound))
  {
  }

  /**
   * After a request whose URL is settled, the cache entry for this device
   * and station is the settled URL, or the upstream's redirect target
   * stamped `now`; every other cache entry is untouched.
   */
  lemma CacheAfterRequest(s: RelayState, m: Catalog.StationsModel, c: Context, stationId: string, now: int,
                          parse: string -> Option<string>, up: Upstream)
    requires DecodesTo(c, stationId)
    requires StreamSource(s, m, Query(c, "mac") + stationId, stationId, now).Some?
    ensures var key := Query(c, "mac") + stationId;
      var st := StreamSource(s, m, key, stationId, now).value;
      var (s', r) := PlaybackStep(s, m, c, now, parse, up);
      key in s'.deviceStations
      && (if r.Redirect? then s'.deviceStations[key] == Station(up.location[0], now)
          else s'.deviceStations[key] == st)
      && (forall k :: k != key ==> (k in s'.deviceStations <==> k in s.deviceStations))
      && (forall k :: k != key && k in s.deviceStations ==> s'.deviceStations[k] == s.deviceStations[k])
  {
    var proxied, sid, st := StepViaProxy(s, m, c, now, parse, up);
    var key := Query(c, "mac") + stationId;
    assert sid == stationId;
    ProxyCache(s.(deviceStations := s.deviceStations[key := st]), c, key, stationId, st, now, parse, up);
  }

  /**
   * An upstream redirect is absorbed: the device is sent a 302 to this
   * server's own playback link, which carries the same MAC and station id,
   * and the cached URL becomes the redirect target.
   */
  lemma RedirectAbsorbed(s: RelayState, m: Catalog.StationsModel, c: Context, stationId: string, now: int,
                         parse: string -> Option<string>, status: int, location: seq<string>)
    requires DecodesTo(c, stationId)
    requires var st := StreamSource(s, m, Query(c, "mac") + stationId, stationId, now);
      st.Some? && st.value.streamUrl != "" && parse(st.value.streamUrl).Some?
    requires IsRedirectStatus(status) && |location| > 0
    ensures var (s', r) := PlaybackStep(s, m, c, now, parse, Responded(status, location));
      var p := PlaybackUrlPrefix(c);
      r.Redirect? && r.code == StatusFound
      && |p| <= |r.location| && r.location[..|p|] == p && Base64.Decode(r.location[|p|..]) == Some(stationId)
      && s'.deviceStations[Query(c, "mac") + stationId] == Station(location[0], now)
  {
    PlaybackLinkDecodesToId(c, stationId);
  }

  /** A redirect without a Location header is a proxy error: 502, and the cache keeps the settled URL. */
  lemma RedirectWithoutLocation(s: RelayState, m: Catalog.StationsModel, c: Context, stationId: string, now: int,
                                parse: string -> Option<string>, status: int)
    requires DecodesTo(c, stationId)
    requires var st := StreamSource(s, m, Query(c, "mac") + stationId, stationId, now);
      st.Some? && st.value.streamUrl != "" && parse(st.value.streamUrl).Some?
    requires IsRedirectStatus(status)
    ensures var (s', r) := PlaybackStep(s, m, c, now, parse, Responded(status, []));
      var key := Query(c, "mac") + stationId;
      r == Status(StatusBadGateway) && s'.deviceStations[key] == StreamSource(s, m, key, stationId, now).value
  {
  }

  /**
   * The playback tracker: the device's entry is removed when the proxy
   * returns, set to the station being played when the proxy panics on a
   * client abort, and untouched when the proxy never started; other
   * devices' entries are never touched. Whenever the proxy started, the
   * proxy history records the device under the upstream target, and an
   * aborted stream leaves the device's entry at the settled URL, the
   * decoded station and `now`.
   */
  lemma TrackerAfterRequest(s: RelayState, m: Catalog.StationsModel, c: Context, now: int,
                            parse: string -> Option<string>, up: Upstream)
    ensures var mac := Query(c, "mac");
      var (s', r) := PlaybackStep(s, m, c, now, parse, up);
      (forall other :: other != mac ==> (other in s'.playbackTracker <==> other in s.playbackTracker))
      && (forall other :: other != mac && other in s.playbackTracker ==> s'.playbackTracker[other] == s.playbackTracker[other])
      && (!ProxyStarted(r) ==> s'.playbackTracker == s.playbackTracker && s'.proxyHistory == s.proxyHistory)
      && (ProxyStarted(r) && !r.Panicked? ==> mac !in s'.playbackTracker)
      && (r.Panicked? ==> up.ClientAborted? && mac in s'.playbackTracker)
      && (r.Proxied? ==> r.target in s'.proxyHistory && s'.proxyHistory[r.target] == mac)
      && (ProxyStarted(r) ==>
            exists stationId :: DecodesTo(c, stationId)
              && StreamSource(s, m, mac + stationId, stationId, now).Some?
              && var url := StreamSource(s, m, mac + stationId, stationId, now).value.streamUrl;
                 parse(url).Some?
                 && s'.proxyHistory == s.proxyHistory[parse(url).value := mac]
                 && (r.Panicked? ==> s'.playbackTracker[mac] == Playback(url, stationId, now)))
  {
    var mac := Query(c, "mac");
    var proxied, stationId, st := StepViaProxy(s, m, c, now, parse, up);
    if proxied {
      PlaybackRecorded(s, m, c, stationId, now, parse, up);
      var key := mac + stationId;
      var s1 := s.(deviceStations := s.deviceStations[key := st]);
      ProxyTracker(s1, c, key, stationId, st, now, parse, up);
      var s' := PlaybackStep(s, m, c, now, parse, up).0;
      forall other | other != mac
        ensures other in s'.playbackTracker <==> other in s.playbackTracker
      {
        assert other in s'.playbackTracker <==> other in s'.playbackTracker - {mac};
        assert other in s.playbackTracker <==> other in s.playbackTracker - {mac};
      }
      forall other | other != mac && other in s.playbackTracker
        ensures s'.playbackTracker[other] == s.playbackTracker[other]
      {
        assert s'.playbackTracker[other] == (s'.playbackTracker - {mac})[other];
        assert s.playbackTracker[other] == (s.playbackTracker - {mac})[other];
      }
    }
  }

  /**
   * Once the stream URL is settled: the proxy starts exactly when that URL
   * is non-empty and parses, and otherwise the request is a 500 that leaves
   * the tracker and the history alone. After a start the history maps the
   * upstream target to the device, whatever the upstream did (relayed
   * response, redirect, 502 or abort). The device's playback record is the
   * settled URL, the station and `now` while an aborted stream awaits
   * recovery, and is gone in every other case.
   */
  lemma PlaybackRecorded(s: RelayState, m: Catalog.StationsModel, c: Context, stationId: string, now: int,
                         parse: string -> Option<string>, up: Upstream)
    requires DecodesTo(c, stationId)
    requires StreamSource(s, m, Query(c, "mac") + stationId, stationId, now).Some?
    ensures var mac := Query(c, "mac");
      var st := StreamSource(s, m, mac + stationId, stationId, now).value;
      var (s', r) := PlaybackStep(s, m, c, now, parse, up);
      (ProxyStarted(r) <==> st.streamUrl != "" && parse(st.streamUrl).Some?)
      && (!ProxyStarted(r) ==>
            r == Status(StatusInternalServerError) && s'.playbackTracker == s.playbackTracker
            && s'.proxyHistory == s.proxyHistory)
      && (ProxyStarted(r) ==>
            s'.proxyHistory == s.proxyHistory[parse(st.streamUrl).value := mac]
            && s'.playbackTracker == if r.Panicked? then s.playbackTracker[mac := Playback(st.streamUrl, stationId, now)]
                                     else s.playbackTracker - {mac})
  {
    var proxied, sid, st := StepViaProxy(s, m, c, now, parse, up);
    assert proxied && sid == stationId;
    var key := Query(c, "mac") + stationId;
    ProxyRecord(s.(deviceStations := s.deviceStations[key := st]), c, key, stationId, st, now, parse, up);
  }

  /** A playback that the client aborts, followed by the recovery handler, leaves the device idle. */
  lemma AbortThenRecoverEndsPlayback(s: RelayState, m: Catalog.StationsModel, c: Context, now: int,
                                     parse: string -> Option<string>)
    ensures var mac := Query(c, "mac");
      var (s', r) := PlaybackStep(s, m, c, now, parse, ClientAborted);
      r.Panicked? ==>
        var s'' := Recover(s', mac, r.cause);
        mac !in s''.playbackTracker && s''.deviceStations == s'.deviceStations
        && forall other :: other != mac && other in s.playbackTracker ==>
             other in s''.playbackTracker && s''.playbackTracker[other] == s.playbackTracker[other]
  {
  }

  /** Recovery is idempotent, and leaves the state alone for any other panic. */
  lemma RecoverIdempotent(s: RelayState, mac: string, cause: PanicCause)
    ensures Recover(Recover(s, mac, cause), mac, cause) == Recover(s, mac, cause)
    ensures cause != AbortHandler ==> Recover(s, mac, cause) == s
    ensures mac !in s.playbackTracker ==> Recover(s, mac, cause) == s
  {
  }

  /** With the empty catalog, nothing is ever played that was not already cached. */
  lemma NullCatalogPlaysOnlyCached(s: RelayState, c: Context, stationId: string, now: int,
                                   parse: string -> Option<string>, up: Upstream)
    requires DecodesTo(c, stationId)
    requires NeedsReload(s.deviceStations, Query(c, "mac") + stationId, now)
    ensures PlaybackStep(s, Catalog.NullStations, c, now, parse, up) == (s, Status(StatusNotFound))
  {
  }

  /**
   * Cache freshness in time: half an hour after a lookup the entry is
   * reused; exactly an hour after it still is; one minute past the hour it
   * is reloaded.
   */
  lemma StalenessBoundary(url: string, t: int)
    ensures !IsStale(Station(url, t), t + 30 * 60)
    ensures !IsStale(Station(url, t), t + Hour)
    ensures IsStale(Station(url, t), t + 61 * 60)
  {
  }
}
