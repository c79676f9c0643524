/**
 * The request handlers of pkg/noxon/noxon.go: the access gate, the
 * login/browse, search, preset and playback endpoints, the recovery
 * handler and the page-collecting loop. A request is a `Context`; what a
 * handler writes back is a `Response`.
 */
module Noxon {
  import opened Wrappers
  import opened Items
  import opened Catalog
  import opened Settings
  import opened Paging
  import opened RelaySpec
  import Decimal
  import Base64
  import JsonStationsModel

  // ---------------------------------------------------------------------
  // The access gate
  // ---------------------------------------------------------------------

  predicate IsLoginPath(s: NoxonServerSettings, path: string) {
    path == NormalizedLoginEndpoint || path in s.loginEndpoints
  }

  predicate Whitelisted(whitelist: seq<string>, mac: string) {
    exists w :: w in whitelist && (w == mac || w == "*")
  }

  /**
   * Which requests the gate lets through: a login request carrying a
   * token, the health check, and any request from a whitelisted MAC (or
   * from anyone when the whitelist holds "*"). The blacklist plays no part.
   */
  predicate AccessGranted(s: NoxonServerSettings, c: Context) {
    (IsLoginPath(s, c.path) && Query(c, "token") != "")
    || c.path == HealthEndpoint
    || Whitelisted(s.whitelist, Query(c, "mac"))
  }

  // ---------------------------------------------------------------------
  // Login and browse helpers
  // ---------------------------------------------------------------------

  /** The 0-based first index of a browse request: `startitems` (1-based, default "1") minus one. */
  function FirstItem(c: Context): int {
    Decimal.Atoi(DefaultQuery(c, "startitems", "1")) - 1
  }

  /** The 0-based inclusive last index: `enditems` (1-based, default 99 past the 1-based start) minus one. */
  function LastItem(c: Context): int {
    Decimal.Atoi(DefaultQuery(c, "enditems", Decimal.Itoa(Decimal.Atoi(DefaultQuery(c, "startitems", "1")) + 99))) - 1
  }

  /** An item list, or the recovered panic when collecting it ran past a slice. */
  function ListResponse(count: int, page: Option<seq<Item>>): (r: Response)
    ensures page.None? <==> r == Panicked(IndexOutOfRange)
    ensures page.Some? ==> r == ListOfItems(count, page.value)
  {
    match page
    case None => Panicked(IndexOutOfRange)
    case Some(items) => ListOfItems(count, items)
  }

  /** The key under which a device's preset slot is stored. */
  function PresetKey(mac: string, slot: string): string {
    mac + "-" + slot
  }

  class NoxonServer {
    const settings: NoxonServerSettings
    /** Stream URL per MAC + station id, with the time it was obtained. */
    var deviceStations: map<string, Station>
    /** The current playback per MAC. */
    var playbackTracker: map<string, Playback>
    /** The last MAC that was proxied to each upstream target. */
    var proxyHistory: map<string, string>

    /** `NewNoxonServer`: a server over the given settings, with no relay state yet. */
    constructor (settings: NoxonServerSettings)
      ensures this.settings == settings
      ensures State() == RelayState(map[], map[], map[])
    {
      this.settings := settings;
      deviceStations := map[];
      playbackTracker := map[];
      proxyHistory := map[];
    }

    function State(): RelayState
      reads this
    {
      RelayState(deviceStations, playbackTracker, proxyHistory)
    }

    /**
     * `authMiddleware`: whether the request reaches its handler, and the
     * 401 answer it gets instead when it does not.
     */
    method AuthMiddleware(c: Context) returns (accessGranted: bool, denied: Option<Response>)
      ensures accessGranted == AccessGranted(settings, c)
      ensures denied.None? <==> accessGranted
      ensures denied.Some? ==> denied.value == Status(StatusUnauthorized)
    {
      var mac := Query(c, "mac");
      accessGranted := false;
      var isLoginEndpoint := c.path == NormalizedLoginEndpoint;
      var i := 0;
      while i < |settings.loginEndpoints|
        invariant 0 <= i <= |settings.loginEndpoints|
        invariant isLoginEndpoint == (c.path == NormalizedLoginEndpoint || c.path in settings.loginEndpoints[..i])
      {
        if c.path == settings.loginEndpoints[i] {
          isLoginEndpoint := true;
          break;
        }
        i := i + 1;
      }
      assert settings.loginEndpoints[..|settings.loginEndpoints|] == settings.loginEndpoints;
      if isLoginEndpoint && Query(c, "token") != "" {
        accessGranted := true;
      } else if c.path == HealthEndpoint {
        accessGranted := true;
      } else {
        var j := 0;
        while j < |settings.blacklist|
          invariant 0 <= j <= |settings.blacklist|
          invariant !accessGranted
        {
          if settings.blacklist[j] == mac || settings.blacklist[j] == "*" {
            accessGranted := false;
            break;
          }
          j := j + 1;
        }
        var k := 0;
        while k < |settings.whitelist|
          invariant 0 <= k <= |settings.whitelist|
          invariant !accessGranted
          invariant !Whitelisted(settings.whitelist[..k], mac)
        {
          if settings.whitelist[k] == mac || settings.whitelist[k] == "*" {
            assert settings.whitelist[k] in settings.whitelist;
            accessGranted := true;
            break;
          }
          assert settings.whitelist[..k + 1] == settings.whitelist[..k] + [settings.whitelist[k]];
          k := k + 1;
        }
        assert !accessGranted ==> settings.whitelist[..k] == settings.whitelist;
      }
      if accessGranted {
        denied := None;
      } else {
        denied := Some(Status(StatusUnauthorized));
      }
    }

    /**
     * `CollectFromModel`: the built items from `start` up to `end`
     * (inclusive) or the parent's last child, whichever comes first; None
     * when a lookup panics.
     */
    method CollectFromModel(c: Context, parent: Option<string>, start: int, end: int) returns (ret: Option<seq<Item>>)
      ensures ret == Page(settings.stationsModel, c, parent, start, end)
    {
      var m := settings.stationsModel;
      // The interface's `Data` bound to this parent, and the items' `build` bound to this request.
      var fetch, build := FetchUnder(m, parent), BuildFor(c);
      var count := Count(m, parent);
      var trueEnd := Min(end + 1, count);
      ret := CollectPage(fetch, build, start, trueEnd);
    }

    /**
     * `handleLoginEndpoint`: a token is answered with the obfuscation key;
     * without `gofile` the root is listed from `startitems` to its end
     * (`enditems` is not consulted) or "No stations found"; with `gofile`
     * the decoded directory is paged from `startitems` to `enditems`, and an
     * undecodable `gofile` is a 400.
     */
    method HandleLoginEndpoint(c: Context) returns (r: Response)
      ensures Query(c, "token") != "" ==> r == EncryptedToken(MacObfuscate)
      ensures Query(c, "token") == "" && Query(c, "gofile") == "" ==>
        var n := Count(settings.stationsModel, None);
        var p := Page(settings.stationsModel, c, None, FirstItem(c), n - 1);
        if n == 0 then r == MessageResponse(c, "No stations found")
        else if p.None? then r == Panicked(IndexOutOfRange)
        else r == ListOfItems(n, p.value)
      ensures Query(c, "token") == "" && Query(c, "gofile") != "" ==>
        match Base64.Decode(Query(c, "gofile"))
        case None => r == Status(StatusBadRequest)
        case Some(id) =>
          var p := Page(settings.stationsModel, c, Some(id), FirstItem(c), LastItem(c));
          if p.None? then r == Panicked(IndexOutOfRange)
          else r == ListOfItems(Count(settings.stationsModel, Some(id)), p.value)
    {
      var firstItem := Decimal.Atoi(DefaultQuery(c, "startitems", "1"));
      var lastItem := Decimal.Atoi(DefaultQuery(c, "enditems", Decimal.Itoa(firstItem + 99)));
      firstItem := firstItem - 1;
      lastItem := lastItem - 1;
      assert firstItem == FirstItem(c) && lastItem == LastItem(c);
      var token := Query(c, "token");
      var gofile := Query(c, "gofile");
      if token != "" {
        r := EncryptedToken(MacObfuscate);
      } else if gofile == "" {
        var rootItemsCount := Count(settings.stationsModel, None);
        if rootItemsCount > 0 {
          var items := CollectFromModel(c, None, firstItem, rootItemsCount - 1);
          r := ListResponse(rootItemsCount, items);
        } else {
          r := MessageResponse(c, "No stations found");
        }
      } else {
        var itemId := Base64.Decode(gofile);
        if itemId.None? {
          r := Status(StatusBadRequest);
        } else {
          var items := CollectFromModel(c, itemId, firstItem, lastItem);
          r := ListResponse(Count(settings.stationsModel, itemId), items);
        }
      }
    }

    /**
     * `handleSearchEndpoint`: the decoded id's own entry as a one-item
     * list; 404 without a search id or for an id the catalog does not
     * know, 400 for an undecodable one.
     */
    function HandleSearchEndpoint(c: Context): (r: Response)
      ensures r.Status? || r.ListOfItems?
      ensures r.Status? ==> r.code == StatusBadRequest || r.code == StatusNotFound
      ensures r == Status(StatusBadRequest) <==> Query(c, "Search") != "" && Base64.Decode(Query(c, "Search")).None?
      ensures r.ListOfItems? <==>
        Query(c, "Search") != "" && Base64.Decode(Query(c, "Search")).Some?
        && Data(settings.stationsModel, Some(Base64.Decode(Query(c, "Search")).value), -1).id != ""
      ensures r.ListOfItems? ==>
        var id := Base64.Decode(Query(c, "Search")).value;
        r.itemCount == -1 && r.items == [Build(Data(settings.stationsModel, Some(id), -1).item, c, id)]
    {
      var searchId := Query(c, "Search");
      if searchId == "" then Status(StatusNotFound)
      else
        match Base64.Decode(searchId)
        case None => Status(StatusBadRequest)
        case Some(itemId) =>
          var f := Data(settings.stationsModel, Some(itemId), -1);
          if f.id != "" then ListOfItems(-1, [Build(f.item, c, itemId)]) else Status(StatusNotFound)
    }

    /** The answer to a preset recall once the stored station id is known. */
    function PresetReply(c: Context, stationId: string): (r: Response)
      ensures var f := Data(settings.stationsModel, Some(stationId), -1);
        if f.id != "" then r == ListOfItems(-1, [Build(f.item, c, f.id)])
        else r == MessageResponse(c, "Preset not set")
    {
      var f := Data(settings.stationsModel, Some(stationId), -1);
      if f.id != "" then ListOfItems(-1, [Build(f.item, c, f.id)]) else MessageResponse(c, "Preset not set")
    }

    /** `handleGetPresetEndpoint`: the station stored in the device's slot `id`, or "Preset not set". */
    function HandleGetPresetEndpoint(c: Context): (r: Response)
      reads settings.presetsModel
      ensures Query(c, "id") == "" ==> r == MessageResponse(c, "Preset not set")
      ensures Query(c, "id") != "" ==>
        r == PresetReply(c, settings.presetsModel.GetPreset(PresetKey(Query(c, "mac"), Query(c, "id"))))
    {
      var presetIndex := Query(c, "id");
      if presetIndex == "" then MessageResponse(c, "Preset not set")
      else PresetReply(c, settings.presetsModel.GetPreset(PresetKey(Query(c, "mac"), presetIndex)))
    }

    /**
     * `handleAddPresetEndpoint`: stores the device's current station in its
     * slot `id`, after which recalling that slot answers with that station;
     * without a slot or a current playback nothing is stored.
     */
    method HandleAddPresetEndpoint(c: Context) returns (r: Response)
      modifies settings.presetsModel
      ensures var mac, slot := Query(c, "mac"), Query(c, "id");
        if slot != "" && mac in playbackTracker then
          settings.presetsModel.presets
            == old(settings.presetsModel.presets)[PresetKey(mac, slot) := playbackTracker[mac].stationId]
          && r == MessageResponse(c, "Preset saved")
          && HandleGetPresetEndpoint(c) == PresetReply(c, playbackTracker[mac].stationId)
        else
          settings.presetsModel.presets == old(settings.presetsModel.presets)
          && r == MessageResponse(c, "Preset not created - select a station and try again")
    {
      var mac := Query(c, "mac");
      var hasCurrentPlayback := mac in playbackTracker;
      var presetIndex := Query(c, "id");
      if presetIndex != "" && hasCurrentPlayback {
        var currentPlayback := playbackTracker[mac];
        var err := settings.presetsModel.WritePreset(PresetKey(mac, presetIndex), currentPlayback.stationId);
        if err {
          r := MessageResponse(c, "Preset could not be saved");
        } else {
          r := MessageResponse(c, "Preset saved");
        }
      } else {
        r := MessageResponse(c, "Preset not created - select a station and try again");
      }
    }

    /**
     * `handlePlaybackEndpoint`: one playback request against the relay
     * state, performed step by step on the server's maps.
     */
    method HandlePlaybackEndpoint(c: Context, now: int, parse: string -> Option<string>, up: Upstream)
      returns (r: Response)
      modifies this
      ensures (State(), r) == PlaybackStep(old(State()), settings.stationsModel, c, now, parse, up)
    {
      var stationIdQuery := Query(c, "stationId");
      if stationIdQuery == "" {
        return Status(StatusNotFound);
      }
      var decoded := Base64.Decode(stationIdQuery);
      if decoded.None? {
        return Status(StatusBadRequest);
      }
      var stationId := decoded.value;
      var mac := Query(c, "mac");
      var key := mac + stationId;
      var hasDeviceStation := key in deviceStations;
      var deviceStation := if hasDeviceStation then deviceStations[key] else Station("", 0);
      var reloadDeviceStation := !hasDeviceStation;
      if hasDeviceStation && IsStale(deviceStation, now) {
        reloadDeviceStation := true;
      }
      if reloadDeviceStation {
        var f := Data(settings.stationsModel, Some(stationId), -1);
        if f.item.ItemStation? && f.id != "" {
          deviceStation := Station(f.item.stationUrl, now);
          assert Resolve(settings.stationsModel, stationId, now) == Some(deviceStation);
          deviceStations := deviceStations[key := deviceStation];
        } else {
          return Status(StatusNotFound);
        }
      }
      ghost var settled := State();
      assert PlaybackStep(old(State()), settings.stationsModel, c, now, parse, up)
          == Proxy(settled, c, key, stationId, deviceStation, now, parse, up);
      var remote := parse(deviceStation.streamUrl);
      if remote.None? || deviceStation.streamUrl == "" {
        return Status(StatusInternalServerError);
      }
      playbackTracker := playbackTracker[mac := Playback(deviceStation.streamUrl, stationId, now)];
      proxyHistory := proxyHistory[remote.value := mac];
      match up {
        case ClientAborted =>
          return Panicked(AbortHandler);
        case TransportError =>
          r := Status(StatusBadGateway);
        case Responded(status, location) =>
          if !IsRedirectStatus(status) {
            r := Proxied(status, remote.value);
          } else if |location| == 0 {
            r := Status(StatusBadGateway);
          } else {
            deviceStations := deviceStations[key := Station(location[0], now)];
            r := Redirect(StatusFound, BuildPlaybackUrl(c, stationId));
          }
      }
      playbackTracker := playbackTracker - {mac};
    }

    /** `handleRecovery`: a client abort during a proxy ends the device's playback. */
    method HandleRecovery(c: Context, cause: PanicCause)
      modifies this
      ensures State() == Recover(old(State()), Query(c, "mac"), cause)
    {
      if cause == AbortHandler {
        playbackTracker := playbackTracker - {Query(c, "mac")};
      }
    }
  }

  // ---------------------------------------------------------------------
  // Properties of the gate
  // ---------------------------------------------------------------------

  /** Whatever the blacklist holds, the gate decides the same. */
  lemma BlacklistIsInert(s: NoxonServerSettings, c: Context, blacklist: seq<string>)
    ensures AccessGranted(WithBlacklist(s, blacklist), c) == AccessGranted(s, c)
  {
  }

  /** With default settings only a login carrying a token and the health check get through. */
  lemma DefaultSettingsGate(p: MemPresetsModel.MemPresetsModel, c: Context)
    ensures AccessGranted(DefaultSettings(p), c) <==>
      (c.path == NormalizedLoginEndpoint && Query(c, "token") != "") || c.path == HealthEndpoint
  {
  }

  /** A whitelisted MAC gets through even when the blacklist holds "*"; another MAC does not. */
  lemma WhitelistOverridesBlacklist(s: NoxonServerSettings, c: Context)
    requires s.whitelist == ["AA:BB"] && s.blacklist == ["*"]
    requires c.path != HealthEndpoint && !IsLoginPath(s, c.path)
    ensures AccessGranted(s, c) <==> Query(c, "mac") == "AA:BB"
  {
    if Query(c, "mac") == "AA:BB" {
      assert "AA:BB" in s.whitelist;
    }
  }

  // ---------------------------------------------------------------------
  // Properties of browsing
  // ---------------------------------------------------------------------

  /** Without `startitems`, or with `startitems=1`, the first index is 0. */
  lemma DefaultFirstItem(c: Context)
    requires "startitems" !in c.query || c.query["startitems"] == "1"
    ensures FirstItem(c) == 0
  {
    assert "1"[1..] == "";
    assert Decimal.DigitsValue("1") == 1 by {
      assert "1"[..0] == "";
    }
  }

  /** Without `enditems` a page covers 100 indices from the first one. */
  lemma DefaultPageWidth(c: Context)
    requires "enditems" !in c.query
    ensures LastItem(c) == FirstItem(c) + 99
  {
    Decimal.AtoiItoa(Decimal.Atoi(DefaultQuery(c, "startitems", "1")) + 99);
  }

  /** `enditems=100` names the 100th entry, 0-based index 99. */
  lemma HundredthItem(c: Context)
    requires "enditems" in c.query && c.query["enditems"] == "100"
    ensures LastItem(c) == 99
  {
    var s := "100";
    assert s[..|s| - 1] == "10";
    assert "10"[..1] == "1";
    assert "1"[..0] == "";
    assert Decimal.DigitsValue("1") == 1;
    assert Decimal.DigitsValue("10") == 10;
    assert Decimal.DigitsValue(s) == 100;
  }

  /**
   * `enditems` at the smallest 64-bit int: Go's `lastItem--` and `end+1`
   * wrap in opposite directions and cancel, and so do unbounded integers,
   * so with a start inside Go's range the page is empty in both.
   */
  lemma EndAtMinInt(m: StationsModel, c: Context, parent: Option<string>)
    requires "enditems" in c.query && c.query["enditems"] == Decimal.Itoa(-0x8000_0000_0000_0000)
    requires FirstItem(c) >= -0x8000_0000_0000_0000
    ensures LastItem(c) == -0x8000_0000_0000_0001
    ensures Page(m, c, parent, FirstItem(c), LastItem(c)) == Some([])
  {
    Decimal.AtoiItoa(-0x8000_0000_0000_0000);
  }

  /** The default window, or `startitems=1&enditems=100`, is indices 0 to 99. */
  lemma DefaultWindow(c: Context)
    requires "startitems" !in c.query || c.query["startitems"] == "1"
    requires "enditems" !in c.query || c.query["enditems"] == "100"
    ensures FirstItem(c) == 0 && LastItem(c) == 99
  {
    DefaultFirstItem(c);
    if "enditems" in c.query {
      HundredthItem(c);
    } else {
      DefaultPageWidth(c);
    }
  }

  /**
   * A directory listing with the default window, or with `startitems=1`
   * and `enditems=100`, holds its first 100 children (all of them when it
   * has fewer), in order.
   */
  lemma DefaultSubmenuPage(m: StationsModel, c: Context, id: string)
    requires "startitems" !in c.query || c.query["startitems"] == "1"
    requires "enditems" !in c.query || c.query["enditems"] == "100"
    ensures var p := Page(m, c, Some(id), FirstItem(c), LastItem(c));
      p.Some? && |p.value| == Min(100, Count(m, Some(id)))
      && forall k :: 0 <= k < |p.value| ==>
           p.value[k] == Build(Data(m, Some(id), k).item, c, Data(m, Some(id), k).id)
  {
    DefaultWindow(c);
    var p := Page(m, c, Some(id), 0, 99);
    assert Page(m, c, Some(id), FirstItem(c), LastItem(c)) == p;
    PageContents(m, c, Some(id), 0, 99);
    assert |p.value| == Min(100, Count(m, Some(id)));
    forall k | 0 <= k < |p.value|
      ensures p.value[k] == Build(Data(m, Some(id), k).item, c, Data(m, Some(id), k).id)
    {
      assert 0 + k == k;
    }
  }

  /**
   * The root listing from the first entry holds every root entry, however
   * many there are and whatever `enditems` says: 250 root entries asked for
   * with `startitems=1&enditems=100` come back as 250 items.
   */
  lemma RootListingIsComplete(m: StationsModel, c: Context)
    requires "startitems" !in c.query || c.query["startitems"] == "1"
    requires Count(m, None) > 0
    ensures var p := Page(m, c, None, FirstItem(c), Count(m, None) - 1);
      p.Some? && |p.value| == Count(m, None)
  {
    DefaultFirstItem(c);
    PageContents(m, c, None, 0, Count(m, None) - 1);
  }

  /** A root listing asked to start before the first entry panics in the JSON catalog. */
  lemma RootListingFromZeroPanics(m: StationsModel, c: Context)
    requires m.JsonStations? && Count(m, None) > 0
    requires "startitems" in c.query && c.query["startitems"] == "0"
    ensures Page(m, c, None, FirstItem(c), Count(m, None) - 1).None?
  {
    assert "0"[1..] == "";
    assert Decimal.DigitsValue("0") == 0 by {
      assert "0"[..0] == "";
    }
    NegativeRootStartPanics(m, c, -1, Count(m, None) - 1);
  }

  // ---------------------------------------------------------------------
  // Properties of search and presets
  // ---------------------------------------------------------------------

  /** Digit strings are byte strings, so a positional id survives the base64 round trip. */
  lemma DigitsAreBytes(s: string)
    requires Decimal.AllDigits(s)
    ensures Base64.IsByteString(s)
  {
    forall i | 0 <= i < |s|
      ensures s[i] as int < 256
    {
      assert Decimal.IsDigit(s[i]);
    }
  }

  /**
   * Searching a JSON catalog loaded by `NewJsonModelFromJson` for the
   * encoded id of its k-th entry answers with that entry, built.
   */
  lemma SearchFindsIndexedEntry(server: NoxonServer, json: JsonStationsModel.JsonModel, c: Context, k: int)
    requires server.settings.stationsModel == JsonStations(json)
    requires JsonStationsModel.WellFormed(json) && JsonStationsModel.IdsArePositions(json.data)
    requires 0 <= k < |JsonStationsModel.Preorder(json.data)|
    requires Query(c, "Search") == Base64.Encode(Decimal.NatToString(k))
    ensures var id := Decimal.NatToString(k);
      var e := JsonStationsModel.Preorder(json.data)[k];
      server.HandleSearchEndpoint(c) == ListOfItems(-1, [Build(JsonStationsModel.EntryToItem(Some(e)).item, c, id)])
  {
    var id := Decimal.NatToString(k);
    DigitsAreBytes(id);
    Base64.DecodeEncode(id);
    JsonStationsModel.FindIndexed(json, k);
  }

  /**
   * Recalling a slot that holds the id of entry k of a JSON catalog loaded
   * by `NewJsonModelFromJson` answers with that entry, built under that id,
   * when the entry is a directory or a station; otherwise "Preset not set".
   */
  lemma RecallFindsIndexedEntry(server: NoxonServer, json: JsonStationsModel.JsonModel, c: Context, k: int)
    requires server.settings.stationsModel == JsonStations(json)
    requires JsonStationsModel.IdsArePositions(json.data)
    requires 0 <= k < |JsonStationsModel.Preorder(json.data)|
    requires Query(c, "id") != ""
    requires server.settings.presetsModel.GetPreset(PresetKey(Query(c, "mac"), Query(c, "id"))) == Decimal.NatToString(k)
    ensures var e := JsonStationsModel.Preorder(json.data)[k];
      if JsonStationsModel.IsDir(e) || JsonStationsModel.IsStation(e) then
        server.HandleGetPresetEndpoint(c)
          == ListOfItems(-1, [Build(JsonStationsModel.EntryToItem(Some(e)).item, c, Decimal.NatToString(k))])
      else
        server.HandleGetPresetEndpoint(c) == MessageResponse(c, "Preset not set")
  {
    JsonStationsModel.FindIndexed(json, k);
  }

  /**
   * A slot that was never written, that holds "", or that holds an id no
   * entry of the JSON catalog carries, recalls as "Preset not set".
   */
  lemma RecallOfUnsetSlot(server: NoxonServer, json: JsonStationsModel.JsonModel, c: Context)
    requires server.settings.stationsModel == JsonStations(json)
    requires var stored := server.settings.presetsModel.GetPreset(PresetKey(Query(c, "mac"), Query(c, "id")));
      Query(c, "id") == "" || stored == ""
      || forall e :: e in JsonStationsModel.Preorder(json.data) ==> e.id != stored
    ensures server.HandleGetPresetEndpoint(c) == MessageResponse(c, "Preset not set")
  {
  }

  /** With the empty catalog, search never finds anything and a recalled preset is never set. */
  lemma NullCatalogFindsNothing(server: NoxonServer, c: Context, stationId: string)
    requires server.settings.stationsModel == NullStations
    ensures !server.HandleSearchEndpoint(c).ListOfItems?
    ensures server.PresetReply(c, stationId) == MessageResponse(c, "Preset not set")
  {
  }
}
