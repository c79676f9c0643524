# noxon-server in Dafny

A model of the core of noxon-server. The server stands in for the vTuner-style
internet-radio service that Noxon radios were built to call. The model covers:

- **The access gate** (`authMiddleware`). It decides by request path, login token and the device's MAC.
- **Browsing** (`handleLoginEndpoint`, `CollectFromModel`, `min`). The catalog is listed one page at a time, between 1-based `startitems` and `enditems`.
- **Search** (`handleSearchEndpoint`). It looks up one catalog id.
- **Presets** (`handleAddPresetEndpoint`, `handleGetPresetEndpoint`, `MemPresetsModel`). Presets are stored per device under `mac-slot`.
- **The playback relay** (`handlePlaybackEndpoint`, `handleRecovery`):
  - It resolves a station's stream URL and caches it per device and station for an hour.
  - It proxies the stream and absorbs upstream redirects.
  - It keeps track of which device is playing what.
- **The wire items and their `build` methods**, with the base64 (URL alphabet, padded) ids and links they carry.
- **The two catalogs.**
  - The JSON catalog: the forest of entries, its pre-order indexer and its recursive lookup.
  - The empty catalog.
- **The settings record** and its `With*` updaters.

Modules, one per file:

- `Wrappers`: `Option`.
- `Decimal`: `fmt.Sprint` and `strconv.Atoi` with its error dropped.
- `Base64`: Go's `base64.URLEncoding`.
- `Items`: items, the request `Context`, `Response` and `build`.
- The catalogs:
  - `JsonStationsModel`.
  - `NullStationsModel`.
  - `Catalog`: the `StationsModel` interface, closed over those two.
- `MemPresetsModel`: a class with a map field.
- `Settings`.
- `Paging`: the specification of a page.
- `RelaySpec`: playback and recovery as a transition on the relay state.
- `Noxon`: class `NoxonServer`.

The handlers are modelled in two ways:

- Handlers that change state are methods of `NoxonServer`. Each method's `ensures` ties its result and its new state to a specification function:
  - `HandlePlaybackEndpoint` to `RelaySpec.PlaybackStep`;
  - `CollectFromModel` to `Paging.Page`, through the loop `Paging.CollectPage`.
  The properties are proved as lemmas about those functions.
- Handlers that only compute a reply are functions.

Behaviour of the code worth noting:

- **Root listing.** The root listing pages from `startitems` to the last root entry. `enditems` is read but not used there. So 250 root entries requested with `startitems=1&enditems=100` produce 250 items, not 100. Only directory listings honour `enditems` (`Noxon.RootListingIsComplete`, `Noxon.DefaultSubmenuPage`).
- **Blacklist.** The blacklist loop never changes the decision, so the blacklist has no effect (`Noxon.BlacklistIsInert`).
- **Missing `stationId`.** A playback request without `stationId` is answered 404, not 400.
- **Proxy history.** The proxy history maps each upstream target to the MAC that last played it.
- **JSON catalog panics.** Asking the JSON catalog for a root index outside its root entries is a Go runtime panic. This happens with `startitems=0`, or with a non-numeric `startitems`, which Atoi reads as 0. gin's recovery catches the panic. The model records it as a `Panicked` response, not as a precondition (`Noxon.RootListingFromZeroPanics`).

## Model

| member | source | states |
|---|---|---|
| Decimal.NatToString | pkg/noxon/jsonStationsModel.go:58-59 | renders a non-empty string of digits, one digit exactly for values below ten, and without leading zeros: the first digit is `0` only for zero itself |
| Decimal.DigitsValueOfNatToString | pkg/noxon/jsonStationsModel.go:58-59 | reading the digits of a rendered natural gives the number back |
| Decimal.Itoa | pkg/noxon/noxon.go:231 | `fmt.Sprintf("%d")`: a minus sign exactly for negative numbers, then the digits of the magnitude (`NatToString` of the number or of its negation) |
| Decimal.Atoi | pkg/noxon/noxon.go:230-231 | `strconv.Atoi` with its error dropped: a digit string reads as its value, a plus sign keeps it, a minus sign negates it, and anything (a lone sign included) that is not an optionally signed digit string reads as 0 |
| Decimal.AtoiItoa | pkg/noxon/noxon.go:229-230 | `strconv.Atoi` reads back every integer `fmt.Sprintf("%d")` renders, negative ones included |
| Decimal.NatToStringInjective | pkg/noxon/jsonStationsModel.go:55-63 | distinct positions are rendered as distinct ids |
| Base64.EncodeSextet | pkg/noxon/noxon.go:81-96 | each 6-bit value maps into the URL-safe alphabet |
| Base64.DecodeEncodeSextet | pkg/noxon/noxon.go:81-96 | the alphabet lookup inverts the encoding of every 6-bit value |
| Base64.Encode | pkg/noxon/noxon.go:81-96 | the encoding is 4 characters per started 3 bytes, all from the alphabet or padding |
| Base64.Decode | pkg/noxon/noxon.go:370-376 | a successful decode yields bytes |
| Base64.DecodeEncode | pkg/noxon/noxon.go:370-376 | decoding the encoding of any byte string gives it back |
| Base64.EncodeInjective | pkg/noxon/noxon.go:81-96 | distinct ids get distinct encodings |
| Base64.StripNewlinesNoop | pkg/noxon/noxon.go:370-376 | the decoder's newline filter leaves an encoding unchanged |
| Base64.QuantumRoundTrip | pkg/noxon/noxon.go:81-96 | a full 3-byte group survives encode and decode |
| Base64.OneByteQuantumRoundTrip | pkg/noxon/noxon.go:81-96 | a final single byte, encoded with `==` padding, decodes back to that byte |
| Base64.TwoByteQuantumRoundTrip | pkg/noxon/noxon.go:81-96 | a final two bytes, encoded with `=` padding, decode back to those bytes |
| Base64.SingleByteRoundTrip | pkg/noxon/noxon.go:81-96 | the encoding of a one-byte id decodes back to it |
| Base64.DoubleByteRoundTrip | pkg/noxon/noxon.go:81-96 | the encoding of a two-byte id decodes back to it |
| Base64.LeadingQuantumRoundTrip | pkg/noxon/noxon.go:81-96 | the first group of a longer id decodes back to its first three bytes, as an inner or as a final group |
| Base64.DecodeQuantaEncode | pkg/noxon/noxon.go:81-96 | decoding the quanta of an encoding gives the bytes back, by induction over the groups |
| Items.Query | pkg/noxon/noxon.go:150-160 | a present parameter reads as its value, an absent one as the empty string |
| Items.DefaultQuery | pkg/noxon/noxon.go:229-230 | a present parameter, even an empty one, wins over the default; an absent one reads as the default |
| Items.GetBasePath | pkg/noxon/noxon.go:134-139 | `http://` and the Host header when the request has a URL, otherwise the empty string |
| Items.TypeName | pkg/noxon/noxon.go:98-102 | the ItemType tag of each item kind: Message, Dir, Station |
| Items.BuildPlaybackUrl | pkg/noxon/noxon.go:94-96 | the link starts with this server's playback path and the device's MAC |
| Items.Build | pkg/noxon/noxon.go:76-92 | each kind gets its ItemType tag and keeps the catalog's fields; directories and stations get links derived from the id |
| Items.BuildIdempotent | pkg/noxon/noxon.go:76-92 | building a built item again changes nothing |
| Items.DirLinkDecodesToId | pkg/noxon/noxon.go:81-85 | a directory's link carries its id, which decodes back |
| Items.PlaybackLinkDecodesToId | pkg/noxon/noxon.go:94-96 | a playback link carries the station id, which decodes back |
| Items.StationLinkDecodesToId | pkg/noxon/noxon.go:87-92 | a station exposes its encoded id and this server's playback link instead of the upstream URL |
| Items.MessageResponse | pkg/noxon/noxon.go:525-532 | a message reply is a one-item list with count -1 carrying the text |
| JsonStationsModel.FirstWithId | pkg/noxon/jsonStationsModel.go:82-99 | a found entry has the id and no earlier candidate has it; none found means none has it |
| JsonStationsModel.FirstWithIdAppend | pkg/noxon/jsonStationsModel.go:82-99 | searching a concatenation searches the first part first |
| JsonStationsModel.IsDir | pkg/noxon/jsonStationsModel.go:21-23 | an entry is a directory when its directory name is non-empty |
| JsonStationsModel.IsStation | pkg/noxon/jsonStationsModel.go:25-27 | an entry is a station when its station name is non-empty |
| JsonStationsModel.FindEntry | pkg/noxon/jsonStationsModel.go:82-99 | the catalog's lookup by id is the first entry carrying the id in pre-order |
| JsonStationsModel.FindIn | pkg/noxon/jsonStationsModel.go:82-99 | the recursive search returns the first entry with the id in pre-order |
| JsonStationsModel.EntryToItem | pkg/noxon/jsonStationsModel.go:101-118 | a directory is a Dir titled with its name under its id; otherwise a station is a Station with its name, description, URL, empty format and bandwidth, and the MP3 mime type under its id; a missing entry or one that is neither is the empty directory without an id |
| JsonStationsModel.Count | pkg/noxon/jsonStationsModel.go:141-153 | the number of root entries at the root, the number of children of a found parent, and 0 for an unknown parent |
| JsonStationsModel.Data | pkg/noxon/jsonStationsModel.go:120-139 | root entry i, child i of a found parent, or the parent itself at a negative index, each as an item; the empty directory for an unknown parent; a panic exactly when a root or child index falls outside the slice |
| JsonStationsModel.PreorderAppend | pkg/noxon/jsonStationsModel.go:55-63 | pre-order distributes over concatenated forests |
| JsonStationsModel.PreorderSingle | pkg/noxon/jsonStationsModel.go:55-63 | a single tree lists its root before its descendants |
| JsonStationsModel.Indexer | pkg/noxon/jsonStationsModel.go:55-63 | the k-th entry in pre-order gets the decimal id of its position; nothing else changes |
| JsonStationsModel.NewJsonModelFromJson | pkg/noxon/jsonStationsModel.go:49-67 | after loading, ids are the pre-order positions and all other fields are kept |
| JsonStationsModel.PositionalIdsDistinct | pkg/noxon/jsonStationsModel.go:55-63 | positional ids are pairwise distinct |
| JsonStationsModel.FirstWithIdDistinct | pkg/noxon/jsonStationsModel.go:82-99 | with distinct ids, the search by an entry's id finds that entry |
| JsonStationsModel.FindIndexed | pkg/noxon/jsonStationsModel.go:82-99 | in a loaded catalog, looking up id k finds the k-th entry in pre-order |
| JsonStationsModel.RootsInPreorder | pkg/noxon/jsonStationsModel.go:82-99 | every root entry is reachable by the search |
| JsonStationsModel.ChildrenInPreorder | pkg/noxon/jsonStationsModel.go:82-99 | every child of a reachable entry is reachable |
| JsonStationsModel.ChildEntry | pkg/noxon/jsonStationsModel.go:120-139 | an in-range index reads a reachable entry |
| JsonStationsModel.DataRoundTrip | test/jsonStationsModel_test.go:10-22 | every listed entry has an id, and looking it up yields the same id |
| JsonStationsModel.IndexedDataRoundTrip | test/jsonStationsModel_test.go:10-22 | in a loaded catalog, looking up a listed id gives back the very same item |
| JsonStationsModel.IndexedIsWellFormed | pkg/noxon/jsonStationsModel.go:49-67 | loading a forest of named entries gives every entry a non-empty id |
| NullStationsModel.Data | pkg/noxon/nullStationsModel.go:11-14 | always the empty directory without an id, never a panic |
| NullStationsModel.Count | pkg/noxon/nullStationsModel.go:16-19 | always 0 |
| Catalog.Count | pkg/noxon/noxon.go:104-107 | never negative; 0 in the empty catalog |
| Catalog.Data | pkg/noxon/noxon.go:104-107 | in-range indices and lookups by id never panic; the empty catalog returns the empty directory |
| MemPresetsModel.MemPresetsModel.constructor | pkg/noxon/memPresetsModel.go:7-12 | a new store is empty and every key reads as "" |
| MemPresetsModel.MemPresetsModel.GetPreset | pkg/noxon/memPresetsModel.go:20-23 | returns the stored id, or "" for an unknown key |
| MemPresetsModel.MemPresetsModel.WritePreset | pkg/noxon/memPresetsModel.go:14-18 | never fails; the key then reads as the new id and every other key is unchanged |
| Settings.DefaultSettings | pkg/noxon/noxonSettings.go:14-26 | the empty catalog, empty lists, the given preset store |
| Settings.NewDefaultNoxonServerSettings | pkg/noxon/noxonSettings.go:14-26 | the default record around a fresh, empty preset store |
| Settings.WithPresetsModel | pkg/noxon/noxonSettings.go:28-32 | replaces the preset store and nothing else |
| Settings.WithStationsModel | pkg/noxon/noxonSettings.go:34-38 | replaces the catalog and nothing else |
| Settings.WithBlacklist | pkg/noxon/noxonSettings.go:40-44 | replaces the blacklist and nothing else |
| Settings.WithWhitelist | pkg/noxon/noxonSettings.go:46-50 | replaces the whitelist and nothing else |
| Settings.WithLoginEndpoints | pkg/noxon/noxonSettings.go:52-56 | replaces the extra login paths and nothing else |
| Settings.WithSearchEndpoints | pkg/noxon/noxonSettings.go:58-62 | replaces the extra search paths and nothing else |
| Settings.WithGetPresetsEndpoints | pkg/noxon/noxonSettings.go:64-68 | replaces the extra get-preset paths and nothing else |
| Settings.WithAddPresetsEndpoints | pkg/noxon/noxonSettings.go:70-74 | replaces the extra add-preset paths and nothing else |
| Settings.LastWithWins | pkg/noxon/noxonSettings.go:40-74 | of two updates to the same list, only the later one takes effect |
| Settings.LastModelWins | pkg/noxon/noxonSettings.go:28-38 | of two updates to the same model the later one wins |
| Paging.Min | pkg/noxon/noxon.go:162-167 | the smaller of the two arguments |
| Paging.PageFrom | pkg/noxon/noxon.go:169-181 | the reference definition of collecting: fetch each index in turn and build it, ending in a panic at the first lookup that panics |
| Paging.Page | pkg/noxon/noxon.go:169-181 | the page of a parent from `start` to the smaller of `end + 1` and the parent's count, with the catalog's lookup and the device's `build` |
| Paging.CollectPage | pkg/noxon/noxon.go:172-180 | the loop, over any lookup and any `build`, yields exactly the reference page, or the panic when the reference page panics |
| Paging.PageFromPanics | pkg/noxon/noxon.go:169-181 | collecting panics exactly when one of the indices in range panics |
| Paging.PageFromLength | pkg/noxon/noxon.go:169-181 | a collected page holds one item per index in range |
| Paging.PageFromItem | pkg/noxon/noxon.go:169-181 | item k is the lookup of index start + k, built for the requesting device |
| Paging.PageContents | pkg/noxon/noxon.go:169-181 | unless the start is negative at the JSON root, the page exists, never reads past the parent's count, has min(end+1, count) - start items, and item k is the lookup of index start + k built for the device |
| Paging.NegativeRootStartPanics | pkg/noxon/jsonStationsModel.go:120-125 | at the JSON root, a negative start panics whenever the page is not empty |
| RelaySpec.Resolve | pkg/noxon/noxon.go:388-403 | only a station item with a non-empty id yields a stream URL; that URL is the station's upstream URL, stamped with the current time |
| RelaySpec.Proxy | pkg/noxon/noxon.go:405-462 | the proxy part of the handler once the URL is settled: 500 for an empty or unparsable URL, otherwise record the playback and the history, ask the upstream, absorb a redirect, and end the playback unless the client aborted |
| RelaySpec.PlaybackStep | pkg/noxon/noxon.go:366-468 | one playback request: 404 or 400 for a missing or undecodable id, the cached URL while fresh, else a catalog reload (404 when it fails), then the proxy |
| RelaySpec.Recover | pkg/noxon/noxon.go:514-523 | the recovery handler: a client abort removes the device's playback, any other panic changes nothing |
| RelaySpec.BadQueryRefused | pkg/noxon/noxon.go:370-377 | a missing station id is 404 and an undecodable one is 400; the state is untouched |
| RelaySpec.FreshEntryIgnoresCatalog | pkg/noxon/noxon.go:378-387 | while a cached URL is at most an hour old, the catalog is not consulted |
| RelaySpec.FailedReloadAnswers404 | pkg/noxon/noxon.go:388-403 | a reload that finds no station is 404 and leaves a stale entry in place |
| RelaySpec.CacheAfterRequest | pkg/noxon/noxon.go:378-445 | the cache entry is then the resolved URL or the redirect target; other entries are untouched |
| RelaySpec.RedirectAbsorbed | pkg/noxon/noxon.go:416-440 | an upstream redirect becomes a 302 to this server's own link for the same station, and the target is cached |
| RelaySpec.RedirectWithoutLocation | pkg/noxon/noxon.go:416-443 | a redirect without a Location header is 502, and the cache keeps the resolved URL |
| RelaySpec.TrackerAfterRequest | pkg/noxon/noxon.go:446-462 | a playback is recorded while proxying and removed afterwards, except on a client abort, which leaves the settled URL, the station and the start time; other devices are untouched; whenever the proxy started, whatever the upstream did, the history maps the upstream target to the device |
| RelaySpec.PlaybackRecorded | pkg/noxon/noxon.go:405-462 | once the URL is settled, the proxy starts exactly when the URL is non-empty and parses (else 500, nothing recorded); after a start the history maps the upstream target to the device whatever the upstream did, and the tracker holds the device's URL, station and start time after an abort and nothing for it otherwise |
| RelaySpec.AbortThenRecoverEndsPlayback | pkg/noxon/noxon.go:514-523 | a client abort followed by recovery leaves the device idle and keeps other devices' playbacks |
| RelaySpec.RecoverIdempotent | pkg/noxon/noxon.go:514-523 | recovery is idempotent and ignores every other panic |
| RelaySpec.NullCatalogPlaysOnlyCached | pkg/noxon/nullStationsModel.go:11-14 | with the empty catalog, an uncached station is always 404 |
| RelaySpec.StalenessBoundary | pkg/noxon/noxon.go:383-386 | an entry half an hour old, or exactly an hour old, is reused; one 61 minutes old is reloaded |
| Noxon.AccessGranted | pkg/noxon/noxon.go:183-225 | the gate's decision: a login path with a token, the health check, or a whitelisted (or "*") MAC |
| Noxon.FirstItem | pkg/noxon/noxon.go:229-233 | the 0-based first index: `startitems` (default 1) read by Atoi, minus one |
| Noxon.LastItem | pkg/noxon/noxon.go:229-233 | the 0-based last index: `enditems` read by Atoi (default: the 1-based start plus 99, rendered and read back), minus one |
| Noxon.NoxonServer.constructor | pkg/noxon/noxon.go:125-132 | a server over the given settings, with empty relay maps |
| Noxon.NoxonServer.AuthMiddleware | pkg/noxon/noxon.go:183-225 | allows a login with a token, the health check, or a whitelisted (or "*") MAC, and nothing else; a denied request is answered 401 and only a denied one |
| Noxon.NoxonServer.CollectFromModel | pkg/noxon/noxon.go:169-181 | binds the catalog's lookup to the parent and `build` to the request, clamps the end with `min`, and returns exactly the specified page, or a panic when the specified page panics |
| Noxon.NoxonServer.HandleLoginEndpoint | pkg/noxon/noxon.go:227-270 | a token gets the obfuscation key; the root or a decoded directory is paged, with the recovered panic when collecting panics; an empty root is "No stations found"; a bad `gofile` is 400 |
| Noxon.NoxonServer.HandleSearchEndpoint | pkg/noxon/noxon.go:272-298 | a one-item list for a known id, 400 exactly for an undecodable id, and every other status is 404 |
| Noxon.NoxonServer.HandleAddPresetEndpoint | pkg/noxon/noxon.go:300-323 | stores the current station under `mac-slot`, after which recalling that slot answers with it; otherwise nothing is stored |
| Noxon.NoxonServer.HandlePlaybackEndpoint | pkg/noxon/noxon.go:366-468 | the new relay state and the response are those of one playback step |
| Noxon.NoxonServer.HandleRecovery | pkg/noxon/noxon.go:514-523 | only a client abort removes the device's playback |
| Noxon.BlacklistIsInert | pkg/noxon/noxon.go:201-208 | the blacklist never changes the gate's decision |
| Noxon.DefaultSettingsGate | pkg/noxon/noxon.go:183-225 | with default settings, only a login with a token and the health check get through |
| Noxon.WhitelistOverridesBlacklist | pkg/noxon/noxon.go:200-216 | with whitelist ["AA:BB"] and blacklist ["*"], exactly MAC AA:BB gets through elsewhere |
| Noxon.DefaultFirstItem | pkg/noxon/noxon.go:229-233 | with no `startitems`, or `startitems=1`, the first index is 0 |
| Noxon.DefaultWindow | pkg/noxon/noxon.go:229-233 | with `startitems` and `enditems` absent or at their defaults 1 and 100, the window is indices 0 to 99 |
| Noxon.DefaultPageWidth | pkg/noxon/noxon.go:229-233 | with no `enditems`, a page spans 100 indices |
| Noxon.HundredthItem | pkg/noxon/noxon.go:230-233 | `enditems=100` is index 99 |
| Noxon.EndAtMinInt | pkg/noxon/noxon.go:229-233 | `enditems` at the smallest 64-bit int gives an empty page whenever the start lies in Go's range, as Go's two cancelling wrap-arounds do |
| Noxon.DefaultSubmenuPage | pkg/noxon/noxon.go:250-266 | a directory listing with the default window holds its first min(100, count) children, in order |
| Noxon.RootListingIsComplete | pkg/noxon/noxon.go:236-248 | a root listing from the first entry holds every root entry, whatever `enditems` is |
| Noxon.RootListingFromZeroPanics | pkg/noxon/noxon.go:236-248 | `startitems=0` at a non-empty JSON root panics |
| Noxon.DigitsAreBytes | pkg/noxon/jsonStationsModel.go:58-59 | positional ids are byte strings |
| Noxon.SearchFindsIndexedEntry | pkg/noxon/noxon.go:272-298 | searching a loaded JSON catalog for the encoded id of entry k answers with that entry |
| Noxon.RecallFindsIndexedEntry | pkg/noxon/noxon.go:325-348 | a slot holding the id of entry k of a loaded JSON catalog recalls that entry built under that id, or "Preset not set" when the entry is neither a directory nor a station |
| Noxon.RecallOfUnsetSlot | pkg/noxon/noxon.go:325-348 | no slot, an empty slot, or a slot holding an id no entry carries recalls as "Preset not set" |
| Noxon.NullCatalogFindsNothing | pkg/noxon/nullStationsModel.go:11-14 | with the empty catalog, search never lists anything and a preset is never set |

## Left out

- **HTTP and XML.** Routing, the XML encoding of items, tokens and message lists, and gin's context are not modelled. A request is a path, a host, whether it has a URL, and its query parameters. A reply is a `Response` value.
- **Device fields.** Only the MAC is modelled. Firmware, hardware, vendor and language feed logging only.
- **The proxied byte stream.** The reverse proxy's transfer is not modelled. The upstream's behaviour is a parameter: it responds with a status and Location values, the transport fails, or the client aborts.
- **`url.Parse` and `String()`.** Together they are the parameter `parse`.
- **The clock.** Each request sees one `now`, in whole seconds. The Go code reads the clock several times.
- **Concurrency.** The mutexes and any interleaving of concurrent requests are not modelled. Each handler runs atomically.
- Noxon.NoxonServer.HandleAddPresetEndpoint: in Go a preset is normally saved while the device's stream is still running, because the playback handler blocks in the proxy and the tracker holds the device until it returns. Here a playback request is one atomic step, which removes the tracker entry again unless the client aborted. So the "Preset saved" branch is reached in the model only from the state an aborted stream leaves behind, which is the state during streaming (`RelaySpec.PlaybackRecorded` gives its value). A save that interleaves with a running stream is not a reachable sequence of calls here.
- RelaySpec.TrackerAfterRequest: states the tracker after a whole request. The entry a running stream holds is seen only through the aborted case, for the reason given for `HandleAddPresetEndpoint`.
- **Process-wide maps.** The relay's maps are package variables in Go. Here they are fields of the one server.
- **Status and health pages.** `handleStatusEndpoint` sorts the tracker for display and `handleHealthEndpoint` is a constant page. Neither is part of this model.
- **The JSON preset store.** `JsonPresetsModel` (pkg/noxon/jsonPresetsModel.go) is not part of this model. The preset port is modelled by `MemPresetsModel` alone. That store never fails, so the "Preset could not be saved" branch is kept in `HandleAddPresetEndpoint` but is never taken.
- **Other files.** `dns.go`, the configuration loader and `main.go` are not part of this model.
- **JSON input.** `json.Unmarshal` and reading `stations.json` are not modelled. `NewJsonModelFromJson` starts from the parsed forest. `NewJsonStationsModel` and the debugging `NewRandomJsonModel` are left out.
- **Nil entries.** The JSON forest may hold nil entries; here every entry is present. The nil checks in the search therefore have no counterpart. A nil entry would also make the Go indexer panic while loading the catalog (jsonStationsModel.go:59), which is not modelled either.
- Decimal.Atoi: does not clamp values outside Go's 64-bit int to its bounds; integers are unbounded here.
- Noxon.FirstItem: does not model the 64-bit wrap-around of `firstItem--`. With `startitems=-9223372036854775808`, Go's start wraps to the largest int and the page is empty; here the start is one below that, so at a non-empty JSON root the model answers with the recovered panic instead of `ListOfItems(count, [])`, and in a directory it lists the parent over and over.
- Noxon.LastItem: does not model the wrap-around of `firstItem+99` and `lastItem--` near the 64-bit bounds.
- Noxon.NoxonServer.CollectFromModel: does not model the 64-bit wrap-around of `end+1`. `strconv.Atoi` clamps `enditems`, so in Go `end+1` wraps only when `enditems` is the smallest int, where `lastItem--` has already wrapped the other way and the two cancel; the model gives the same empty page there (`Noxon.EndAtMinInt`).
- Base64.Byte: a Go byte is a character below 256. Decoding produces only such characters, and `Base64.DecodeEncode` is stated for byte strings only.
