/**
 * The wire format of the menu protocol (pkg/noxon/noxon.go): the three item
 * kinds a device understands, the request context a handler reads, the
 * `build` methods that turn a catalog item into a wire item, and the
 * responses a handler can produce once HTTP and XML are abstracted away.
 */
module Items {
  import opened Wrappers
  import Base64

  const MacObfuscate := "a6703ded78821be5"
  const NormalizedLoginEndpoint := "/login"
  const PlaybackEndpoint := "/playback"
  const HealthEndpoint := "/health"

  const StatusFound := 302
  const StatusBadRequest := 400
  const StatusUnauthorized := 401
  const StatusNotFound := 404
  const StatusInternalServerError := 500
  const StatusBadGateway := 502

  /** `ItemMessage`, `ItemDir` and `ItemStation`; `itemType` is the XML ItemType tag. */
  datatype Item =
    | ItemMessage(itemType: string, message: string)
    | ItemDir(itemType: string, title: string, urlDir: string)
    | ItemStation(itemType: string, stationId: string, stationName: string, stationUrl: string,
                  stationDescription: string, stationFormat: string, stationBandWidth: string,
                  stationMime: string)

  /** The zero `ItemDir{}` a catalog returns when it has nothing. */
  const EmptyDir := ItemDir("", "", "")

  /** What `StationsModel.Data` returns: an item and its catalog id, or a Go runtime panic. */
  datatype Fetch = Fetched(item: Item, id: string) | IndexPanic

  /**
   * The part of the gin request context the core reads: the URL path, the
   * Host header, whether a request URL is present at all, and the first
   * value of each query parameter.
   */
  datatype Context = Context(path: string, host: string, hasUrl: bool, query: map<string, string>)

  /** `c.Query(key)`: the parameter's value, or "" when it is absent. */
  function Query(c: Context, key: string): (v: string)
    ensures key in c.query ==> v == c.query[key]
    ensures key !in c.query ==> v == ""
  {
    if key in c.query then c.query[key] else ""
  }

  /** `c.DefaultQuery(key, d)`: the default only when the parameter is absent (not when empty). */
  function DefaultQuery(c: Context, key: string, d: string): (v: string)
    ensures key in c.query ==> v == Query(c, key)
    ensures key !in c.query ==> v == d
  {
    if key in c.query then c.query[key] else d
  }

  function GetBasePath(c: Context): string {
    if c.hasUrl then "http://" + c.host else ""
  }

  /** `toString`: the ItemType tag of each kind. */
  function TypeName(i: Item): string {
    match i
    case ItemMessage(_, _) => "Message"
    case ItemDir(_, _, _) => "Dir"
    case ItemStation(_, _, _, _, _, _, _, _) => "Station"
  }

  /** The URL up to the encoded id for a directory link. */
  function DirUrlPrefix(c: Context): string {
    GetBasePath(c) + NormalizedLoginEndpoint + "?gofile="
  }

  /** The URL up to the encoded station id for a playback link. */
  function PlaybackUrlPrefix(c: Context): string {
    GetBasePath(c) + PlaybackEndpoint + "?mac=" + Query(c, "mac") + "&stationId="
  }

  /** `buildPlaybackUrl`: this server's own playback link for a station, on behalf of the requesting MAC. */
  function BuildPlaybackUrl(c: Context, stationId: string): (u: string)
    ensures |PlaybackUrlPrefix(c)| <= |u| && u[..|PlaybackUrlPrefix(c)|] == PlaybackUrlPrefix(c)
  {
    PlaybackUrlPrefix(c) + Base64.Encode(stationId)
  }

  /**
   * The three `build` methods: set the ItemType tag and derive the
   * request-scoped links from the catalog id; everything the catalog
   * supplied is kept, except a station's upstream URL, which the playback
   * link replaces.
   */
  function Build(i: Item, c: Context, id: string): (r: Item)
    ensures r.itemType == TypeName(i) == TypeName(r)
    ensures r.ItemMessage? ==> r.message == i.message
    ensures r.ItemDir? ==> r.title == i.title
    ensures r.ItemStation? ==> r.stationName == i.stationName && r.stationDescription == i.stationDescription
                               && r.stationFormat == i.stationFormat && r.stationBandWidth == i.stationBandWidth
                               && r.stationMime == i.stationMime
  {
    match i
    case ItemMessage(_, message) => ItemMessage("Message", message)
    case ItemDir(_, title, _) => ItemDir("Dir", title, DirUrlPrefix(c) + Base64.Encode(id))
    case ItemStation(_, _, name, _, description, format, bandWidth, mime) =>
      ItemStation("Station", Base64.Encode(id), name, BuildPlaybackUrl(c, id), description, format, bandWidth, mime)
  }

  /** Building is idempotent: a built item rebuilt with the same inputs is unchanged. */
  lemma BuildIdempotent(i: Item, c: Context, id: string)
    ensures Build(Build(i, c, id), c, id) == Build(i, c, id)
  {
  }

  /** A directory's link carries its catalog id, which decodes back byte for byte. */
  lemma DirLinkDecodesToId(i: Item, c: Context, id: string)
    requires i.ItemDir? && Base64.IsByteString(id)
    ensures var u, p := Build(i, c, id).urlDir, DirUrlPrefix(c);
      |p| <= |u| && u[..|p|] == p && Base64.Decode(u[|p|..]) == Some(id)
  {
    var u, p := Build(i, c, id).urlDir, DirUrlPrefix(c);
    assert u == p + Base64.Encode(id);
    assert u[|p|..] == Base64.Encode(id);
    Base64.DecodeEncode(id);
  }

  /** A playback link names the requesting MAC and carries the station id, which decodes back. */
  lemma PlaybackLinkDecodesToId(c: Context, stationId: string)
    requires Base64.IsByteString(stationId)
    ensures var u, p := BuildPlaybackUrl(c, stationId), PlaybackUrlPrefix(c);
      |p| <= |u| && u[..|p|] == p && Base64.Decode(u[|p|..]) == Some(stationId)
  {
    var u, p := BuildPlaybackUrl(c, stationId), PlaybackUrlPrefix(c);
    assert u[|p|..] == Base64.Encode(stationId);
    Base64.DecodeEncode(stationId);
  }

  /** A built station exposes the encoded id and this server's playback link, never the upstream URL. */
  lemma StationLinkDecodesToId(i: Item, c: Context, id: string)
    requires i.ItemStation? && Base64.IsByteString(id)
    ensures var r := Build(i, c, id);
      Base64.Decode(r.stationId) == Some(id) && r.stationUrl == BuildPlaybackUrl(c, id)
  {
    Base64.DecodeEncode(id);
  }

  /** The cause of a panic that reaches gin's recovery handler. */
  datatype PanicCause = AbortHandler | IndexOutOfRange

  /**
   * What a handler answers: a bare status (`AbortWithStatus`, `WriteHeader`),
   * a `ListOfItems` envelope, the login `EncryptedToken`, an HTTP redirect,
   * an upstream response relayed by the reverse proxy, or a panic.
   */
  datatype Response =
    | Status(code: int)
    | ListOfItems(itemCount: int, items: seq<Item>)
    | EncryptedToken(token: string)
    | Redirect(code: int, location: string)
    | Proxied(code: int, target: string)
    | Panicked(cause: PanicCause)

  /** `writeMessageResponse`: a one-item list, count "not applicable", holding the message. */
  function MessageResponse(c: Context, message: string): (r: Response)
    ensures r.ListOfItems? && r.itemCount == -1 && |r.items| == 1
    ensures r.items[0].ItemMessage? && r.items[0].message == message && r.items[0].itemType == "Message"
  {
    ListOfItems(-1, [Build(ItemMessage("", message), c, "")])
  }
}
