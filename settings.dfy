/**
 * The server settings record (pkg/noxon/noxonSettings.go) and its `With*`
 * updaters. Go passes the record by value, so each updater returns a copy
 * with one field replaced and leaves its receiver as it was; a datatype
 * value behaves the same way.
 */
module Settings {
  import opened Catalog
  import opened MemPresetsModel

  datatype NoxonServerSettings = NoxonServerSettings(
    presetsModel: MemPresetsModel,
    stationsModel: StationsModel,
    whitelist: seq<string>,
    blacklist: seq<string>,
    loginEndpoints: seq<string>,
    searchEndpoints: seq<string>,
    getPresetsEndpoints: seq<string>,
    addPresetsEndpoints: seq<string>)

  /** The default record around a given preset store: empty lists and the empty catalog. */
  function DefaultSettings(presets: MemPresetsModel): (s: NoxonServerSettings)
    ensures s.presetsModel == presets && s.stationsModel == NullStations
    ensures s.whitelist == [] && s.blacklist == [] && s.loginEndpoints == [] && s.searchEndpoints == []
            && s.getPresetsEndpoints == [] && s.addPresetsEndpoints == []
  {
    NoxonServerSettings(presets, NullStations, [], [], [], [], [], [])
  }

  /** `NewDefaultNoxonServerSettings`: the default record around a fresh, empty preset store. */
  method NewDefaultNoxonServerSettings() returns (s: NoxonServerSettings)
    ensures fresh(s.presetsModel) && s.presetsModel.presets == map[]
    ensures s == DefaultSettings(s.presetsModel)
  {
    var presets := new MemPresetsModel();
    s := DefaultSettings(presets);
  }

  function WithPresetsModel(s: NoxonServerSettings, model: MemPresetsModel): (r: NoxonServerSettings)
    ensures r.presetsModel == model && r.(presetsModel := s.presetsModel) == s
  {
    s.(presetsModel := model)
  }

  function WithStationsModel(s: NoxonServerSettings, model: StationsModel): (r: NoxonServerSettings)
    ensures r.stationsModel == model && r.(stationsModel := s.stationsModel) == s
  {
    s.(stationsModel := model)
  }

  function WithBlacklist(s: NoxonServerSettings, list: seq<string>): (r: NoxonServerSettings)
    ensures r.blacklist == list && r.(blacklist := s.blacklist) == s
  {
    s.(blacklist := list)
  }

  function WithWhitelist(s: NoxonServerSettings, list: seq<string>): (r: NoxonServerSettings)
    ensures r.whitelist == list && r.(whitelist := s.whitelist) == s
  {
    s.(whitelist := list)
  }

  function WithLoginEndpoints(s: NoxonServerSettings, list: seq<string>): (r: NoxonServerSettings)
    ensures r.loginEndpoints == list && r.(loginEndpoints := s.loginEndpoints) == s
  {
    s.(loginEndpoints := list)
  }

  function WithSearchEndpoints(s: NoxonServerSettings, list: seq<string>): (r: NoxonServerSettings)
    ensures r.searchEndpoints == list && r.(searchEndpoints := s.searchEndpoints) == s
  {
    s.(searchEndpoints := list)
  }

  function WithGetPresetsEndpoints(s: NoxonServerSettings, list: seq<string>): (r: NoxonServerSettings)
    ensures r.getPresetsEndpoints == list && r.(getPresetsEndpoints := s.getPresetsEndpoints) == s
  {
    s.(getPresetsEndpoints := list)
  }

  function WithAddPresetsEndpoints(s: NoxonServerSettings, list: seq<string>): (r: NoxonServerSettings)
    ensures r.addPresetsEndpoints == list && r.(addPresetsEndpoints := s.addPresetsEndpoints) == s
  {
    s.(addPresetsEndpoints := list)
  }

  /** Applying the same updater twice keeps only the second value. */
  lemma LastWithWins(s: NoxonServerSettings, a: seq<string>, b: seq<string>)
    ensures WithBlacklist(WithBlacklist(s, a), b) == WithBlacklist(s, b)
    ensures WithWhitelist(WithWhitelist(s, a), b) == WithWhitelist(s, b)
    ensures WithLoginEndpoints(WithLoginEndpoints(s, a), b) == WithLoginEndpoints(s, b)
    ensures WithSearchEndpoints(WithSearchEndpoints(s, a), b) == WithSearchEndpoints(s, b)
    ensures WithGetPresetsEndpoints(WithGetPresetsEndpoints(s, a), b) == WithGetPresetsEndpoints(s, b)
    ensures WithAddPresetsEndpoints(WithAddPresetsEndpoints(s, a), b) == WithAddPresetsEndpoints(s, b)
  {
  }

  lemma LastModelWins(s: NoxonServerSettings, p: MemPresetsModel, q: MemPresetsModel, m: StationsModel, n: StationsModel)
    ensures WithPresetsModel(WithPresetsModel(s, p), q) == WithPresetsModel(s, q)
    ensures WithStationsModel(WithStationsModel(s, m), n) == WithStationsModel(s, n)
  {
  }
}
