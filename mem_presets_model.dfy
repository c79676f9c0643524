/**
 * The in-memory preset store (pkg/noxon/memPresetsModel.go). The Go value
 * holds a map, which Go shares by reference, so every copy of the value
 * writes to the same map: an object with a map field.
 */
module MemPresetsModel {

  class MemPresetsModel {
    var presets: map<string, string>

    /** `NewMemPresetsModel`: an empty store; every key reads as "". */
    constructor ()
      ensures presets == map[]
      ensures forall key :: GetPreset(key) == ""
    {
      presets := map[];
    }

    /** `GetPreset`: the stored station id, or Go's zero value "" for an unknown key. */
    function GetPreset(presetKey: string): (stationId: string)
      reads this
      ensures presetKey in presets ==> stationId == presets[presetKey]
      ensures presetKey !in presets ==> stationId == ""
    {
      if presetKey in presets then presets[presetKey] else ""
    }

    /** `WritePreset`: the key now reads as the station id, the others as before; never an error. */
    method WritePreset(presetKey: string, stationId: string) returns (err: bool)
      modifies this
      ensures !err
      ensures presets == old(presets)[presetKey := stationId]
      ensures GetPreset(presetKey) == stationId
      ensures forall key :: key != presetKey ==> GetPreset(key) == old(GetPreset(key))
    {
      presets := presets[presetKey := stationId];
      err := false;
    }
  }
}
