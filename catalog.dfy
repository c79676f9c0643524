/**
 * The `StationsModel` interface of pkg/noxon/noxon.go, closed over the two
 * implementations the repository ships: the JSON catalog and the empty one.
 * A parent id of None stands for Go's nil pointer, the root.
 */
module Catalog {
  import opened Wrappers
  import opened Items
  import JsonStationsModel
  import NullStationsModel

  datatype StationsModel = NullStations | JsonStations(model: JsonStationsModel.JsonModel)

  function Count(m: StationsModel, parent: Option<string>): (n: int)
    ensures n >= 0
    ensures m.NullStations? ==> n == 0
  {
    match m
    case NullStations => NullStationsModel.Count(parent)
    case JsonStations(json) => JsonStationsModel.Count(json, parent)
  }

  /**
   * `Data`: an index inside `Count(parent)` and a lookup by id (a parent
   * with a negative index) never panic; the empty catalog never does.
   */
  function Data(m: StationsModel, parent: Option<string>, index: int): (r: Fetch)
    ensures 0 <= index < Count(m, parent) ==> r.Fetched?
    ensures parent.Some? && index < 0 ==> r.Fetched?
    ensures m.NullStations? ==> r == Fetched(EmptyDir, "")
  {
    match m
    case NullStations => NullStationsModel.Data(parent, index)
    case JsonStations(json) => JsonStationsModel.Data(json, parent, index)
  }
}
