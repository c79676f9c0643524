/** The empty catalog used by the default settings (pkg/noxon/nullStationsModel.go). */
module NullStationsModel {
  import opened Wrappers
  import opened Items

  /** `Data`: the empty directory and no id, for any parent and any index, never panicking. */
  function Data(parent: Option<string>, index: int): (r: Fetch)
    ensures r.Fetched? && r.id == "" && r.item == EmptyDir
  {
    Fetched(EmptyDir, "")
  }

  /** `Count`: no entries anywhere, the root included. */
  function Count(parent: Option<string>): (n: int)
    ensures n == 0
  {
    0
  }
}
