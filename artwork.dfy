/** The artwork record the app receives from its search backend (`Item` in App.tsx). */
module Artwork {
  import opened Wrappers

  /** The catalog an item came from; kept for display, never used for identity. */
  datatype Source = Met | Aic

  /**
   * One artwork. `id` is namespaced by catalog ("met:…", "aic:…"). `title` and
   * `artist` are declared as strings but the code guards against them being
   * missing, so they are optional here.
   */
  datatype Item = Item(
    id: string,
    title: Option<string>,
    artist: Option<string>,
    dateText: Option<string>,
    thumb: string,
    source: Source)

  /** The ids of a list of items, `new Set(items.map(x => x.id))`. */
  function Ids(items: seq<Item>): (ids: set<string>)
    ensures forall i :: 0 <= i < |items| ==> items[i].id in ids
    ensures forall id :: id in ids ==> exists i :: 0 <= i < |items| && items[i].id == id
  {
    set i | 0 <= i < |items| :: items[i].id
  }
}
