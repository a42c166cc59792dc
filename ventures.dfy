/**
 * The ventures page (pages/ventures.tsx): a category filter over the stored
 * ventures, a grid or a "No ventures found" notice, and a detail modal.
 */
module Ventures {
  import opened Wrappers
  import opened SampleData
  import opened Lists

  /** The filter id that selects every venture. */
  const AllCategories := "all"

  /** Whether a venture is shown under `category`. */
  predicate Shown(v: Venture, category: string) {
    category == AllCategories || v.category.Name() == category
  }

  /**
   * `filteredVentures`: under "all" the stored list itself; otherwise
   * exactly the ventures whose `category` is `category`, each as often as
   * stored, in stored order, so never longer than the stored list.
   */
  function FilterVentures(stored: seq<Venture>, category: string): (r: seq<Venture>)
    ensures category == AllCategories ==> r == stored
    ensures IsSubsequence(r, stored) && |r| <= |stored|
    ensures forall v :: multiset(r)[v] == if Shown(v, category) then multiset(stored)[v] else 0
  {
    if category == AllCategories then
      assert IsSubsequence(stored, stored) by {
        FilterAll(stored, v => true);
        FilterIsSubsequence(stored, v => true);
      }
      stored
    else
      var p := (v: Venture) => v.category.Name() == category;
      FilterIsSubsequence(stored, p);
      forall v ensures multiset(Filter(stored, p))[v] == if Shown(v, category) then multiset(stored)[v] else 0 {
        FilterCount(stored, p, v);
      }
      Filter(stored, p)
  }

  /** What the listing section renders. */
  datatype Listing = Grid(cards: seq<Venture>) | NoVenturesFound

  /** `filteredVentures.length > 0 ? grid : notice`. */
  function ListingOf(filtered: seq<Venture>): (l: Listing)
    ensures l == NoVenturesFound <==> filtered == []
    ensures l.Grid? ==> l.cards == filtered
  {
    if |filtered| > 0 then Grid(filtered) else NoVenturesFound
  }

  /** The notice appears exactly when no stored venture is shown under the selected category. */
  lemma NoticeIffNoneShown(stored: seq<Venture>, category: string)
    ensures ListingOf(FilterVentures(stored, category)) == NoVenturesFound
        <==> forall i :: 0 <= i < |stored| ==> !Shown(stored[i], category)
  {
    var r := FilterVentures(stored, category);
    if r != [] {
      assert multiset(r)[r[0]] > 0;
      assert r[0] in multiset(stored);
      var i :| 0 <= i < |stored| && stored[i] == r[0];
      assert Shown(stored[i], category);
    }
    if exists i :: 0 <= i < |stored| && Shown(stored[i], category) {
      var i :| 0 <= i < |stored| && Shown(stored[i], category);
      assert multiset(stored)[stored[i]] > 0;
      assert multiset(r)[stored[i]] > 0;
    }
  }

  /** The ventures page's state; `catalog` is the static list it imports. */
  class VenturesPage {
    const catalog: seq<Venture>
    var stored: seq<Venture>
    var selectedCategory: string
    var selectedVenture: Option<Venture>
    var showModal: bool

    constructor (catalog: seq<Venture>)
      ensures this.catalog == catalog && stored == catalog
      ensures selectedCategory == AllCategories && selectedVenture == None && !showModal
    {
      this.catalog := catalog;
      stored := catalog;
      selectedCategory := AllCategories;
      selectedVenture := None;
      showModal := false;
    }

    /** The loading effect: the stored ventures, or the catalog when there are none. */
    method OnMount(store: LocalStore, codec: Codec<seq<Venture>>)
      requires store.available
      modifies this`stored
      ensures stored == ReadEntry(store.items, VenturesKey, catalog, codec)
    {
      stored := store.GetStoredData(VenturesKey, catalog, codec);
    }

    /** `handleVentureClick`: the clicked venture is selected and the modal opens, together. */
    method HandleVentureClick(venture: Venture)
      modifies this`selectedVenture, this`showModal
      ensures selectedVenture == Some(venture) && showModal
    {
      selectedVenture := Some(venture);
      showModal := true;
    }
  }
}
