/**
 * The opportunities page (pages/opportunities.tsx): a category filter over
 * the stored opportunities, a detail modal, and a list of saved ids toggled
 * per opportunity and mirrored into the `saved_opportunities` entry.
 */
module Opportunities {
  import opened Wrappers
  import opened SampleData
  import opened Lists

  const SavedOpportunitiesKey := "saved_opportunities"

  /** The filter id that selects every opportunity. */
  const AllCategories := "all"

  /** Whether an opportunity is shown under `category`. */
  predicate Shown(o: Opportunity, category: string) {
    category == AllCategories || o.kind.Name() == category
  }

  /**
   * `filteredOpportunities`: under "all" the stored list itself; otherwise
   * exactly the opportunities whose `type` is `category`, each as often as
   * stored, in stored order.
   */
  function FilterOpportunities(stored: seq<Opportunity>, category: string): (r: seq<Opportunity>)
    ensures category == AllCategories ==> r == stored
    ensures IsSubsequence(r, stored)
    ensures forall o :: multiset(r)[o] == if Shown(o, category) then multiset(stored)[o] else 0
  {
    if category == AllCategories then
      assert IsSubsequence(stored, stored) by {
        FilterAll(stored, o => true);
        FilterIsSubsequence(stored, o => true);
      }
      stored
    else
      var p := (o: Opportunity) => o.kind.Name() == category;
      FilterIsSubsequence(stored, p);
      forall o ensures multiset(Filter(stored, p))[o] == if Shown(o, category) then multiset(stored)[o] else 0 {
        FilterCount(stored, p, o);
      }
      Filter(stored, p)
  }

  /** The opportunities page's state; `catalog` is the static list it imports. */
  class OpportunitiesPage {
    const catalog: seq<Opportunity>
    var stored: seq<Opportunity>
    var selectedCategory: string
    var selectedOpportunity: Option<Opportunity>
    var showModal: bool
    var saved: seq<string>

    constructor (catalog: seq<Opportunity>)
      ensures this.catalog == catalog && stored == catalog
      ensures selectedCategory == AllCategories && selectedOpportunity == None && !showModal && saved == []
    {
      this.catalog := catalog;
      stored := catalog;
      selectedCategory := AllCategories;
      selectedOpportunity := None;
      showModal := false;
      saved := [];
    }

    /**
     * The loading effect: the stored opportunities (or the catalog), then
     * the saved ids if an entry exists. The saved entry is parsed without a
     * guard: when it does not parse the effect throws, `ok` is false and the
     * saved list stays as it was.
     */
    method OnMount(store: LocalStore, codec: Codec<seq<Opportunity>>, idsCodec: Codec<seq<string>>) returns (ok: bool)
      requires store.available
      modifies this`stored, this`saved
      ensures stored == ReadEntry(store.items, OpportunitiesKey, catalog, codec)
      ensures !Present(store.items, SavedOpportunitiesKey) ==> ok && saved == old(saved)
      ensures Present(store.items, SavedOpportunitiesKey) ==>
        (ok <==> idsCodec.decode(store.items[SavedOpportunitiesKey]).Some?) &&
        saved == idsCodec.decode(store.items[SavedOpportunitiesKey]).GetOr(old(saved))
    {
      stored := store.GetStoredData(OpportunitiesKey, catalog, codec);
      ok := true;
      if store.Has(SavedOpportunitiesKey) {
        var parsed := idsCodec.decode(store.items[SavedOpportunitiesKey]);
        if parsed.Some? {
          saved := parsed.value;
        } else {
          ok := false;
        }
      }
    }

    /** `handleOpportunityClick`: the clicked opportunity is selected and the modal opens. */
    method HandleOpportunityClick(opportunity: Opportunity)
      modifies this`selectedOpportunity, this`showModal
      ensures selectedOpportunity == Some(opportunity) && showModal
    {
      selectedOpportunity := Some(opportunity);
      showModal := true;
    }

    /**
     * `handleSaveOpportunity`: toggles `id` in the saved list and writes the
     * new list to `saved_opportunities`. The write is not guarded: when the
     * browser refuses it, `ok` is false, the list has still changed and the
     * entry has not.
     */
    method HandleSaveOpportunity(id: string, store: LocalStore, idsCodec: Codec<seq<string>>) returns (ok: bool)
      requires store.available
      modifies this`saved, store
      ensures saved == Toggle(old(saved), id)
      ensures NoDuplicates(old(saved)) ==> NoDuplicates(saved)
      ensures ok == (SavedOpportunitiesKey !in store.refused)
      ensures store.items == if ok then old(store.items)[SavedOpportunitiesKey := idsCodec.encode(saved)] else old(store.items)
      ensures ok && Lawful(idsCodec) ==> ReadEntry(store.items, SavedOpportunitiesKey, [], idsCodec) == saved
    {
      var newSaved := if id in saved then Without(saved, id) else saved + [id];
      if NoDuplicates(saved) {
        ToggleNoDuplicates(saved, id);
      }
      saved := newSaved;
      ok := store.SetItem(SavedOpportunitiesKey, idsCodec.encode(newSaved));
    }
  }
}
