/**
 * The admin dashboard (pages/admin/dashboard.tsx): shown only while the
 * session is authenticated; loads the six collections, logs out, resets the
 * store to the catalogs, and builds the export object and the stat counters.
 */
module AdminDashboard {
  import opened Wrappers
  import opened SampleData
  import opened AdminLogin

  /** The object `handleExportData` serialises for download. */
  datatype ExportData = ExportData(
    projects: seq<Project>, research: seq<ResearchItem>, blogPosts: seq<BlogPost>,
    events: seq<Event>, opportunities: seq<Opportunity>, ventures: seq<Venture>,
    exportDate: string)
  {
    /** The six collections the export carries. */
    function Collections(): Datasets {
      Datasets(projects, research, blogPosts, events, opportunities, ventures)
    }
  }

  /** The export object: the current collections, unchanged, stamped with `exportDate`. */
  function ExportObject(data: Datasets, exportDate: string): (e: ExportData)
    ensures e.Collections() == data
    ensures e.exportDate == exportDate
  {
    ExportData(data.projects, data.research, data.blogPosts, data.events,
               data.opportunities, data.ventures, exportDate)
  }

  /** The six stat cards, in the order the dashboard shows them. */
  datatype StatCounts = StatCounts(
    projects: nat, blogPosts: nat, events: nat, opportunities: nat, ventures: nat, research: nat)

  /** Each card shows the length of its collection. */
  function Stats(data: Datasets): (s: StatCounts)
    ensures s.projects == |data.projects| && s.blogPosts == |data.blogPosts|
    ensures s.events == |data.events| && s.opportunities == |data.opportunities|
    ensures s.ventures == |data.ventures| && s.research == |data.research|
  {
    StatCounts(|data.projects|, |data.blogPosts|, |data.events|,
               |data.opportunities|, |data.ventures|, |data.research|)
  }

  /** After a reset and reload the counters show the catalog sizes. */
  lemma StatsAfterReset(items: map<string, string>, catalog: Datasets, codecs: DatasetCodecs)
    requires codecs.AllLawful()
    ensures Stats(LoadDatasets(items + DatasetEntries(catalog, codecs), catalog, codecs)) == Stats(catalog)
  {
    LoadAfterReset(items, catalog, codecs);
  }

  /**
   * One more unconditional write of the reset, when the browser refuses the
   * keys in `refused`: a refused write changes nothing, any other extends
   * the partial overwrite by its key.
   */
  lemma OverwriteStep(items: map<string, string>, e: map<string, string>, ks: set<string>, refused: set<string>, key: string)
    requires key in e
    ensures key in refused ==> items + Restrict(e, ks - refused) == items + Restrict(e, (ks + {key}) - refused)
    ensures key !in refused ==> (items + Restrict(e, ks - refused))[key := e[key]] == items + Restrict(e, (ks + {key}) - refused)
  {
    if key in refused {
      assert (ks + {key}) - refused == ks - refused;
    } else {
      assert (ks + {key}) - refused == (ks - refused) + {key};
    }
  }

  /**
   * One `setStoredData(key, data)` of the reset, where `e` holds the text of
   * every reset key and the keys in `done` have already been written.
   */
  method ResetKey<V>(store: LocalStore, key: string, data: V, codec: Codec<V>, ghost e: map<string, string>,
                     ghost m0: map<string, string>, ghost done: set<string>)
    requires store.available && key in e && e[key] == codec.encode(data)
    requires store.items == m0 + Restrict(e, done - store.refused)
    modifies store
    ensures store.items == m0 + Restrict(e, (done + {key}) - store.refused)
  {
    store.SetStoredData(key, data, codec);
    OverwriteStep(m0, e, done, store.refused, key);
  }

  /** The dashboard page's state; `catalog` holds the static collections it imports. */
  class DashboardPage {
    const catalog: Datasets
    var isAuthenticated: bool
    var isLoading: bool
    var data: Datasets
    /** Where `router.push` last sent the browser, if anywhere. */
    var redirect: Option<Route>

    constructor (catalog: Datasets)
      ensures this.catalog == catalog
      ensures !isAuthenticated && isLoading && data == catalog && redirect == None
    {
      this.catalog := catalog;
      isAuthenticated := false;
      isLoading := true;
      data := catalog;
      redirect := None;
    }

    /** The six `getStoredData` calls, each falling back to its catalog. */
    method Load(store: LocalStore, codecs: DatasetCodecs) returns (loaded: Datasets)
      requires store.available
      ensures loaded == LoadDatasets(store.items, catalog, codecs)
    {
      loaded := Datasets(
        store.GetStoredData(ProjectsKey, catalog.projects, codecs.projects),
        store.GetStoredData(ResearchKey, catalog.research, codecs.research),
        store.GetStoredData(BlogPostsKey, catalog.blogPosts, codecs.blogPosts),
        store.GetStoredData(EventsKey, catalog.events, codecs.events),
        store.GetStoredData(OpportunitiesKey, catalog.opportunities, codecs.opportunities),
        store.GetStoredData(VenturesKey, catalog.ventures, codecs.ventures));
    }

    /**
     * The mount effect. Without a session: go to the login page, keep
     * loading, load nothing. With one: seed the store, then load every
     * collection, which is its stored value or, if none, its catalog.
     */
    method OnMount(store: LocalStore, codecs: DatasetCodecs)
      requires store.available
      modifies this`isAuthenticated, this`isLoading, this`data, this`redirect, store
      ensures SessionOf(old(store.items)) == Anonymous ==>
        redirect == Some(LoginRoute) && isLoading == old(isLoading) && data == old(data) &&
        isAuthenticated == old(isAuthenticated) && store.items == old(store.items)
      ensures SessionOf(old(store.items)) == Authenticated ==>
        isAuthenticated && !isLoading && redirect == old(redirect) &&
        store.items == Seeded(old(store.items), Restrict(DatasetEntries(catalog, codecs), DatasetKeys - store.refused)) &&
        data == LoadDatasets(store.items, catalog, codecs)
      ensures SessionOf(old(store.items)) == Authenticated && codecs.AllLawful() ==>
        data == LoadDatasets(old(store.items), catalog, codecs)
      ensures SessionOf(store.items) == SessionOf(old(store.items))
    {
      if !store.Has(AdminAuthKey) {
        redirect := Some(LoginRoute);
        return;
      }
      isAuthenticated := true;
      ghost var before := store.items;
      store.InitializeData(catalog, codecs);
      data := Load(store, codecs);
      isLoading := false;
      DatasetWritesKeepSession(before, catalog, codecs, DatasetKeys - store.refused);
      if codecs.AllLawful() {
        LoadAfterSeed(before, catalog, codecs, DatasetKeys - store.refused);
      }
    }

    /** `handleLogout`: removes the sentinel, and only it, and goes to the login page. */
    method HandleLogout(store: LocalStore)
      requires store.available
      modifies this`redirect, store
      ensures store.items == old(store.items) - {AdminAuthKey}
      ensures SessionOf(store.items) == Anonymous
      ensures redirect == Some(LoginRoute)
    {
      store.RemoveItem(AdminAuthKey);
      redirect := Some(LoginRoute);
    }

    /**
     * `handleResetData`, with `confirmed` the answer to the confirmation
     * dialog: writes every catalog over its key and reloads. Each write is
     * caught on its own, so exactly the keys the browser accepts are reset.
     * A declined reset changes nothing.
     */
    method HandleResetData(store: LocalStore, codecs: DatasetCodecs, confirmed: bool)
      requires store.available
      modifies this`data, store
      ensures !confirmed ==> store.items == old(store.items) && data == old(data)
      ensures confirmed ==>
        store.items == old(store.items) + Restrict(DatasetEntries(catalog, codecs), DatasetKeys - store.refused) &&
        data == LoadDatasets(store.items, catalog, codecs)
      ensures confirmed && DatasetKeys !! store.refused && codecs.AllLawful() ==> data == catalog
      ensures SessionOf(store.items) == SessionOf(old(store.items))
    {
      if !confirmed {
        return;
      }
      var e := DatasetEntries(catalog, codecs);
      ghost var m0 := store.items;
      ghost var refused := store.refused;
      ghost var done: set<string> := {};
      assert Restrict(e, done - refused) == map[];
      assert m0 + map[] == m0;
      ResetKey(store, ProjectsKey, catalog.projects, codecs.projects, e, m0, done);
      done := done + {ProjectsKey};
      ResetKey(store, ResearchKey, catalog.research, codecs.research, e, m0, done);
      done := done + {ResearchKey};
      ResetKey(store, BlogPostsKey, catalog.blogPosts, codecs.blogPosts, e, m0, done);
      done := done + {BlogPostsKey};
      ResetKey(store, EventsKey, catalog.events, codecs.events, e, m0, done);
      done := done + {EventsKey};
      ResetKey(store, OpportunitiesKey, catalog.opportunities, codecs.opportunities, e, m0, done);
      done := done + {OpportunitiesKey};
      ResetKey(store, VenturesKey, catalog.ventures, codecs.ventures, e, m0, done);
      done := done + {VenturesKey};
      assert store.items == m0 + Restrict(e, done - refused);
      assert done == DatasetKeys;
      data := Load(store, codecs);
      DatasetWritesKeepSession(m0, catalog, codecs, DatasetKeys - refused);
      if DatasetKeys !! refused && codecs.AllLawful() {
        RestrictAll(e, DatasetKeys - refused);
        LoadAfterReset(m0, catalog, codecs);
      }
    }
  }
}
