/**
 * The site's data layer: the typed content records, the browser's
 * string-keyed local storage, and the three helpers every page goes through
 * (`getStoredData`, `setStoredData`, `initializeData`).
 *
 * localStorage holds text. JSON serialisation is a `Codec`: an encoder that
 * always produces non-empty text and a decoder that may fail and that
 * inverts the encoder (`Lawful`). The static catalogs are a `Datasets` value
 * handed in by the caller; their contents play no part in the logic.
 */
module SampleData {
  import opened Wrappers

  // ---------------------------------------------------------------------------
  // Content records

  datatype ProjectCategory = Health | Tech | Social | Fintech

  datatype Project = Project(
    id: string, title: string, tagline: string, description: string,
    features: seq<string>, motivations: string, ghanaContext: string,
    impact: string, promotionStrategy: string, category: ProjectCategory)

  datatype ResearchType = Paper | Study | Whitepaper

  /** A research item; `abstractText` is the record's `abstract` field. */
  datatype ResearchItem = ResearchItem(
    id: string, title: string, author: string, abstractText: string,
    year: int, kind: ResearchType)

  datatype BlogPost = BlogPost(
    id: string, title: string, excerpt: string, content: string, author: string,
    date: string, image: string, tags: seq<string>)

  datatype EventType = Conference | Workshop | Meeting | SocialEvent

  datatype Event = Event(
    id: string, title: string, description: string, date: string, time: string,
    location: string, kind: EventType)

  /** The `type` field of an opportunity. */
  datatype OpportunityType = Internship | Grant | Program | Scholarship {
    /** The literal stored in the record and used as a filter id. */
    function Name(): string {
      match this
      case Internship => "internship"
      case Grant => "grant"
      case Program => "program"
      case Scholarship => "scholarship"
    }
  }

  datatype OpportunityCategory = Health | Tech | Social | Academic

  /** An opportunity; `kind` is the record's `type` field. */
  datatype Opportunity = Opportunity(
    id: string, title: string, description: string, organization: string,
    kind: OpportunityType, deadline: string, requirements: seq<string>,
    benefits: seq<string>, category: OpportunityCategory)

  datatype VentureCategory = Tech | Health | Social | Education {
    /** The literal stored in the record and used as a filter id. */
    function Name(): string {
      match this
      case Tech => "tech"
      case Health => "health"
      case Social => "social"
      case Education => "education"
    }
  }

  datatype VentureStatus = Active | Pilot | Development

  datatype Venture = Venture(
    id: string, title: string, pitch: string, founder: string, contact: string,
    image: string, category: VentureCategory, status: VentureStatus,
    supportWays: seq<string>)

  /** The six collections the site stores: one per dataset key. */
  datatype Datasets = Datasets(
    projects: seq<Project>, research: seq<ResearchItem>, blogPosts: seq<BlogPost>,
    events: seq<Event>, opportunities: seq<Opportunity>, ventures: seq<Venture>)

  // ---------------------------------------------------------------------------
  // Serialisation

  /** `JSON.stringify` and `JSON.parse` at one value type. */
  datatype Codec<!V> = Codec(encode: V -> string, decode: string -> Option<V>)

  /** What the JSON pair guarantees: text is never empty and parsing it gives the value back. */
  ghost predicate Lawful<V(!new)>(c: Codec<V>) {
    forall v :: c.encode(v) != "" && c.decode(c.encode(v)) == Some(v)
  }

  /** One codec per dataset. */
  datatype DatasetCodecs = DatasetCodecs(
    projects: Codec<seq<Project>>, research: Codec<seq<ResearchItem>>,
    blogPosts: Codec<seq<BlogPost>>, events: Codec<seq<Event>>,
    opportunities: Codec<seq<Opportunity>>, ventures: Codec<seq<Venture>>)
  {
    ghost predicate AllLawful() {
      Lawful(projects) && Lawful(research) && Lawful(blogPosts) &&
      Lawful(events) && Lawful(opportunities) && Lawful(ventures)
    }
  }

  // ---------------------------------------------------------------------------
  // Keys

  const ProjectsKey := "gyampo_projects"
  const ResearchKey := "gyampo_research"
  const BlogPostsKey := "gyampo_blog_posts"
  const EventsKey := "gyampo_events"
  const OpportunitiesKey := "gyampo_opportunities"
  const VenturesKey := "gyampo_ventures"
  const AdminAuthKey := "gyampo_admin_auth"

  /** The values of `storageKeys`, in declaration order. */
  const StorageKeys: seq<string> :=
    [ProjectsKey, ResearchKey, BlogPostsKey, EventsKey, OpportunitiesKey, VenturesKey, AdminAuthKey]

  /** The six keys `initializeData` seeds. */
  const DatasetKeys: set<string> :=
    {ProjectsKey, ResearchKey, BlogPostsKey, EventsKey, OpportunitiesKey, VenturesKey}

  /** The seven storage keys are pairwise distinct, and the auth key is not a dataset key. */
  lemma StorageKeysDistinct()
    ensures forall i, j :: 0 <= i < j < |StorageKeys| ==> StorageKeys[i] != StorageKeys[j]
    ensures AdminAuthKey !in DatasetKeys
  {
  }

  // ---------------------------------------------------------------------------
  // The store as a value

  /** `if (localStorage.getItem(key))`: an entry counts only when it exists and is not the empty string. */
  predicate Present(items: map<string, string>, key: string) {
    key in items && items[key] != ""
  }

  /** `getStoredData(key, default)` once a browser store exists. */
  function ReadEntry<V>(items: map<string, string>, key: string, default: V, codec: Codec<V>): (r: V)
    ensures !Present(items, key) ==> r == default
    ensures Present(items, key) && codec.decode(items[key]).None? ==> r == default
    ensures Present(items, key) && codec.decode(items[key]).Some? ==> r == codec.decode(items[key]).value
  {
    if Present(items, key) then codec.decode(items[key]).GetOr(default) else default
  }

  /** The text `initializeData` and a reset write: each catalog serialised under its key. */
  function DatasetEntries(catalog: Datasets, codecs: DatasetCodecs): (e: map<string, string>)
    ensures e.Keys == DatasetKeys
    ensures e[ProjectsKey] == codecs.projects.encode(catalog.projects)
    ensures e[ResearchKey] == codecs.research.encode(catalog.research)
    ensures e[BlogPostsKey] == codecs.blogPosts.encode(catalog.blogPosts)
    ensures e[EventsKey] == codecs.events.encode(catalog.events)
    ensures e[OpportunitiesKey] == codecs.opportunities.encode(catalog.opportunities)
    ensures e[VenturesKey] == codecs.ventures.encode(catalog.ventures)
  {
    map[ProjectsKey := codecs.projects.encode(catalog.projects),
        ResearchKey := codecs.research.encode(catalog.research),
        BlogPostsKey := codecs.blogPosts.encode(catalog.blogPosts),
        EventsKey := codecs.events.encode(catalog.events),
        OpportunitiesKey := codecs.opportunities.encode(catalog.opportunities),
        VenturesKey := codecs.ventures.encode(catalog.ventures)]
  }

  /** The store after seeding: an entry from `entries` is added only where its key has no entry. */
  function Seeded(items: map<string, string>, entries: map<string, string>): (r: map<string, string>)
    ensures r.Keys == items.Keys + entries.Keys
    ensures forall k :: Present(items, k) ==> r[k] == items[k]
    ensures forall k :: k in entries && !Present(items, k) ==> r[k] == entries[k]
    ensures forall k :: k in items && k !in entries ==> r[k] == items[k]
  {
    map k | k in items.Keys + entries.Keys :: if k in entries && !Present(items, k) then entries[k] else items[k]
  }

  /** One guarded write of `initializeData`: `text` is stored under `key` only if the key has no entry. */
  function SeedKey(items: map<string, string>, key: string, text: string): (r: map<string, string>)
    ensures Present(items, key) ==> r == items
    ensures !Present(items, key) ==> r == items[key := text]
  {
    if Present(items, key) then items else items[key := text]
  }

  /** The entries of `e` whose keys are in `ks`. */
  function Restrict(e: map<string, string>, ks: set<string>): (r: map<string, string>)
    ensures r.Keys == e.Keys * ks
    ensures forall k :: k in r ==> r[k] == e[k]
  {
    map k | k in e.Keys * ks :: e[k]
  }

  /** Restricting to a superset of the keys keeps every entry. */
  lemma RestrictAll(e: map<string, string>, ks: set<string>)
    requires e.Keys <= ks
    ensures Restrict(e, ks) == e
  {
  }

  /** Seeding nothing changes nothing. */
  lemma SeededNothing(items: map<string, string>)
    ensures Seeded(items, map[]) == items
  {
    assert Seeded(items, map[]).Keys == items.Keys;
  }

  /** One more guarded write extends a partial seeding by that key. */
  lemma SeedKeyStep(items: map<string, string>, e: map<string, string>, ks: set<string>, key: string)
    requires key in e
    ensures SeedKey(Seeded(items, Restrict(e, ks)), key, e[key]) == Seeded(items, Restrict(e, ks + {key}))
  {
    var before := Seeded(items, Restrict(e, ks));
    var lhs := SeedKey(before, key, e[key]);
    var rhs := Seeded(items, Restrict(e, ks + {key}));
    forall k | k in lhs.Keys + rhs.Keys
      ensures k in lhs && k in rhs && lhs[k] == rhs[k]
    {
    }
  }

  /**
   * One guarded write when the browser refuses the keys in `refused`: a
   * refused write changes nothing, any other extends the partial seeding
   * by its key.
   */
  lemma SeedStep(items: map<string, string>, e: map<string, string>, ks: set<string>, refused: set<string>, key: string)
    requires key in e
    ensures key in refused ==>
      Seeded(items, Restrict(e, ks - refused)) == Seeded(items, Restrict(e, (ks + {key}) - refused))
    ensures key !in refused ==>
      SeedKey(Seeded(items, Restrict(e, ks - refused)), key, e[key]) == Seeded(items, Restrict(e, (ks + {key}) - refused))
  {
    if key in refused {
      assert (ks + {key}) - refused == ks - refused;
    } else {
      SeedKeyStep(items, e, ks - refused, key);
      assert (ks - refused) + {key} == (ks + {key}) - refused;
    }
  }

  /** All six collections as the dashboard reads them, each falling back to its catalog. */
  function LoadDatasets(items: map<string, string>, defaults: Datasets, codecs: DatasetCodecs): Datasets {
    Datasets(
      ReadEntry(items, ProjectsKey, defaults.projects, codecs.projects),
      ReadEntry(items, ResearchKey, defaults.research, codecs.research),
      ReadEntry(items, BlogPostsKey, defaults.blogPosts, codecs.blogPosts),
      ReadEntry(items, EventsKey, defaults.events, codecs.events),
      ReadEntry(items, OpportunitiesKey, defaults.opportunities, codecs.opportunities),
      ReadEntry(items, VenturesKey, defaults.ventures, codecs.ventures))
  }

  // ---------------------------------------------------------------------------
  // Properties of reads and writes

  /** A write followed by a read of the same key yields the written value, whatever the default. */
  lemma ReadAfterWrite<V(!new)>(items: map<string, string>, key: string, v: V, default: V, codec: Codec<V>)
    requires Lawful(codec)
    ensures ReadEntry(items[key := codec.encode(v)], key, default, codec) == v
  {
  }

  /** A write to one key does not change what another key reads. */
  lemma ReadOtherKey<V>(items: map<string, string>, key: string, text: string, other: string, default: V, codec: Codec<V>)
    requires other != key
    ensures ReadEntry(items[key := text], other, default, codec) == ReadEntry(items, other, default, codec)
  {
  }

  /** Seeding twice leaves the store as seeding once. */
  lemma SeededIdempotent(items: map<string, string>, entries: map<string, string>)
    ensures Seeded(Seeded(items, entries), entries) == Seeded(items, entries)
  {
  }

  /** After seeding, every seeded key has an entry. */
  lemma SeededPresent(items: map<string, string>, entries: map<string, string>, k: string)
    requires forall k :: k in entries ==> entries[k] != ""
    requires k in entries
    ensures Present(Seeded(items, entries), k)
  {
  }

  /** Seeding the dataset catalogs never touches the admin session entry. */
  lemma SeedingLeavesAuth(items: map<string, string>, catalog: Datasets, codecs: DatasetCodecs, ks: set<string>)
    ensures var r := Seeded(items, Restrict(DatasetEntries(catalog, codecs), ks));
      (AdminAuthKey in r <==> AdminAuthKey in items) &&
      (AdminAuthKey in items ==> r[AdminAuthKey] == items[AdminAuthKey])
  {
    StorageKeysDistinct();
  }

  /**
   * Seeding, completely or for some of the keys, does not change what is
   * loaded: a missing collection reads as its catalog either way.
   */
  lemma LoadAfterSeed(items: map<string, string>, catalog: Datasets, codecs: DatasetCodecs, ks: set<string>)
    requires codecs.AllLawful()
    ensures LoadDatasets(Seeded(items, Restrict(DatasetEntries(catalog, codecs), ks)), catalog, codecs)
         == LoadDatasets(items, catalog, codecs)
  {
    var e := Restrict(DatasetEntries(catalog, codecs), ks);
    var r := Seeded(items, e);
    assert ReadEntry(r, ProjectsKey, catalog.projects, codecs.projects)
        == ReadEntry(items, ProjectsKey, catalog.projects, codecs.projects);
    assert ReadEntry(r, ResearchKey, catalog.research, codecs.research)
        == ReadEntry(items, ResearchKey, catalog.research, codecs.research);
    assert ReadEntry(r, BlogPostsKey, catalog.blogPosts, codecs.blogPosts)
        == ReadEntry(items, BlogPostsKey, catalog.blogPosts, codecs.blogPosts);
    assert ReadEntry(r, EventsKey, catalog.events, codecs.events)
        == ReadEntry(items, EventsKey, catalog.events, codecs.events);
    assert ReadEntry(r, OpportunitiesKey, catalog.opportunities, codecs.opportunities)
        == ReadEntry(items, OpportunitiesKey, catalog.opportunities, codecs.opportunities);
    assert ReadEntry(r, VenturesKey, catalog.ventures, codecs.ventures)
        == ReadEntry(items, VenturesKey, catalog.ventures, codecs.ventures);
  }

  /** After the catalogs are written over the store, loading gives back exactly the catalogs. */
  lemma LoadAfterReset(items: map<string, string>, catalog: Datasets, codecs: DatasetCodecs)
    requires codecs.AllLawful()
    ensures LoadDatasets(items + DatasetEntries(catalog, codecs), catalog, codecs) == catalog
  {
  }

  /**
   * After the catalogs are written for the keys in `ks` only, each
   * collection under one of those keys loads as its catalog and every other
   * collection loads as before.
   */
  lemma LoadAfterPartialReset(items: map<string, string>, catalog: Datasets, codecs: DatasetCodecs, ks: set<string>)
    requires codecs.AllLawful()
    ensures var d := LoadDatasets(items + Restrict(DatasetEntries(catalog, codecs), ks), catalog, codecs);
      var d0 := LoadDatasets(items, catalog, codecs);
      d.projects == (if ProjectsKey in ks then catalog.projects else d0.projects) &&
      d.research == (if ResearchKey in ks then catalog.research else d0.research) &&
      d.blogPosts == (if BlogPostsKey in ks then catalog.blogPosts else d0.blogPosts) &&
      d.events == (if EventsKey in ks then catalog.events else d0.events) &&
      d.opportunities == (if OpportunitiesKey in ks then catalog.opportunities else d0.opportunities) &&
      d.ventures == (if VenturesKey in ks then catalog.ventures else d0.ventures)
  {
  }

  // ---------------------------------------------------------------------------
  // The browser store

  /**
   * `window.localStorage`. `available` is false while rendering on the
   * server (`typeof window === 'undefined'`). `refused` holds the keys whose
   * writes the browser refuses (quota exceeded): `setItem`
   * throws for them, each call on its own, so a run of writes can stop
   * part-way.
   */
  class LocalStore {
    const available: bool
    const refused: set<string>
    var items: map<string, string>

    constructor (available: bool, refused: set<string>, items: map<string, string>)
      ensures this.available == available && this.refused == refused && this.items == items
    {
      this.available := available;
      this.refused := refused;
      this.items := items;
    }

    /** The entry for `key` is present and non-empty. */
    predicate Has(key: string)
      reads this
    {
      Present(items, key)
    }

    /** `getStoredData(key, default)`: the stored value, or `default` when absent, unparsable or off-browser. */
    function GetStoredData<V>(key: string, default: V, codec: Codec<V>): (r: V)
      reads this
      ensures !available ==> r == default
      ensures available ==> r == ReadEntry(items, key, default, codec)
    {
      if available then ReadEntry(items, key, default, codec) else default
    }

    /** `localStorage.setItem(key, text)`: `ok` is false when the browser throws, and then nothing is written. */
    method SetItem(key: string, text: string) returns (ok: bool)
      requires available
      modifies this
      ensures ok == (key !in refused)
      ensures items == if ok then old(items)[key := text] else old(items)
    {
      ok := key !in refused;
      if ok {
        items := items[key := text];
      }
    }

    /** `localStorage.removeItem(key)`. */
    method RemoveItem(key: string)
      requires available
      modifies this
      ensures items == old(items) - {key}
    {
      items := items - {key};
    }

    /** `setStoredData(key, data)`: replaces one entry; a failed write is swallowed and changes nothing. */
    method SetStoredData<V>(key: string, data: V, codec: Codec<V>)
      modifies this
      ensures items == if available && key !in refused then old(items)[key := codec.encode(data)] else old(items)
    {
      if !available {
        return;
      }
      var _ := SetItem(key, codec.encode(data));
    }

    /**
     * `initializeData()`: seeds each dataset key that has no entry with its
     * catalog. Each write is caught on its own, so exactly the keys the
     * browser accepts are seeded.
     */
    method InitializeData(catalog: Datasets, codecs: DatasetCodecs)
      modifies this
      ensures items == if available then Seeded(old(items), Restrict(DatasetEntries(catalog, codecs), DatasetKeys - refused)) else old(items)
      ensures available && DatasetKeys !! refused ==> items == Seeded(old(items), DatasetEntries(catalog, codecs))
    {
      if !available {
        return;
      }
      var e := DatasetEntries(catalog, codecs);
      ghost var m0 := items;
      ghost var done: set<string> := {};
      SeededNothing(m0);
      assert Restrict(e, done - refused) == map[];
      SeedIfMissing(ProjectsKey, catalog.projects, codecs.projects, e, m0, done);
      done := done + {ProjectsKey};
      SeedIfMissing(ResearchKey, catalog.research, codecs.research, e, m0, done);
      done := done + {ResearchKey};
      SeedIfMissing(BlogPostsKey, catalog.blogPosts, codecs.blogPosts, e, m0, done);
      done := done + {BlogPostsKey};
      SeedIfMissing(EventsKey, catalog.events, codecs.events, e, m0, done);
      done := done + {EventsKey};
      SeedIfMissing(OpportunitiesKey, catalog.opportunities, codecs.opportunities, e, m0, done);
      done := done + {OpportunitiesKey};
      SeedIfMissing(VenturesKey, catalog.ventures, codecs.ventures, e, m0, done);
      done := done + {VenturesKey};
      assert items == Seeded(m0, Restrict(e, done - refused));
      assert done == DatasetKeys;
      if DatasetKeys !! refused {
        RestrictAll(e, DatasetKeys - refused);
      }
    }

    /**
     * One `if (!localStorage.getItem(key)) setStoredData(key, data)` of
     * `initializeData`, where `e` holds the text of every seeded key and
     * the keys in `done` have already been handled.
     */
    method SeedIfMissing<V>(key: string, data: V, codec: Codec<V>, ghost e: map<string, string>,
                            ghost m0: map<string, string>, ghost done: set<string>)
      requires available && key in e && e[key] == codec.encode(data)
      requires items == Seeded(m0, Restrict(e, done - refused))
      modifies this
      ensures items == Seeded(m0, Restrict(e, (done + {key}) - refused))
    {
      if !Has(key) {
        SetStoredData(key, data, codec);
      }
      SeedStep(m0, e, done, refused, key);
    }
  }
}
