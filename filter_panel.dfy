/** The filter panel: local selections of categories, sentiments, sectors
    and market caps that are toggled value by value, applied to or cleared
    from the shared filter state, and the expansion flag of each parent
    category. */
module FilterPanel {
  import opened Seqs
  import opened FilterState
  import CategoryUtils

  /** Every parent category starts expanded. */
  const InitialExpansion: map<string, bool> := map[
    "Key Documents & Meetings" := true,
    "Corporate Governance & Admin" := true,
    "Corporate Actions" := true,
    "Capital & Financing" := true,
    "Strategic & Business Operations" := true,
    "Financial Reporting & Ratings" := true,
    "Regulatory & Legal" := true,
    "Administrative Matters" := true
  ]

  /** The panel's expansion keys are exactly the parents of the colour table, all expanded. */
  lemma InitialExpansionMatchesHierarchy()
    ensures forall name :: name in InitialExpansion <==>
      exists j :: 0 <= j < |CategoryUtils.Hierarchy| && CategoryUtils.Hierarchy[j].name == name
    ensures forall name :: name in InitialExpansion ==> InitialExpansion[name]
  {
    var h := CategoryUtils.Hierarchy;
    forall name | name in InitialExpansion
      ensures exists j :: 0 <= j < |h| && h[j].name == name
    {
      if name == h[0].name { assert h[0].name == name; }
      else if name == h[1].name { assert h[1].name == name; }
      else if name == h[2].name { assert h[2].name == name; }
      else if name == h[3].name { assert h[3].name == name; }
      else if name == h[4].name { assert h[4].name == name; }
      else if name == h[5].name { assert h[5].name == name; }
      else if name == h[6].name { assert h[6].name == name; }
      else { assert h[7].name == name; }
    }
  }

  /** `{...prev, [key]: !prev[key]}`: an absent key reads as unset, so it becomes `true`. */
  function ToggleKey(m: map<string, bool>, key: string): (r: map<string, bool>)
    ensures r.Keys == m.Keys + {key}
    ensures r[key] == !(key in m && m[key])
    ensures forall k :: k in m && k != key ==> r[k] == m[k]
  {
    m[key := !(key in m && m[key])]
  }

  /** Toggling a present key twice restores the map. */
  lemma ToggleKeyTwice(m: map<string, bool>, key: string)
    requires key in m
    ensures ToggleKey(ToggleKey(m, key), key) == m
  {
  }

  class Panel {
    var localCategories: seq<string>
    var localSentiments: seq<string>
    var sectors: seq<string>
    var marketCaps: seq<string>
    var expansion: map<string, bool>

    /** The panel starts from the shared selections and with nothing else selected. */
    constructor (ctx: FilterContext)
      ensures localCategories == ctx.selectedCategories && localSentiments == ctx.selectedSentiments
      ensures sectors == [] && marketCaps == [] && expansion == InitialExpansion
    {
      localCategories, localSentiments := ctx.selectedCategories, ctx.selectedSentiments;
      sectors, marketCaps := [], [];
      expansion := InitialExpansion;
    }

    /** `toggleParentCategory`. */
    method ToggleParentCategory(parent: string)
      modifies this`expansion
      ensures expansion == ToggleKey(old(expansion), parent)
    {
      expansion := expansion[parent := !(parent in expansion && expansion[parent])];
    }

    /** `toggleCategory`. */
    method ToggleCategory(category: string)
      modifies this`localCategories
      ensures localCategories == Toggle(old(localCategories), category)
    {
      if category in localCategories {
        localCategories := RemoveAll(localCategories, category);
      } else {
        localCategories := localCategories + [category];
      }
    }

    /** `toggleSentiment`. */
    method ToggleSentiment(sentiment: string)
      modifies this`localSentiments
      ensures localSentiments == Toggle(old(localSentiments), sentiment)
    {
      if sentiment in localSentiments {
        localSentiments := RemoveAll(localSentiments, sentiment);
      } else {
        localSentiments := localSentiments + [sentiment];
      }
    }

    /** `toggleSector`. */
    method ToggleSector(sector: string)
      modifies this`sectors
      ensures sectors == Toggle(old(sectors), sector)
    {
      if sector in sectors {
        sectors := RemoveAll(sectors, sector);
      } else {
        sectors := sectors + [sector];
      }
    }

    /** `toggleMarketCap`. */
    method ToggleMarketCap(marketCap: string)
      modifies this`marketCaps
      ensures marketCaps == Toggle(old(marketCaps), marketCap)
    {
      if marketCap in marketCaps {
        marketCaps := RemoveAll(marketCaps, marketCap);
      } else {
        marketCaps := marketCaps + [marketCap];
      }
    }

    /** `applyCategoryFilters`: the local list goes to the shared state as it is. */
    method ApplyCategoryFilters(ctx: FilterContext)
      modifies ctx`selectedCategories
      ensures ctx.selectedCategories == localCategories
    {
      ctx.SetSelectedCategories(localCategories);
    }

    /** `applySentimentFilters`. */
    method ApplySentimentFilters(ctx: FilterContext)
      modifies ctx`selectedSentiments
      ensures ctx.selectedSentiments == localSentiments
    {
      ctx.SetSelectedSentiments(localSentiments);
    }

    /** `clearCategoryFilters`: both the local and the shared list. */
    method ClearCategoryFilters(ctx: FilterContext)
      modifies this`localCategories, ctx`selectedCategories
      ensures localCategories == [] && ctx.selectedCategories == []
    {
      localCategories := [];
      ctx.SetSelectedCategories([]);
    }

    /** `clearSentimentFilters`: both the local and the shared list. */
    method ClearSentimentFilters(ctx: FilterContext)
      modifies this`localSentiments, ctx`selectedSentiments
      ensures localSentiments == [] && ctx.selectedSentiments == []
    {
      localSentiments := [];
      ctx.SetSelectedSentiments([]);
    }

    /** `clearSectorFilters`: sectors are local to the panel. */
    method ClearSectorFilters()
      modifies this`sectors
      ensures sectors == []
    {
      sectors := [];
    }

    /** `clearMarketCapFilters`: market caps are local to the panel. */
    method ClearMarketCapFilters()
      modifies this`marketCaps
      ensures marketCaps == []
    {
      marketCaps := [];
    }

    /** The sync effects: a change in the shared lists overwrites the local ones. */
    method SyncFromContext(ctx: FilterContext)
      modifies this`localCategories, this`localSentiments
      ensures localCategories == ctx.selectedCategories && localSentiments == ctx.selectedSentiments
    {
      localCategories, localSentiments := ctx.selectedCategories, ctx.selectedSentiments;
    }
  }
}
