/** The category colour table: eight parent categories, each with a
    background and text colour and the announcement categories it groups. */
module CategoryUtils {
  datatype ColorScheme = ColorScheme(backgroundColor: string, textColor: string)

  datatype ParentCategory = ParentCategory(name: string, scheme: ColorScheme, items: seq<string>)

  /** `categoryHierarchy`, in declaration order. */
  const Hierarchy: seq<ParentCategory> := [
    ParentCategory("Key Documents & Meetings", ColorScheme("#D1FAE4", "#065F46"),
      ["Annual Report", "Investor/Analyst Meet", "Investor Presentation", "Concall Transcript"]),
    ParentCategory("Corporate Governance & Admin", ColorScheme("#FFE4E5", "#991B1B"),
      ["Change in KMP", "Name Change", "Demise of KMP", "Change in Address", "Change in MOA"]),
    ParentCategory("Corporate Actions", ColorScheme("#FEF2C7", "#92400E"),
      ["Mergers/Acquisitions", "Bonus/Stock Split", "Divestitures", "Buyback", "Consolidation of Shares",
       "Demerger", "Joint Ventures", "Incorporation/Cessation of Subsidiary", "Open Offer"]),
    ParentCategory("Capital & Financing", ColorScheme("#DBEAFE", "#1E40AF"),
      ["Fundraise - Rights Issue", "Fundraise - Preferential Issue", "Increase in Share Capital", "Fundraise - QIP",
       "DRHP", "Reduction in Share Capital", "Debt & Financing", "Debt Reduction", "Interest Rates Updates",
       "One Time Settlement (OTS)"]),
    ParentCategory("Strategic & Business Operations", ColorScheme("#FCE7F3", "#BE185D"),
      ["Agreements/MoUs", "Expansion", "Operational Update", "New Order", "New Product", "Closure of Factory",
       "Disruption of Operations", "PLI Scheme"]),
    ParentCategory("Financial Reporting & Ratings", ColorScheme("#EDE9FE", "#5B21B6"),
      ["Financial Results", "Credit Rating"]),
    ParentCategory("Regulatory & Legal", ColorScheme("#FFF7ED", "#C2410C"),
      ["Regulatory Approvals/Orders", "USFDA", "Global Pharma Regulation", "Litigation & Notices",
       "Insolvency and Bankruptcy", "Anti-dumping Duty", "Delisting", "Trading Suspension",
       "Clarifications/Confirmations"]),
    ParentCategory("Administrative Matters", ColorScheme("#E2E8F0", "#475569"),
      ["Procedural/Administrative", "Board Meeting", "AGM/EGM", "Dividend", "Corporate Action",
       "Management Changes", "Strategic Update", "Other"])
  ]

  /** The colours of a category no parent lists. */
  const DefaultScheme := ColorScheme("#E2E8F0", "#475569")

  predicate IsParentScheme(c: ColorScheme) {
    exists k :: 0 <= k < |Hierarchy| && Hierarchy[k].scheme == c
  }

  /** The scheme of the first parent in `parents` that lists `name`, else the default. */
  function ColorsIn(name: string, parents: seq<ParentCategory>): (r: ColorScheme)
    ensures forall k ::
      (0 <= k < |parents| && name in parents[k].items && forall j :: 0 <= j < k ==> name !in parents[j].items)
      ==> r == parents[k].scheme
    ensures (forall k :: 0 <= k < |parents| ==> name !in parents[k].items) ==> r == DefaultScheme
    ensures r == DefaultScheme || exists k :: 0 <= k < |parents| && parents[k].scheme == r
  {
    if parents == [] then DefaultScheme
    else if name in parents[0].items then parents[0].scheme
    else
      var r := ColorsIn(name, parents[1..]);
      assert forall k :: 1 <= k < |parents| ==> parents[k] == parents[1..][k - 1];
      r
  }

  /** `getCategoryColors`. */
  function GetCategoryColors(name: string): (r: ColorScheme)
    ensures IsParentScheme(r)
  {
    var r := ColorsIn(name, Hierarchy);
    assert DefaultScheme == Hierarchy[7].scheme;
    r
  }

  /** The default colours are those of "Administrative Matters". */
  lemma DefaultIsAdministrativeMatters()
    ensures Hierarchy[7].name == "Administrative Matters" && Hierarchy[7].scheme == DefaultScheme
  {
  }

  /** `Object.values(categoryHierarchy).flatMap(group => group.items)`. */
  function Flatten(parents: seq<ParentCategory>): (r: seq<string>)
    ensures forall x :: x in r <==> exists k :: 0 <= k < |parents| && x in parents[k].items
  {
    if parents == [] then []
    else
      var rest := Flatten(parents[1..]);
      assert forall k :: 1 <= k < |parents| ==> parents[k] == parents[1..][k - 1];
      parents[0].items + rest
  }

  function ItemCount(parents: seq<ParentCategory>): nat {
    if parents == [] then 0 else |parents[0].items| + ItemCount(parents[1..])
  }

  lemma {:induction false} FlattenLength(parents: seq<ParentCategory>)
    ensures |Flatten(parents)| == ItemCount(parents)
  {
    if parents != [] {
      FlattenLength(parents[1..]);
    }
  }

  /** One step of `ItemCount` on a suffix. */
  lemma ItemCountStep(parents: seq<ParentCategory>, i: nat)
    requires i < |parents|
    ensures ItemCount(parents[i..]) == |parents[i].items| + ItemCount(parents[i + 1..])
  {
    assert parents[i..][1..] == parents[i + 1..];
  }

  /** The number of categories each parent lists. */
  lemma HierarchySizes()
    ensures |Hierarchy| == 8
    ensures |Hierarchy[0].items| == 4
    ensures |Hierarchy[1].items| == 5
    ensures |Hierarchy[2].items| == 9
    ensures |Hierarchy[3].items| == 10
    ensures |Hierarchy[4].items| == 8
    ensures |Hierarchy[5].items| == 2
    ensures |Hierarchy[6].items| == 9
    ensures |Hierarchy[7].items| == 8
  {
  }

  /** The table lists 55 categories. */
  lemma HierarchyItemCount()
    ensures ItemCount(Hierarchy) == 55
  {
    HierarchySizes();
    assert Hierarchy[8..] == [];
    ItemCountStep(Hierarchy, 7);
    ItemCountStep(Hierarchy, 6);
    ItemCountStep(Hierarchy, 5);
    ItemCountStep(Hierarchy, 4);
    ItemCountStep(Hierarchy, 3);
    ItemCountStep(Hierarchy, 2);
    ItemCountStep(Hierarchy, 1);
    ItemCountStep(Hierarchy, 0);
    assert Hierarchy[0..] == Hierarchy;
  }

  /** Some parent of the table lists `x`. */
  predicate Listed(x: string) {
    exists k :: 0 <= k < |Hierarchy| && x in Hierarchy[k].items
  }

  /** `getAllCategories`: every listed category, 55 of them. */
  function GetAllCategories(): (r: seq<string>)
    ensures |r| == 55
    ensures forall x :: x in r <==> Listed(x)
  {
    FlattenLength(Hierarchy);
    HierarchyItemCount();
    Flatten(Hierarchy)
  }

  /** Parents `j` and `k` list no category in common. */
  predicate Apart(j: nat, k: nat)
    requires j < |Hierarchy| && k < |Hierarchy|
  {
    forall a, b :: 0 <= a < |Hierarchy[j].items| && 0 <= b < |Hierarchy[k].items| ==>
      Hierarchy[j].items[a] != Hierarchy[k].items[b]
  }

  // One lemma per pair of parents keeps each comparison small.

  lemma Apart0And1()
    ensures Apart(0, 1)
  {
  }

  lemma Apart0And2()
    ensures Apart(0, 2)
  {
  }

  lemma Apart0And3()
    ensures Apart(0, 3)
  {
  }

  lemma Apart0And4()
    ensures Apart(0, 4)
  {
  }

  lemma Apart0And5()
    ensures Apart(0, 5)
  {
  }

  lemma Apart0And6()
    ensures Apart(0, 6)
  {
  }

  lemma Apart0And7()
    ensures Apart(0, 7)
  {
  }

  lemma Apart1And2()
    ensures Apart(1, 2)
  {
  }

  lemma Apart1And3()
    ensures Apart(1, 3)
  {
  }

  lemma Apart1And4()
    ensures Apart(1, 4)
  {
  }

  lemma Apart1And5()
    ensures Apart(1, 5)
  {
  }

  lemma Apart1And6()
    ensures Apart(1, 6)
  {
  }

  lemma Apart1And7()
    ensures Apart(1, 7)
  {
  }

  lemma Apart2And3()
    ensures Apart(2, 3)
  {
  }

  lemma Apart2And4()
    ensures Apart(2, 4)
  {
  }

  lemma Apart2And5()
    ensures Apart(2, 5)
  {
  }

  lemma Apart2And6()
    ensures Apart(2, 6)
  {
  }

  lemma Apart2And7()
    ensures Apart(2, 7)
  {
  }

  lemma Apart3And4()
    ensures Apart(3, 4)
  {
  }

  lemma Apart3And5()
    ensures Apart(3, 5)
  {
  }

  lemma Apart3And6()
    ensures Apart(3, 6)
  {
  }

  lemma Apart3And7()
    ensures Apart(3, 7)
  {
  }

  lemma Apart4And5()
    ensures Apart(4, 5)
  {
  }

  lemma Apart4And6()
    ensures Apart(4, 6)
  {
  }

  lemma Apart4And7()
    ensures Apart(4, 7)
  {
  }

  lemma Apart5And6()
    ensures Apart(5, 6)
  {
  }

  lemma Apart5And7()
    ensures Apart(5, 7)
  {
  }

  lemma Apart6And7()
    ensures Apart(6, 7)
  {
  }

  /** Any two distinct parents list no category in common. */
  lemma ApartPair(j: nat, k: nat)
    requires j < k < |Hierarchy|
    ensures Apart(j, k)
  {
    if j == 0 {
      if k == 1 {
        Apart0And1();
      } else if k == 2 {
        Apart0And2();
      } else if k == 3 {
        Apart0And3();
      } else if k == 4 {
        Apart0And4();
      } else if k == 5 {
        Apart0And5();
      } else if k == 6 {
        Apart0And6();
      } else {
        Apart0And7();
      }
    } else if j == 1 {
      if k == 2 {
        Apart1And2();
      } else if k == 3 {
        Apart1And3();
      } else if k == 4 {
        Apart1And4();
      } else if k == 5 {
        Apart1And5();
      } else if k == 6 {
        Apart1And6();
      } else {
        Apart1And7();
      }
    } else if j == 2 {
      if k == 3 {
        Apart2And3();
      } else if k == 4 {
        Apart2And4();
      } else if k == 5 {
        Apart2And5();
      } else if k == 6 {
        Apart2And6();
      } else {
        Apart2And7();
      }
    } else if j == 3 {
      if k == 4 {
        Apart3And4();
      } else if k == 5 {
        Apart3And5();
      } else if k == 6 {
        Apart3And6();
      } else {
        Apart3And7();
      }
    } else if j == 4 {
      if k == 5 {
        Apart4And5();
      } else if k == 6 {
        Apart4And6();
      } else {
        Apart4And7();
      }
    } else if j == 5 {
      if k == 6 {
        Apart5And6();
      } else {
        Apart5And7();
      }
    } else if j == 6 {
      Apart6And7();
    }
  }

  /** No category is listed under two parents. */
  lemma ParentsDisjoint()
    ensures forall j, k, x :: 0 <= j < k < |Hierarchy| && x in Hierarchy[j].items ==> x !in Hierarchy[k].items
  {
    forall j, k, x | 0 <= j < k < |Hierarchy| && x in Hierarchy[j].items
      ensures x !in Hierarchy[k].items
    {
      ApartPair(j, k);
      var a :| 0 <= a < |Hierarchy[j].items| && Hierarchy[j].items[a] == x;
    }
  }

  /** A listed category gets its parent's colours. */
  lemma ListedCategoryColors(name: string, k: nat)
    requires k < |Hierarchy| && name in Hierarchy[k].items
    ensures GetCategoryColors(name) == Hierarchy[k].scheme
  {
    ParentsDisjoint();
  }

  /** An unlisted category gets the default colours. */
  lemma UnknownCategoryColors(name: string)
    requires name !in GetAllCategories()
    ensures GetCategoryColors(name) == DefaultScheme
  {
  }
}
