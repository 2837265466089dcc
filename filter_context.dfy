/** The shared filter state that the dashboard reads and the filter panel
    writes. Its provider is not part of this model; its setters are taken to
    assign the given values. */
module FilterState {
  class FilterContext {
    var searchTerm: string
    var dateStart: string
    var dateEnd: string
    /** The selected company name; "" when none is selected. */
    var selectedCompany: string
    var selectedCategories: seq<string>
    var selectedSentiments: seq<string>
    var selectedIndustries: seq<string>

    constructor ()
      ensures searchTerm == "" && dateStart == "" && dateEnd == "" && selectedCompany == ""
      ensures selectedCategories == [] && selectedSentiments == [] && selectedIndustries == []
    {
      searchTerm, dateStart, dateEnd, selectedCompany := "", "", "", "";
      selectedCategories, selectedSentiments, selectedIndustries := [], [], [];
    }

    method SetDateRange(start: string, end: string)
      modifies this`dateStart, this`dateEnd
      ensures dateStart == start && dateEnd == end
    {
      dateStart, dateEnd := start, end;
    }

    method SetSelectedCategories(categories: seq<string>)
      modifies this`selectedCategories
      ensures selectedCategories == categories
    {
      selectedCategories := categories;
    }

    method SetSelectedSentiments(sentiments: seq<string>)
      modifies this`selectedSentiments
      ensures selectedSentiments == sentiments
    {
      selectedSentiments := sentiments;
    }
  }
}
