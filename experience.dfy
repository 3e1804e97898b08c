/** The experience timeline: each entry's date range and whether its
    technology row is drawn. */
module ExperienceSection {
  import opened Common
  import opened Types
  import Catalogue

  const Separator := " - "
  const Present := "Present"

  /** `formatDateRange`: a current position reads "<start> - Present"
      whatever its end date; any other reads "<start> - <end>", with nothing
      after the dash when the end date is missing or empty. */
  function FormatDateRange(startDate: string, endDate: Option<string>, current: bool): string {
    if current then startDate + Separator + Present
    else startDate + Separator + (if Truthy(endDate) then endDate.value else "")
  }

  /** The text always opens with the start date and the separator, and what
      follows is "Present", the end date, or nothing. The end date of a
      current position never shows. */
  lemma DateRangeParts(startDate: string, endDate: Option<string>, current: bool)
    ensures var r := FormatDateRange(startDate, endDate, current);
      |r| >= |startDate| + |Separator| && r[..|startDate| + |Separator|] == startDate + Separator
    ensures var r := FormatDateRange(startDate, endDate, current);
      r[|startDate| + |Separator|..] ==
        if current then Present else if Truthy(endDate) then endDate.value else ""
    ensures current ==> FormatDateRange(startDate, endDate, current) == FormatDateRange(startDate, None, true)
  {
    var r := FormatDateRange(startDate, endDate, current);
    var tail := if current then Present else if Truthy(endDate) then endDate.value else "";
    assert r == (startDate + Separator) + tail;
  }

  /** The range text of a record. */
  function RangeOf(e: Experience): string {
    FormatDateRange(e.startDate, e.endDate, e.current)
  }

  /** The technology row is drawn when the record lists any technology. */
  predicate ShowsTechRow(e: Experience) {
    |e.tech| > 0
  }

  /** On the catalogue: "2010 - 2020" for the past position, without a
      technology row, and "2020 - Present" for the current one, with its
      three technologies. */
  lemma CatalogueRanges()
    ensures RangeOf(Catalogue.EXPERIENCES[0]) == "2010 - 2020"
    ensures RangeOf(Catalogue.EXPERIENCES[1]) == "2020 - Present"
    ensures !ShowsTechRow(Catalogue.EXPERIENCES[0]) && ShowsTechRow(Catalogue.EXPERIENCES[1])
  {
  }
}
