/** The hospital-rates page: a case-insensitive search over the fixed
    hospital list. */
module Rates {
  import opened Seqs
  import opened JsText
  import opened Catalogue

  /** The hospitals whose lower-cased name contains `needle`, in list order. */
  function Search(needle: string): (r: seq<Hospital>)
    ensures |r| <= |Hospitals|
  {
    Filter(Hospitals, (h: Hospital) => Includes(ToLower(h.name), needle))
  }

  /** `filteredHospitals`: the name and the term are both lower-cased. */
  function FilteredHospitals(term: string): (r: seq<Hospital>)
    ensures |r| <= |Hospitals|
  {
    Search(ToLower(term))
  }

  /** What the table shows: the matching rows, or the "No hospitals found"
      row when nothing matches. */
  datatype RatesTable = Rows(hospitals: seq<Hospital>) | NoneFound(term: string)

  function Table(term: string): (t: RatesTable)
    ensures t.NoneFound? <==> FilteredHospitals(term) == []
    ensures t.Rows? ==> t.hospitals == FilteredHospitals(term)
  {
    var r := FilteredHospitals(term);
    if |r| > 0 then Rows(r) else NoneFound(term)
  }

  /** An empty search shows every hospital. */
  lemma EmptyTermShowsAll()
    ensures FilteredHospitals("") == Hospitals
    ensures Table("") == Rows(Hospitals)
  {
    forall i | 0 <= i < |Hospitals|
      ensures Includes(ToLower(Hospitals[i].name), "")
    {
      IncludesEmpty(ToLower(Hospitals[i].name));
    }
    FilterAll(Hospitals, (h: Hospital) => Includes(ToLower(h.name), ""));
  }

  /** The result lists hospitals from the fixed list, in the list's order. */
  lemma FilteredInOrder(term: string)
    ensures IsSubsequence(FilteredHospitals(term), Hospitals)
  {
    FilterIsSubsequence(Hospitals, (h: Hospital) => Includes(ToLower(h.name), ToLower(term)));
  }

  /** A hospital is listed exactly when the lower-cased term occurs in its
      lower-cased name. */
  lemma FilteredMembership(term: string, h: Hospital)
    ensures h in FilteredHospitals(term) <==>
      h in Hospitals && exists i :: OccursAt(ToLower(h.name), ToLower(term), i)
  {
    FilterMembership(Hospitals, (h: Hospital) => Includes(ToLower(h.name), ToLower(term)), h);
    IncludesIffOccurs(ToLower(h.name), ToLower(term));
  }

  lemma LowerTwice(s: string)
    ensures ToLower(ToLower(s)) == ToLower(s)
  {
  }

  /** The case the term is typed in does not change the result. */
  lemma CaseInsensitive(term: string)
    ensures FilteredHospitals(ToUpper(term)) == FilteredHospitals(term)
    ensures FilteredHospitals(ToLower(term)) == FilteredHospitals(term)
  {
    LowerOfUpper(term);
    LowerTwice(term);
  }
}
