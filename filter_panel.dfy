/**
  The filter sidebar of the provider directory: it keeps the current filter record,
  changes one field per user action and hands every new record to its parent, which
  passes it (with the search term) to `getAll`.
*/
module FilterPanels {
  import opened Sequences
  import opened Providers

  /** The panel's record; it is `Filters` without the search term. */
  datatype FilterRecord = FilterRecord(
    specialty: seq<string>,
    location: string,
    insurance: seq<string>,
    minRating: real)

  /** The record the panel starts from and `clearFilters` returns to. */
  const Cleared := FilterRecord([], "", [], 0.0)

  /** The specialty checkboxes. */
  const SpecialtyOptions: seq<string> := [
    "Functional Medicine", "Chiropractic Care", "Health Coaching",
    "Acupuncture", "Naturopathic Medicine", "Massage Therapy"]

  /** The insurance checkboxes. */
  const InsuranceOptions: seq<string> := [
    "Blue Cross Blue Shield", "Aetna", "United Healthcare",
    "Cigna", "Humana", "Kaiser Permanente"]

  /** The minimum-rating radio buttons. */
  const RatingOptions: seq<real> := [4.0, 4.5, 4.8]

  /** What the listing queries with: the record spread into `Filters` plus the search term. */
  function AsQuery(r: FilterRecord, search: string): (f: Filters)
    ensures f.specialty == r.specialty && f.location == r.location && f.insurance == r.insurance
    ensures f.minRating == r.minRating && f.search == search
  {
    Filters(r.specialty, r.location, r.insurance, r.minRating, search)
  }

  /** Every ticked option is one the panel offers, and the rating is unset or one of its buttons. */
  predicate OnlyOffered(r: FilterRecord) {
    && (forall s :: s in r.specialty ==> s in SpecialtyOptions)
    && (forall s :: s in r.insurance ==> s in InsuranceOptions)
    && (r.minRating == 0.0 || r.minRating in RatingOptions)
  }

  class FilterPanel {
    var filters: FilterRecord
    /** Every record handed to `onFiltersChange`, oldest first. */
    var notified: seq<FilterRecord>

    /**
      No option is ticked twice, and the parent has been told the current record
      whenever it has been told anything.
    */
    ghost predicate Valid()
      reads this
    {
      && NoDuplicates(filters.specialty)
      && NoDuplicates(filters.insurance)
      && (notified != [] ==> notified[|notified| - 1] == filters)
    }

    constructor ()
      ensures filters == Cleared && notified == []
      ensures Valid()
    {
      filters := Cleared;
      notified := [];
    }

    /** Publishes a new record: the panel keeps it and the parent receives it. */
    method Publish(next: FilterRecord)
      modifies this
      ensures filters == next
      ensures notified == old(notified) + [next]
    {
      filters := next;
      notified := notified + [next];
    }

    /** Ticking a specialty checkbox adds it; unticking removes it. */
    method HandleSpecialtyChange(specialty: string)
      requires Valid()
      modifies this
      ensures filters == old(filters).(specialty := Toggle(old(filters.specialty), specialty))
      ensures notified == old(notified) + [filters]
      ensures specialty in filters.specialty <==> specialty !in old(filters.specialty)
      ensures old(OnlyOffered(filters)) && specialty in SpecialtyOptions ==> OnlyOffered(filters)
      ensures Valid()
    {
      var newSpecialties := Toggle(filters.specialty, specialty);
      Publish(filters.(specialty := newSpecialties));
    }

    /** Ticking an insurance checkbox adds it; unticking removes it. */
    method HandleInsuranceChange(insurance: string)
      requires Valid()
      modifies this
      ensures filters == old(filters).(insurance := Toggle(old(filters.insurance), insurance))
      ensures notified == old(notified) + [filters]
      ensures insurance in filters.insurance <==> insurance !in old(filters.insurance)
      ensures old(OnlyOffered(filters)) && insurance in InsuranceOptions ==> OnlyOffered(filters)
      ensures Valid()
    {
      var newInsurance := Toggle(filters.insurance, insurance);
      Publish(filters.(insurance := newInsurance));
    }

    /** Typing in the location box replaces the location with the box's text. */
    method HandleLocationChange(value: string)
      requires Valid()
      modifies this
      ensures filters == old(filters).(location := value)
      ensures notified == old(notified) + [filters]
      ensures old(OnlyOffered(filters)) ==> OnlyOffered(filters)
      ensures Valid()
    {
      Publish(filters.(location := value));
    }

    /** Choosing a rating radio button sets the minimum rating. */
    method HandleRatingChange(rating: real)
      requires Valid()
      modifies this
      ensures filters == old(filters).(minRating := rating)
      ensures notified == old(notified) + [filters]
      ensures old(OnlyOffered(filters)) && rating in RatingOptions ==> OnlyOffered(filters)
      ensures Valid()
    {
      Publish(filters.(minRating := rating));
    }

    /** "Clear All" goes back to the starting record and tells the parent so. */
    method ClearFilters()
      requires Valid()
      modifies this
      ensures filters == Cleared
      ensures notified == old(notified) + [Cleared]
      ensures OnlyOffered(filters)
      ensures Valid()
    {
      Publish(Cleared);
    }
  }

  /** After "Clear All" (and with an empty search box) the listing shows every provider. */
  lemma ClearedListsEveryone(ps: seq<Provider>)
    ensures Query(ps, AsQuery(Cleared, "")) == ps
  {
    QueryNoFilters(ps);
  }

  /** Ticking and then unticking an unticked specialty gives back the record it started from. */
  lemma SpecialtyRoundTrip(r: FilterRecord, specialty: string)
    requires specialty !in r.specialty
    ensures r.(specialty := Toggle(Toggle(r.specialty, specialty), specialty)) == r
  {
    ToggleTwiceAbsent(r.specialty, specialty);
  }

  /** A rating filter of 4.5 lists exactly the stored providers rated 4.5 or more. */
  lemma RatingFilterMembership(ps: seq<Provider>, r: FilterRecord, p: Provider)
    requires r == Cleared.(minRating := 4.5)
    ensures p in Query(ps, AsQuery(r, "")) <==> p in ps && p.rating >= 4.5
  {
    QueryMembership(ps, AsQuery(r, ""), p);
  }
}
