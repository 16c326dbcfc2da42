/**
  The provider query engine: a service object holding a copy of the provider records
  and answering four queries over it — the filtered listing, the lookup by id, the
  symptom search and the featured list.
*/
module Providers {
  import opened Wrappers
  import opened Text
  import opened Sequences

  // ---------------------------------------------------------------------------
  // Records
  // ---------------------------------------------------------------------------

  datatype Location = Location(address: string, city: string, state: string, zipCode: string)

  /** A provider record, with the fields the queries read. */
  datatype Provider = Provider(
    id: int,
    name: string,
    specialty: seq<string>,
    location: Location,
    bio: string,
    services: seq<string>,
    insurance: seq<string>,
    rating: real)

  /**
    The argument of `getAll`. A field the caller leaves out is undefined in the source,
    which every test treats like the empty value it has here.
  */
  datatype Filters = Filters(
    specialty: seq<string>,
    location: string,
    insurance: seq<string>,
    minRating: real,
    search: string)

  const NoFilters := Filters([], "", [], 0.0, "")

  // ---------------------------------------------------------------------------
  // The getAll filters
  // ---------------------------------------------------------------------------

  /** `hay.toLowerCase().includes(needle.toLowerCase())` */
  predicate IncludesIgnoringCase(hay: string, needle: string) {
    Includes(Lower(hay), Lower(needle))
  }

  /** Some entry contains some wanted value, ignoring case. */
  predicate AnyIncludes(entries: seq<string>, wanted: seq<string>) {
    exists e, w :: e in entries && w in wanted && IncludesIgnoringCase(e, w)
  }

  predicate AtLocation(p: Provider, place: string) {
    IncludesIgnoringCase(p.location.city, place) || IncludesIgnoringCase(p.location.state, place)
  }

  /** The free-text search looks at the name, every service and the bio. */
  predicate MentionsTerm(p: Provider, term: string) {
    || IncludesIgnoringCase(p.name, term)
    || (exists s :: s in p.services && IncludesIgnoringCase(s, term))
    || IncludesIgnoringCase(p.bio, term)
  }

  // Each filter applies only when its field is set (a non-empty list or string, a
  // non-zero rating); otherwise every provider passes it.

  predicate SpecialtyOk(f: Filters, p: Provider) {
    |f.specialty| > 0 ==> AnyIncludes(p.specialty, f.specialty)
  }

  predicate LocationOk(f: Filters, p: Provider) {
    f.location != "" ==> AtLocation(p, f.location)
  }

  predicate InsuranceOk(f: Filters, p: Provider) {
    |f.insurance| > 0 ==> AnyIncludes(p.insurance, f.insurance)
  }

  predicate RatingOk(f: Filters, p: Provider) {
    f.minRating != 0.0 ==> p.rating >= f.minRating
  }

  predicate SearchOk(f: Filters, p: Provider) {
    f.search != "" ==> MentionsTerm(p, f.search)
  }

  /** A provider belongs in the listing when it passes every active filter. */
  predicate Matches(f: Filters, p: Provider) {
    SpecialtyOk(f, p) && LocationOk(f, p) && InsuranceOk(f, p) && RatingOk(f, p) && SearchOk(f, p)
  }

  function Matching(f: Filters): Provider -> bool {
    p => Matches(f, p)
  }

  /** What `getAll(f)` returns: one conjunctive filter over the stored providers. */
  function Query(ps: seq<Provider>, f: Filters): seq<Provider> {
    Filter(ps, Matching(f))
  }

  /** A provider passes the first `k` of the five filters, in the order `getAll` applies them. */
  ghost predicate Passes(f: Filters, p: Provider, k: nat) {
    && (k >= 1 ==> SpecialtyOk(f, p))
    && (k >= 2 ==> LocationOk(f, p))
    && (k >= 3 ==> InsuranceOk(f, p))
    && (k >= 4 ==> RatingOk(f, p))
    && (k >= 5 ==> SearchOk(f, p))
  }

  ghost function Passing(f: Filters, k: nat): Provider -> bool {
    p => Passes(f, p, k)
  }

  // The callbacks `getAll` filters with, one per filter.

  function BySpecialty(wanted: seq<string>): Provider -> bool {
    (p: Provider) => AnyIncludes(p.specialty, wanted)
  }

  function ByLocation(place: string): Provider -> bool {
    p => AtLocation(p, place)
  }

  function ByInsurance(wanted: seq<string>): Provider -> bool {
    (p: Provider) => AnyIncludes(p.insurance, wanted)
  }

  function ByRating(minRating: real): Provider -> bool {
    (p: Provider) => p.rating >= minRating
  }

  function BySearch(term: string): Provider -> bool {
    p => MentionsTerm(p, term)
  }

  /** Whether the `k`-th filter is set, and the callback it filters with. */
  function Stage(f: Filters, k: nat): (bool, Provider -> bool)
    requires 1 <= k <= 5
  {
    if k == 1 then (|f.specialty| > 0, BySpecialty(f.specialty))
    else if k == 2 then (f.location != "", ByLocation(f.location))
    else if k == 3 then (|f.insurance| > 0, ByInsurance(f.insurance))
    else if k == 4 then (f.minRating != 0.0, ByRating(f.minRating))
    else (f.search != "", BySearch(f.search))
  }

  /** One step of `getAll`: the `k`-th filter narrows the list when it is set and is skipped otherwise. */
  method Narrow(ghost ps: seq<Provider>, filtered: seq<Provider>, f: Filters, k: nat) returns (next: seq<Provider>)
    requires 1 <= k <= 5
    requires filtered == Filter(ps, Passing(f, k - 1))
    ensures next == Filter(ps, Passing(f, k))
  {
    var (active, test) := Stage(f, k);
    if active {
      next := Filter(filtered, test);
    } else {
      next := filtered;
    }
    AddStage(ps, f, k);
  }

  /** Applying the `k`-th filter, when set, to the providers passing the first `k - 1` gives those passing `k`. */
  lemma AddStage(ps: seq<Provider>, f: Filters, k: nat)
    requires 1 <= k <= 5
    ensures Stage(f, k).0 ==> Filter(Filter(ps, Passing(f, k - 1)), Stage(f, k).1) == Filter(ps, Passing(f, k))
    ensures !Stage(f, k).0 ==> Filter(ps, Passing(f, k - 1)) == Filter(ps, Passing(f, k))
  {
    var (active, test) := Stage(f, k);
    if active {
      FilterThen(ps, Passing(f, k - 1), test, Passing(f, k));
    } else {
      FilterCongruent(ps, Passing(f, k - 1), Passing(f, k));
    }
  }

  // ---------------------------------------------------------------------------
  // Lookup by id
  // ---------------------------------------------------------------------------

  /** `ps.find(p => p.Id === id)`: the first provider carrying `id`, if any. */
  function FindById(ps: seq<Provider>, id: int): (r: Option<Provider>)
    ensures r.Some? ==> exists k :: 0 <= k < |ps| && ps[k] == r.value && ps[k].id == id
                                    && forall j :: 0 <= j < k ==> ps[j].id != id
    ensures r.None? ==> forall j :: 0 <= j < |ps| ==> ps[j].id != id
  {
    if ps == [] then None
    else if ps[0].id == id then Some(ps[0])
    else
      var r := FindById(ps[1..], id);
      if r.Some? then
        var k :| 0 <= k < |ps[1..]| && ps[1..][k] == r.value && ps[1..][k].id == id
                 && forall j :: 0 <= j < k ==> ps[1..][j].id != id;
        assert ps[k + 1] == r.value && forall j :: 0 <= j < k + 1 ==> ps[j].id != id;
        r
      else
        r
  }

  // ---------------------------------------------------------------------------
  // Symptom search
  // ---------------------------------------------------------------------------

  datatype SymptomEntry = SymptomEntry(keyword: string, specialties: seq<string>)

  /** The fixed keyword table of `searchBySymptoms`, keywords in lower case. */
  const SymptomMap: seq<SymptomEntry> := [
    SymptomEntry("chronic pain", ["Functional Medicine", "Chiropractic Care", "Acupuncture"]),
    SymptomEntry("back pain", ["Chiropractic Care", "Massage Therapy"]),
    SymptomEntry("headaches", ["Functional Medicine", "Acupuncture", "Chiropractic Care"]),
    SymptomEntry("fatigue", ["Functional Medicine", "Naturopathic Medicine"]),
    SymptomEntry("digestive issues", ["Functional Medicine", "Naturopathic Medicine", "Traditional Chinese Medicine"]),
    SymptomEntry("anxiety", ["Health Coaching", "Naturopathic Medicine", "Acupuncture"]),
    SymptomEntry("hormone imbalance", ["Naturopathic Medicine", "Functional Medicine"]),
    SymptomEntry("autoimmune", ["Functional Medicine", "Naturopathic Medicine"]),
    SymptomEntry("fibromyalgia", ["Functional Medicine", "Massage Therapy", "Acupuncture"]),
    SymptomEntry("arthritis", ["Acupuncture", "Chiropractic Care", "Functional Medicine"])
  ]

  function Elements(s: seq<string>): set<string> {
    set x | x in s
  }

  /** The statement, lower-cased, contains the entry's keyword. */
  predicate KeywordIn(statement: string, e: SymptomEntry) {
    Includes(Lower(statement), e.keyword)
  }

  /** The specialties of the entries whose keyword occurs in one statement. */
  function SpecialtiesFor(statement: string, entries: seq<SymptomEntry>): set<string> {
    if entries == [] then {}
    else
      var e := entries[|entries| - 1];
      SpecialtiesFor(statement, entries[..|entries| - 1])
        + (if KeywordIn(statement, e) then Elements(e.specialties) else {})
  }

  lemma ElementsStep(s: seq<string>, k: nat)
    requires k < |s|
    ensures Elements(s[..k + 1]) == Elements(s[..k]) + {s[k]}
  {
    assert s[..k + 1] == s[..k] + [s[k]];
  }

  lemma SpecialtiesForStep(statement: string, entries: seq<SymptomEntry>, j: nat)
    requires j < |entries|
    ensures SpecialtiesFor(statement, entries[..j + 1]) == SpecialtiesFor(statement, entries[..j])
      + (if KeywordIn(statement, entries[j]) then Elements(entries[j].specialties) else {})
  {
    assert entries[..j + 1][..j] == entries[..j];
  }

  /** The specialties relevant to a whole conversation, statement by statement. */
  function Inferred(statements: seq<string>): set<string> {
    if statements == [] then {}
    else Inferred(statements[..|statements| - 1]) + SpecialtiesFor(statements[|statements| - 1], SymptomMap)
  }

  /** Adds every specialty of one table entry to the set being built. */
  method AddAll(relevant: set<string>, specialties: seq<string>) returns (grown: set<string>)
    ensures grown == relevant + Elements(specialties)
  {
    grown := relevant;
    var k := 0;
    while k < |specialties|
      invariant 0 <= k <= |specialties|
      invariant grown == relevant + Elements(specialties[..k])
    {
      ElementsStep(specialties, k);
      grown := grown + {specialties[k]};
      k := k + 1;
    }
    assert specialties[..k] == specialties;
  }

  /** The work done for one statement: it is lower-cased once and checked against every keyword. */
  method CollectFor(symptom: string, relevant: set<string>) returns (grown: set<string>)
    ensures grown == relevant + SpecialtiesFor(symptom, SymptomMap)
  {
    var lowerSymptom := Lower(symptom);
    grown := relevant;
    var j := 0;
    while j < |SymptomMap|
      invariant 0 <= j <= |SymptomMap|
      invariant grown == relevant + SpecialtiesFor(symptom, SymptomMap[..j])
    {
      var entry := SymptomMap[j];
      SpecialtiesForStep(symptom, SymptomMap, j);
      if Includes(lowerSymptom, entry.keyword) {
        grown := AddAll(grown, entry.specialties);
      }
      j := j + 1;
    }
    assert SymptomMap[..j] == SymptomMap;
  }

  /** Some specialty of `p` contains some relevant specialty; unlike `getAll`, case matters. */
  predicate MentionsAny(p: Provider, relevant: set<string>) {
    exists s, r :: s in p.specialty && r in relevant && Includes(s, r)
  }

  function Mentioning(relevant: set<string>): Provider -> bool {
    p => MentionsAny(p, relevant)
  }

  /** What `searchBySymptoms(statements)` returns; a conversation that hits no keyword keeps everyone. */
  function SymptomMatches(ps: seq<Provider>, statements: seq<string>): seq<Provider> {
    var relevant := Inferred(statements);
    if relevant == {} then ps else Filter(ps, Mentioning(relevant))
  }

  // ---------------------------------------------------------------------------
  // Featured
  // ---------------------------------------------------------------------------

  const FeaturedRating: real := 4.8

  predicate IsFeatured(p: Provider) {
    p.rating >= FeaturedRating
  }

  // ---------------------------------------------------------------------------
  // The service
  // ---------------------------------------------------------------------------

  class ProviderService {
    /** The service's own copy of the provider records; no query changes it. */
    var providers: seq<Provider>

    constructor (data: seq<Provider>)
      ensures providers == data
    {
      providers := data;
    }

    /** `getAll(filters)`: the filters are applied one after another, each only when set. */
    method GetAll(f: Filters) returns (r: seq<Provider>)
      ensures r == Query(providers, f)
    {
      var filtered := providers;
      FilterKeepsAll(providers, Passing(f, 0));
      filtered := Narrow(providers, filtered, f, 1);
      filtered := Narrow(providers, filtered, f, 2);
      filtered := Narrow(providers, filtered, f, 3);
      filtered := Narrow(providers, filtered, f, 4);
      filtered := Narrow(providers, filtered, f, 5);
      FilterCongruent(providers, Passing(f, 5), Matching(f));
      r := filtered;
    }

    /**
      `getById(id)`: the id text is read with `parseInt` and the first provider carrying
      that number is returned (as a copy); text that does not parse finds nothing.
    */
    function GetById(id: string): (r: Option<Provider>)
      reads this
      ensures ParseInt(id).None? ==> r.None?
      ensures r.Some? ==> r.value in providers && ParseInt(id) == Some(r.value.id)
      ensures r.None? && ParseInt(id).Some? ==> forall p :: p in providers ==> p.id != ParseInt(id).value
    {
      match ParseInt(id)
      case None => None
      case Some(n) => FindById(providers, n)
    }

    /**
      `searchBySymptoms(symptoms)`: every statement is lower-cased and checked against
      every keyword of the table, and the specialties of each hit are collected.
    */
    method SearchBySymptoms(symptoms: seq<string>) returns (r: seq<Provider>)
      ensures r == SymptomMatches(providers, symptoms)
    {
      var relevant: set<string> := {};
      var i := 0;
      while i < |symptoms|
        invariant 0 <= i <= |symptoms|
        invariant relevant == Inferred(symptoms[..i])
      {
        relevant := CollectFor(symptoms[i], relevant);
        assert symptoms[..i + 1][..i] == symptoms[..i];
        i := i + 1;
      }
      assert symptoms[..i] == symptoms;

      if relevant == {} {
        r := providers;
      } else {
        r := Filter(providers, Mentioning(relevant));
      }
    }

    /** `getFeatured()`: the providers rated 4.8 or more, in stored order. */
    function GetFeatured(): (r: seq<Provider>)
      reads this
      ensures IsSelection(r, providers, IsFeatured)
    {
      FilterIsSelection(providers, IsFeatured);
      Filter(providers, IsFeatured)
    }
  }

  // ---------------------------------------------------------------------------
  // Properties of getAll
  // ---------------------------------------------------------------------------

  /** With no filter set, the listing is every stored provider in stored order. */
  lemma QueryNoFilters(ps: seq<Provider>)
    ensures Query(ps, NoFilters) == ps
  {
    FilterKeepsAll(ps, Matching(NoFilters));
  }

  /** A provider is listed exactly when it is stored and passes every active filter. */
  lemma QueryMembership(ps: seq<Provider>, f: Filters, p: Provider)
    ensures p in Query(ps, f) <==>
      p in ps && SpecialtyOk(f, p) && LocationOk(f, p) && InsuranceOk(f, p) && RatingOk(f, p) && SearchOk(f, p)
  {
    FilterMembership(ps, Matching(f), p);
  }

  /**
    The listing is the stored providers that pass the filters, in stored order: each
    listed provider sits at a stored position, positions increase, and every stored
    position that passes is used.
  */
  lemma QueryIsSelection(ps: seq<Provider>, f: Filters)
    ensures IsSelection(Query(ps, f), ps, Matching(f))
  {
    FilterIsSelection(ps, Matching(f));
  }

  /** Running the same query on its own result changes nothing. */
  lemma QueryIdempotent(ps: seq<Provider>, f: Filters)
    ensures Query(Query(ps, f), f) == Query(ps, f)
  {
    FilterIdempotent(ps, Matching(f));
  }

  function LowerAll(ws: seq<string>): seq<string> {
    seq(|ws|, i requires 0 <= i < |ws| => Lower(ws[i]))
  }

  /** Two filter records that differ only in the case of their text. */
  predicate SameUpToCase(f: Filters, g: Filters) {
    && LowerAll(f.specialty) == LowerAll(g.specialty)
    && Lower(f.location) == Lower(g.location)
    && LowerAll(f.insurance) == LowerAll(g.insurance)
    && f.minRating == g.minRating
    && Lower(f.search) == Lower(g.search)
  }

  lemma AnyIncludesUpToCase(entries: seq<string>, wanted: seq<string>, wanted': seq<string>)
    requires LowerAll(wanted) == LowerAll(wanted')
    ensures AnyIncludes(entries, wanted) <==> AnyIncludes(entries, wanted')
  {
    assert |wanted| == |LowerAll(wanted)| == |wanted'|;
    if AnyIncludes(entries, wanted) {
      var e, w :| e in entries && w in wanted && IncludesIgnoringCase(e, w);
      var i :| 0 <= i < |wanted| && wanted[i] == w;
      assert LowerAll(wanted)[i] == LowerAll(wanted')[i];
      assert wanted'[i] in wanted' && IncludesIgnoringCase(e, wanted'[i]);
    }
    if AnyIncludes(entries, wanted') {
      var e, w :| e in entries && w in wanted' && IncludesIgnoringCase(e, w);
      var i :| 0 <= i < |wanted'| && wanted'[i] == w;
      assert LowerAll(wanted)[i] == LowerAll(wanted')[i];
      assert wanted[i] in wanted && IncludesIgnoringCase(e, wanted[i]);
    }
  }

  /** Every text comparison of `getAll` ignores case: filters equal up to case list the same providers. */
  lemma QueryIgnoresCase(ps: seq<Provider>, f: Filters, g: Filters)
    requires SameUpToCase(f, g)
    ensures Query(ps, f) == Query(ps, g)
  {
    assert |f.specialty| == |LowerAll(f.specialty)| == |g.specialty|;
    assert |f.insurance| == |LowerAll(f.insurance)| == |g.insurance|;
    assert |f.location| == |Lower(f.location)| == |g.location|;
    assert |f.search| == |Lower(f.search)| == |g.search|;
    forall i | 0 <= i < |ps| ensures Matching(f)(ps[i]) == Matching(g)(ps[i]) {
      AnyIncludesUpToCase(ps[i].specialty, f.specialty, g.specialty);
      AnyIncludesUpToCase(ps[i].insurance, f.insurance, g.insurance);
    }
    FilterCongruent(ps, Matching(f), Matching(g));
  }

  lemma AcupunctureLower()
    ensures Lower("ACUPUNCTURE") == Lower("Acupuncture") == Lower("acupuncture") == "acupuncture"
  {
    LowerKeeps("acupuncture");
    LowerKeeps("cupuncture");
    LowerAppend("A", "cupuncture");
  }

  /** Searching "ACUPUNCTURE" and "acupuncture" gives the same listing. */
  lemma SearchCaseExample(ps: seq<Provider>)
    ensures Query(ps, NoFilters.(search := "ACUPUNCTURE")) == Query(ps, NoFilters.(search := "acupuncture"))
  {
    AcupunctureLower();
    QueryIgnoresCase(ps, NoFilters.(search := "ACUPUNCTURE"), NoFilters.(search := "acupuncture"));
  }

  // ---------------------------------------------------------------------------
  // Properties of getById
  // ---------------------------------------------------------------------------

  /** Looking up the decimal rendering of a stored provider's id finds a provider with that id. */
  lemma GetByIdFindsRenderedId(svc: ProviderService, p: Provider)
    requires p in svc.providers
    ensures svc.GetById(Decimal(p.id)).Some?
    ensures svc.GetById(Decimal(p.id)).value.id == p.id
  {
    ParseIntReadsDecimal(p.id, []);
    assert Decimal(p.id) + [] == Decimal(p.id);
  }

  // ---------------------------------------------------------------------------
  // Properties of searchBySymptoms
  // ---------------------------------------------------------------------------

  lemma {:induction false} SpecialtiesForMembership(statement: string, entries: seq<SymptomEntry>, sp: string)
    ensures sp in SpecialtiesFor(statement, entries) <==>
      exists j :: 0 <= j < |entries| && KeywordIn(statement, entries[j]) && sp in entries[j].specialties
  {
    if entries != [] {
      var last := |entries| - 1;
      SpecialtiesForMembership(statement, entries[..last], sp);
      if sp in SpecialtiesFor(statement, entries[..last]) {
        var j :| 0 <= j < last && KeywordIn(statement, entries[..last][j]) && sp in entries[..last][j].specialties;
        assert entries[j] == entries[..last][j];
      }
      if exists j :: 0 <= j < |entries| && KeywordIn(statement, entries[j]) && sp in entries[j].specialties {
        var j :| 0 <= j < |entries| && KeywordIn(statement, entries[j]) && sp in entries[j].specialties;
        if j < last {
          assert entries[..last][j] == entries[j];
        }
      }
    }
  }

  /** A specialty is inferred exactly when one of the statements alone infers it. */
  lemma {:induction false} InferredMembership(statements: seq<string>, sp: string)
    ensures sp in Inferred(statements) <==>
      exists i :: 0 <= i < |statements| && sp in SpecialtiesFor(statements[i], SymptomMap)
  {
    if statements != [] {
      var last := |statements| - 1;
      var earlier := statements[..last];
      InferredMembership(earlier, sp);
      if sp in Inferred(earlier) {
        var i :| 0 <= i < |earlier| && sp in SpecialtiesFor(earlier[i], SymptomMap);
        assert statements[i] == earlier[i];
      }
      if exists i :: 0 <= i < |statements| && sp in SpecialtiesFor(statements[i], SymptomMap) {
        var i :| 0 <= i < |statements| && sp in SpecialtiesFor(statements[i], SymptomMap);
        if i < last {
          assert earlier[i] == statements[i];
        }
      }
    }
  }

  /**
    A specialty is inferred exactly when some statement, lower-cased, contains a keyword
    of the table that maps to it.
  */
  lemma InferredFromKeywords(statements: seq<string>, sp: string)
    ensures sp in Inferred(statements) <==>
      exists i, j :: 0 <= i < |statements| && 0 <= j < |SymptomMap|
        && KeywordIn(statements[i], SymptomMap[j]) && sp in SymptomMap[j].specialties
  {
    InferredMembership(statements, sp);
    forall i | 0 <= i < |statements| {
      SpecialtiesForMembership(statements[i], SymptomMap, sp);
    }
  }

  /**
    The symptom search either keeps every provider (no keyword hit) or keeps, in stored
    order, exactly those with a specialty containing an inferred specialty.
  */
  lemma SymptomMatchesSelects(ps: seq<Provider>, statements: seq<string>, p: Provider)
    ensures Inferred(statements) == {} ==> SymptomMatches(ps, statements) == ps
    ensures Inferred(statements) != {} ==>
      IsSelection(SymptomMatches(ps, statements), ps, Mentioning(Inferred(statements)))
    ensures Inferred(statements) != {} ==>
      (p in SymptomMatches(ps, statements) <==> p in ps && MentionsAny(p, Inferred(statements)))
  {
    if Inferred(statements) != {} {
      FilterIsSelection(ps, Mentioning(Inferred(statements)));
      FilterMembership(ps, Mentioning(Inferred(statements)), p);
    }
  }

  const ShortestKeyword := 7

  lemma KeywordLengths()
    ensures forall j :: 0 <= j < |SymptomMap| ==> |SymptomMap[j].keyword| >= ShortestKeyword
  {
  }

  /** Statements shorter than every keyword infer nothing, so the search returns every provider. */
  lemma ShortStatementsFailOpen(ps: seq<Provider>, statements: seq<string>)
    requires forall i :: 0 <= i < |statements| ==> |statements[i]| < ShortestKeyword
    ensures Inferred(statements) == {}
    ensures SymptomMatches(ps, statements) == ps
  {
    KeywordLengths();
    forall i, j | 0 <= i < |statements| && 0 <= j < |SymptomMap|
      ensures !KeywordIn(statements[i], SymptomMap[j])
    {
      LongerNeedle(Lower(statements[i]), SymptomMap[j].keyword);
    }
    forall sp ensures sp !in Inferred(statements) {
      InferredFromKeywords(statements, sp);
    }
  }

  lemma FatigueLower()
    ensures Lower("Fatigue") == "fatigue"
  {
    LowerKeeps("atigue");
    LowerAppend("F", "atigue");
  }

  lemma FatigueMissesLonger(j: nat)
    requires j < |SymptomMap| && j != 3 && j != 5
    ensures !KeywordIn("Fatigue", SymptomMap[j])
  {
    FatigueLower();
    KeywordLengths();
    LongerNeedle("fatigue", SymptomMap[j].keyword);
  }

  /** Of the whole table, "Fatigue" hits only the keyword "fatigue": it is matched whatever its case. */
  lemma FatigueHits(j: nat)
    requires j < |SymptomMap|
    ensures KeywordIn("Fatigue", SymptomMap[j]) <==> j == 3
  {
    FatigueLower();
    if j == 3 {
      FoundAt("fatigue", SymptomMap[3].keyword, 0);
    } else if j == 5 {
      MissingChar("fatigue", SymptomMap[5].keyword, 'x');
    } else {
      FatigueMissesLonger(j);
    }
  }

  /** One statement infers exactly the specialties of the keywords it contains. */
  lemma SingleStatement(statement: string)
    ensures Inferred([statement]) == SpecialtiesFor(statement, SymptomMap)
  {
    assert [statement][..0] == [];
  }

  /**
    A statement that contains exactly one keyword of the table infers exactly the
    specialties listed under that keyword.
  */
  lemma OneKeywordInference(statement: string, hit: nat)
    requires hit < |SymptomMap|
    requires forall j :: 0 <= j < |SymptomMap| ==> (KeywordIn(statement, SymptomMap[j]) <==> j == hit)
    ensures Inferred([statement]) == Elements(SymptomMap[hit].specialties)
  {
    SingleStatement(statement);
    forall sp ensures sp in Inferred([statement]) <==> sp in SymptomMap[hit].specialties {
      SpecialtiesForMembership(statement, SymptomMap, sp);
    }
  }

  /**
    The statement "Fatigue" infers exactly the specialties the table lists under "fatigue"
    (Functional Medicine and Naturopathic Medicine), and nothing from any other keyword.
  */
  lemma FatigueInference()
    ensures Inferred(["Fatigue"]) == Elements(SymptomMap[3].specialties)
  {
    forall j | 0 <= j < |SymptomMap| ensures KeywordIn("Fatigue", SymptomMap[j]) <==> j == 3 {
      FatigueHits(j);
    }
    OneKeywordInference("Fatigue", 3);
  }

  lemma ChronicPainLower()
    ensures Lower("I have chronic pain") == "i have chronic pain"
  {
    LowerKeeps(" have chronic pain");
    LowerAppend("I", " have chronic pain");
  }

  /** "I have chronic pain" contains the keyword "chronic pain", at position 7 once lower-cased. */
  lemma ChronicPainFound()
    ensures KeywordIn("I have chronic pain", SymptomMap[0])
  {
    ChronicPainLower();
    FoundAt("i have chronic pain", SymptomMap[0].keyword, 7);
  }

  /** The lower-cased "I have chronic pain" lacks each of the letters b, d, f, m, t, u and x. */
  lemma ChronicPainLacks(c: char)
    requires c in "bdfmtux"
    ensures c !in Lower("I have chronic pain")
  {
    ChronicPainLower();
  }

  /** "I have chronic pain" misses every keyword after the first: each has a letter the statement lacks. */
  lemma ChronicPainMisses(j: nat)
    requires 1 <= j < |SymptomMap|
    ensures !KeywordIn("I have chronic pain", SymptomMap[j])
  {
    var c := if j == 1 then 'b' else if j == 2 || j == 4 then 'd' else if j == 3 || j == 8 then 'f'
      else if j == 5 then 'x' else if j == 6 then 'm' else if j == 7 then 'u' else 't';
    ChronicPainLacks(c);
    MissingChar(Lower("I have chronic pain"), SymptomMap[j].keyword, c);
  }

  /**
    "I have chronic pain" infers exactly Functional Medicine, Chiropractic Care and
    Acupuncture, the specialties listed under "chronic pain".
  */
  lemma ChronicPainInference()
    ensures Inferred(["I have chronic pain"]) == Elements(SymptomMap[0].specialties)
  {
    forall j | 0 <= j < |SymptomMap| ensures KeywordIn("I have chronic pain", SymptomMap[j]) <==> j == 0 {
      if j == 0 {
        ChronicPainFound();
      } else {
        ChronicPainMisses(j);
      }
    }
    OneKeywordInference("I have chronic pain", 0);
  }


  /**
    The symptom search compares specialties case-sensitively: a provider listed under
    "acupuncture" in lower case is not matched by the inferred "Acupuncture".
  */
  lemma SymptomSearchIsCaseSensitive(p: Provider)
    requires p.specialty == ["acupuncture"]
    ensures !MentionsAny(p, {"Acupuncture"})
  {
    MissingChar("acupuncture", "Acupuncture", 'A');
  }

  /** The specialty filter of `getAll` does match that provider, since it ignores case. */
  lemma SpecialtyFilterIgnoresCase(p: Provider)
    requires p.specialty == ["acupuncture"]
    ensures SpecialtyOk(NoFilters.(specialty := ["Acupuncture"]), p)
  {
    AcupunctureLower();
    FoundAt("acupuncture", "acupuncture", 0);
    assert IncludesIgnoringCase(p.specialty[0], "Acupuncture");
  }

  // ---------------------------------------------------------------------------
  // Properties of getFeatured
  // ---------------------------------------------------------------------------

  /** The threshold is inclusive: a stored provider rated exactly 4.8 is featured, one rated 4.79999 is not. */
  lemma FeaturedBoundary(svc: ProviderService, p: Provider)
    requires p in svc.providers
    ensures p.rating == 4.8 ==> p in svc.GetFeatured()
    ensures p.rating == 4.79999 ==> p !in svc.GetFeatured()
  {
    SelectionMembership(svc.GetFeatured(), svc.providers, IsFeatured, p);
  }
}
