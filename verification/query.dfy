/**
 * From sidebar choices to a store query, and the fetch that runs it. The store is modelled
 * by its meaning: `find` returns, in the collection's own order, the cases every entry of
 * the query holds for, or fails.
 */
module Query {
  import opened Optional
  import opened Collation
  import opened Dates
  import opened Cases

  /** The three exact-match filters. */
  datatype Selector = Login | ManagerLogin | Site

  const Selectors: seq<Selector> := [Login, ManagerLogin, Site]

  function FieldName(s: Selector): string
  {
    match s
    case Login => "login"
    case ManagerLogin => "managerLogin"
    case Site => "site"
  }

  function SelectorValue(r: CaseRecord, s: Selector): string
  {
    match s
    case Login => r.login
    case ManagerLogin => r.managerLogin
    case Site => r.site
  }

  /** The filter dictionary handed to the fetch; a missing date or a `None` selector is
      "no constraint". */
  datatype Filters = Filters(
    startDate: Option<CalendarDate>,
    endDate: Option<CalendarDate>,
    login: Option<string>,
    managerLogin: Option<string>,
    site: Option<string>)

  function Chosen(f: Filters, s: Selector): Option<string>
  {
    match s
    case Login => f.login
    case ManagerLogin => f.managerLogin
    case Site => f.site
  }

  /** Python truth of a filter value: `None` and the empty string are false. */
  predicate Truthy(v: Option<string>)
  {
    v.Some? && v.value != ""
  }

  predicate HasDateRange(f: Filters)
  {
    f.startDate.Some? && f.endDate.Some?
  }

  /** The choice every selector list starts with, meaning "do not filter". */
  const AllChoice: string := "All"

  /** A selector's choice as it enters the filter dictionary. */
  function FromChoice(choice: string): Option<string>
  {
    if choice != AllChoice then Some(choice) else None
  }

  /** The filter dictionary built from the sidebar's widgets. */
  function SidebarFilters(start: Option<CalendarDate>, end: Option<CalendarDate>,
                          login: string, manager: string, site: string): (f: Filters)
    ensures f.startDate == start && f.endDate == end
    ensures f.login.None? <==> login == AllChoice
    ensures f.managerLogin.None? <==> manager == AllChoice
    ensures f.site.None? <==> site == AllChoice
    ensures f.login.Some? ==> f.login.value == login
    ensures f.managerLogin.Some? ==> f.managerLogin.value == manager
    ensures f.site.Some? ==> f.site.value == site
  {
    Filters(start, end, FromChoice(login), FromChoice(manager), FromChoice(site))
  }

  /** One query entry: `{'$gte': lo, '$lte': hi}` or an exact value. */
  datatype Constraint = Range(lo: string, hi: string) | Eq(v: string)

  type StoreQuery = map<string, Constraint>

  const QueryFields: set<string> := {"finishDate", "login", "managerLogin", "site"}

  /** The store's meaning of one entry on the value a document holds for that field: a
      range compares strings, inclusively at both ends; an exact match wants that string. */
  predicate Holds(c: Constraint, v: Option<Value>)
  {
    match c
    case Range(lo, hi) => v.Some? && v.value.Str? && LexLe(lo, v.value.s) && LexLe(v.value.s, hi)
    case Eq(x) => v == Some(Str(x))
  }

  /** A document matches a query when every entry holds. */
  predicate Matches(q: StoreQuery, r: CaseRecord)
  {
    forall name :: name in q ==> Holds(q[name], Get(r, name))
  }

  /** The query `query_data` builds for `f`: a `finishDate` range exactly when both dates are
      given, an exact match for each selector exactly when its value is truthy, nothing else. */
  predicate Describes(q: StoreQuery, f: Filters)
  {
    && q.Keys <= QueryFields
    && ("finishDate" in q <==> HasDateRange(f))
    && (HasDateRange(f) ==> q["finishDate"] == Range(Format(f.startDate.value), Format(f.endDate.value)))
    && (forall s :: FieldName(s) in q <==> Truthy(Chosen(f, s)))
    && (forall s :: FieldName(s) in q ==> q[FieldName(s)] == Eq(Chosen(f, s).value))
  }

  lemma SelectorsComplete(s: Selector)
    ensures s in Selectors
  {
  }

  /** Builds the query: the date range first, then one pass over the selectors. */
  method BuildQuery(f: Filters) returns (q: StoreQuery)
    ensures Describes(q, f)
  {
    q := map[];
    if f.startDate.Some? && f.endDate.Some? {
      q := q["finishDate" := Range(Format(f.startDate.value), Format(f.endDate.value))];
    }
    for i := 0 to |Selectors|
      invariant q.Keys <= QueryFields
      invariant "finishDate" in q <==> HasDateRange(f)
      invariant HasDateRange(f) ==> q["finishDate"] == Range(Format(f.startDate.value), Format(f.endDate.value))
      invariant forall j :: 0 <= j < i ==> (FieldName(Selectors[j]) in q <==> Truthy(Chosen(f, Selectors[j])))
      invariant forall j :: 0 <= j < i && FieldName(Selectors[j]) in q ==>
                  q[FieldName(Selectors[j])] == Eq(Chosen(f, Selectors[j]).value)
      invariant forall j :: i <= j < |Selectors| ==> FieldName(Selectors[j]) !in q
    {
      var field := FieldName(Selectors[i]);
      var value := Chosen(f, Selectors[i]);
      if value.Some? && value.value != "" {
        q := q[field := Eq(value.value)];
      }
    }
    forall s
      ensures FieldName(s) in q <==> Truthy(Chosen(f, s))
      ensures FieldName(s) in q ==> q[FieldName(s)] == Eq(Chosen(f, s).value)
    {
      SelectorsComplete(s);
    }
  }

  /** The query is a function of the filters: two queries that both describe `f` are equal. */
  lemma DescribesUnique(q1: StoreQuery, q2: StoreQuery, f: Filters)
    requires Describes(q1, f) && Describes(q2, f)
    ensures q1 == q2
  {
    forall name | name in q1 ensures name in q2 && q1[name] == q2[name] {
      NameInQuery(q1, f, name);
    }
    forall name | name in q2 ensures name in q1 {
      NameInQuery(q2, f, name);
    }
  }

  /** Every key of a described query is the date field or one selector's field. */
  lemma NameInQuery(q: StoreQuery, f: Filters, name: string)
    requires Describes(q, f) && name in q
    ensures name == "finishDate" || exists s :: name == FieldName(s)
  {
    if name == "login" { assert name == FieldName(Login); }
    else if name == "managerLogin" { assert name == FieldName(ManagerLogin); }
    else if name == "site" { assert name == FieldName(Site); }
  }

  /** The filters' meaning stated on the record itself, without any query. */
  predicate Admits(f: Filters, r: CaseRecord)
  {
    && (HasDateRange(f) ==> LexLe(Format(f.startDate.value), r.finishDate) && LexLe(r.finishDate, Format(f.endDate.value)))
    && (forall s :: Truthy(Chosen(f, s)) ==> SelectorValue(r, s) == Chosen(f, s).value)
  }

  lemma GetSelector(r: CaseRecord, s: Selector)
    ensures Get(r, FieldName(s)) == Some(Str(SelectorValue(r, s)))
  {
  }

  /** The built query matches a record exactly when the filters admit it. */
  lemma QueryMeaning(q: StoreQuery, f: Filters, r: CaseRecord)
    requires Describes(q, f)
    ensures Matches(q, r) <==> Admits(f, r)
  {
    if Matches(q, r) {
      if HasDateRange(f) {
        assert Holds(q["finishDate"], Get(r, "finishDate"));
      }
      forall s | Truthy(Chosen(f, s)) ensures SelectorValue(r, s) == Chosen(f, s).value {
        assert Holds(q[FieldName(s)], Get(r, FieldName(s)));
        GetSelector(r, s);
      }
    }
    if Admits(f, r) {
      forall name | name in q ensures Holds(q[name], Get(r, name)) {
        NameInQuery(q, f, name);
        if name != "finishDate" {
          var s :| name == FieldName(s);
          GetSelector(r, s);
        }
      }
    }
  }

  /** With both dates given, a case whose `finishDate` is a formatted date passes the date
      part exactly when that day lies between the two dates, both ends included. */
  lemma DateRangeIsInclusive(f: Filters, d: CalendarDate)
    requires HasDateRange(f)
    ensures LexLe(Format(f.startDate.value), Format(d)) && LexLe(Format(d), Format(f.endDate.value))
            <==> OnOrBefore(f.startDate.value, d) && OnOrBefore(d, f.endDate.value)
  {
    FormatOrder(f.startDate.value, d);
    FormatOrder(d, f.endDate.value);
  }

  /** The end date itself is in range: with only the two dates given and the start not
      after the end, a case finished on the end date matches. */
  lemma EndDayIncluded(q: StoreQuery, f: Filters, r: CaseRecord)
    requires Describes(q, f) && HasDateRange(f)
    requires forall s :: !Truthy(Chosen(f, s))
    requires OnOrBefore(f.startDate.value, f.endDate.value)
    requires r.finishDate == Format(f.endDate.value)
    ensures Matches(q, r)
  {
    QueryMeaning(q, f, r);
    DateRangeIsInclusive(f, f.endDate.value);
  }

  /** A case finished on a day after the end date never matches, whatever the selectors. */
  lemma AfterEndExcluded(q: StoreQuery, f: Filters, r: CaseRecord, d: CalendarDate)
    requires Describes(q, f) && HasDateRange(f)
    requires !OnOrBefore(d, f.endDate.value)
    requires r.finishDate == Format(d)
    ensures !Matches(q, r)
  {
    QueryMeaning(q, f, r);
    DateRangeIsInclusive(f, d);
  }

  /** With at most one date given, `finishDate` plays no part: changing it never changes
      whether a record matches. */
  lemma PartialRangeIgnored(q: StoreQuery, f: Filters, r: CaseRecord, day: string)
    requires Describes(q, f) && !HasDateRange(f)
    ensures Matches(q, r) <==> Matches(q, r.(finishDate := day))
  {
  }

  /** Choosing "All" for a selector, or an empty value, leaves its field out of the query;
      any other choice adds an exact match on it. */
  lemma SidebarChoices(q: StoreQuery, start: Option<CalendarDate>, end: Option<CalendarDate>,
                       login: string, manager: string, site: string)
    requires Describes(q, SidebarFilters(start, end, login, manager, site))
    ensures "login" in q <==> login != AllChoice && login != ""
    ensures "managerLogin" in q <==> manager != AllChoice && manager != ""
    ensures "site" in q <==> site != AllChoice && site != ""
    ensures "login" in q ==> q["login"] == Eq(login)
    ensures "managerLogin" in q ==> q["managerLogin"] == Eq(manager)
    ensures "site" in q ==> q["site"] == Eq(site)
  {
    assert "login" == FieldName(Login);
    assert "managerLogin" == FieldName(ManagerLogin);
    assert "site" == FieldName(Site);
  }

  /** Matching is conjunctive: a query that keeps every entry of another and adds more never
      matches a record the smaller one rejects; the empty query matches everything. */
  lemma MoreConstraintsMatchLess(q1: StoreQuery, q2: StoreQuery, r: CaseRecord)
    requires forall name :: name in q1 ==> name in q2 && q2[name] == q1[name]
    ensures Matches(q2, r) ==> Matches(q1, r)
    ensures Matches(map[], r)
  {
  }

  /** A store connection: the collection in its natural order, and the errors a `find` and a
      `distinct` on it raise, if any (lost connection, timeout, rejected query). */
  datatype Store = Store(cases: seq<CaseRecord>, findFailure: Option<string>, distinctFailure: Option<string>)

  datatype FindResult = Found(docs: seq<CaseRecord>) | Failed(reason: string)

  /** The cases of `cases` that match `q`, in their original order. */
  function Filter(cases: seq<CaseRecord>, q: StoreQuery): (r: seq<CaseRecord>)
    ensures |r| <= |cases|
    ensures forall x :: x in r <==> x in cases && Matches(q, x)
  {
    if cases == [] then []
    else if Matches(q, cases[0]) then [cases[0]] + Filter(cases[1..], q)
    else Filter(cases[1..], q)
  }

  /** `collection.find(query, projection)` read to the end. */
  function Find(store: Store, q: StoreQuery): FindResult
  {
    if store.findFailure.Some? then Failed(store.findFailure.value) else Found(Filter(store.cases, q))
  }

  /** The reference selection: the cases the filters admit, in collection order. */
  function Select(cases: seq<CaseRecord>, f: Filters): seq<CaseRecord>
  {
    if cases == [] then []
    else if Admits(f, cases[0]) then [cases[0]] + Select(cases[1..], f)
    else Select(cases[1..], f)
  }

  lemma {:induction false} FilterIsSelect(cases: seq<CaseRecord>, q: StoreQuery, f: Filters)
    requires Describes(q, f)
    ensures Filter(cases, q) == Select(cases, f)
  {
    if cases != [] {
      QueryMeaning(q, f, cases[0]);
      FilterIsSelect(cases[1..], q, f);
    }
  }

  /** The empty query returns the whole collection, unchanged and in order. */
  lemma {:induction false} FilterEmptyQuery(cases: seq<CaseRecord>)
    ensures Filter(cases, map[]) == cases
  {
    if cases != [] {
      FilterEmptyQuery(cases[1..]);
      assert cases == [cases[0]] + cases[1..];
    }
  }

  /** Adding constraints returns a sub-collection: each case at most as often as before. */
  lemma {:induction false} FilterNarrows(cases: seq<CaseRecord>, q1: StoreQuery, q2: StoreQuery)
    requires forall name :: name in q1 ==> name in q2 && q2[name] == q1[name]
    ensures multiset(Filter(cases, q2)) <= multiset(Filter(cases, q1))
  {
    if cases != [] {
      FilterNarrows(cases[1..], q1, q2);
      MoreConstraintsMatchLess(q1, q2, cases[0]);
    }
  }

  /** `query_data`: build the query, run it, and turn a failed fetch into an empty list. */
  method QueryData(store: Store, f: Filters) returns (docs: seq<CaseRecord>)
    ensures store.findFailure.Some? ==> docs == []
    ensures store.findFailure.None? ==> docs == Select(store.cases, f)
  {
    var q := BuildQuery(f);
    var result := Find(store, q);
    match result {
      case Found(found) =>
        FilterIsSelect(store.cases, q, f);
        docs := found;
      case Failed(_) =>
        docs := [];
    }
  }
}
