/**
 * One run of the dashboard page (`main`), with the widgets, the charts' drawing and the
 * export left out: the run's inputs are the sidebar's values, its output is what the page
 * would show.
 */
module Dashboard {
  import opened Optional
  import opened Dates
  import opened Cases
  import opened Query
  import opened Views
  import opened Aggregates

  /** The three selectboxes' choice lists. */
  datatype Choices = Choices(logins: seq<string>, managers: seq<string>, sites: seq<string>)

  /** The data behind the seven charts of `create_dashboard`. */
  datatype Charts = Charts(
    daily: map<string, nat>,
    bySite: map<string, nat>,
    byCategory: map<string, nat>,
    meanTimeByCategory: map<string, real>,
    categoryBySite: map<(string, string), nat>,
    meanTimeByDay: map<string, real>,
    byQueue: map<string, nat>)

  /** What a run ends with: no client, an error caught by the page's handler, the "no data"
      warning, or the full page. */
  datatype Page =
    | NotConnected
    | Error(reason: string)
    | NoData(choices: Choices)
    | Shown(choices: Choices, frames: Frames, metrics: Metrics, charts: Charts)

  /** `create_dashboard`: every count chart accounts for every case exactly once, and the
      mean charts have one bar or point per category and per day. */
  function BuildCharts(full: seq<CaseRecord>): (c: Charts)
    ensures Total(c.daily) == |full| && Total(c.bySite) == |full| && Total(c.byCategory) == |full|
    ensures Total(c.categoryBySite) == |full| && Total(c.byQueue) == |full|
    ensures c.meanTimeByCategory.Keys == c.byCategory.Keys
    ensures c.meanTimeByDay.Keys == c.daily.Keys
  {
    Charts(
      DailyCounts(full),
      SiteCounts(full),
      CategoryCounts(full),
      MeanTimeByCategory(full),
      CategoryBySiteCounts(full),
      MeanTimeByDay(full),
      QueueCounts(full))
  }

  /** No cases give no bars, slices or points: every derived table is empty, none fails. */
  lemma EmptyInputEmptyCharts()
    ensures BuildCharts([]) == Charts(map[], map[], map[], map[], map[], map[], map[])
    ensures TransformData([]) == Frames([], Table([], []))
  {
  }

  /** `@st.cache_data` on `transform_data(_documents)` as the code has it: a parameter whose
      name starts with an underscore is left out of the cache key, so every call shares one
      slot. The first call fills the slot; every later call returns what the slot holds. */
  function UnkeyedTransform(slot: Option<Frames>, docs: seq<CaseRecord>): (r: (Option<Frames>, Frames))
    ensures r.0 == Some(r.1)
    ensures slot.Some? ==> r.0 == slot
    ensures slot.None? ==> r.1 == TransformData(docs)
  {
    var frames := if slot.Some? then slot.value else TransformData(docs);
    (Some(frames), frames)
  }

  /** A second run whose filters select other documents is shown the first run's frames. */
  lemma UnkeyedShowsFirstRun(d1: seq<CaseRecord>, d2: seq<CaseRecord>)
    ensures var first := UnkeyedTransform(None, d1);
            var second := UnkeyedTransform(first.0, d2);
            second.1 == TransformData(d1)
  {
  }

  /** Two one-case selections whose frames differ, so the run above shows the wrong case. */
  lemma StaleFramesExample()
    ensures var d1, d2 := ExampleRows()[..1], ExampleRows()[2..];
            var second := UnkeyedTransform(UnkeyedTransform(None, d1).0, d2);
            second.1 != TransformData(d2) && second.1.full[0].id == Str("1")
  {
    var d1, d2 := ExampleRows()[..1], ExampleRows()[2..];
    assert d1[0].id == Str("1") && d2[0].id == Str("3");
    assert TransformData(d1).full[0].id == Str("1");
    assert TransformData(d2).full[0].id == Str("3");
  }

  /** Every cached entry holds the frames of the documents it is filed under. */
  predicate CacheSound(cache: map<seq<CaseRecord>, Frames>)
  {
    forall d :: d in cache ==> cache[d] == TransformData(d)
  }

  /** The cache keyed by the documents: a hit returns what a fresh transform would, a miss
      files the fresh frames, and the cache stays sound either way. */
  function KeyedTransform(cache: map<seq<CaseRecord>, Frames>, docs: seq<CaseRecord>)
    : (r: (map<seq<CaseRecord>, Frames>, Frames))
    requires CacheSound(cache)
    ensures r.1 == TransformData(docs)
    ensures CacheSound(r.0) && docs in r.0 && cache.Keys <= r.0.Keys
  {
    if docs in cache then (cache, cache[docs])
    else
      var frames := TransformData(docs);
      (cache[docs := frames], frames)
  }

  /** `main`: connect, fill the selectboxes, build the filters, fetch, stop with a warning when
      nothing came back, otherwise transform the cases (through the keyed cache) and compute
      the metrics and charts. */
  method RunDashboard(cache: map<seq<CaseRecord>, Frames>, connection: Option<Store>,
                      start: Option<CalendarDate>, end: Option<CalendarDate>,
                      login: string, manager: string, site: string)
    returns (page: Page, cache': map<seq<CaseRecord>, Frames>)
    requires CacheSound(cache)
    ensures CacheSound(cache') && cache.Keys <= cache'.Keys
    ensures connection.None? ==> page == NotConnected
    ensures connection.Some? && connection.value.distinctFailure.Some? ==>
              page == Error(connection.value.distinctFailure.value)
    ensures connection.Some? && connection.value.distinctFailure.None? ==>
              var store := connection.value;
              var docs := if store.findFailure.Some? then [] else Select(store.cases, SidebarFilters(start, end, login, manager, site));
              && (page.NoData? || page.Shown?)
              && page.choices == Choices(SelectorOptions(store.cases, Login), SelectorOptions(store.cases, ManagerLogin),
                                         SelectorOptions(store.cases, Site))
              && (page.NoData? <==> docs == [])
              && (page.Shown? ==> page.frames == TransformData(docs) && page.metrics == ComputeMetrics(page.frames.full)
                                  && page.charts == BuildCharts(page.frames.full))
    ensures page.Shown? ==>
              && page.metrics.totalCases == |page.frames.full| == |page.frames.display.rows| > 0
              && 1 <= page.metrics.uniqueAgents <= page.metrics.totalCases
              && Total(page.charts.daily) == page.metrics.totalCases
  {
    if connection.None? {
      return NotConnected, cache;
    }
    var store := connection.value;
    if store.distinctFailure.Some? {
      return Error(store.distinctFailure.value), cache;
    }
    var choices := Choices(SelectorOptions(store.cases, Login), SelectorOptions(store.cases, ManagerLogin),
                           SelectorOptions(store.cases, Site));
    var filters := SidebarFilters(start, end, login, manager, site);
    var documents := QueryData(store, filters);
    if documents == [] {
      return NoData(choices), cache;
    }
    var cached := KeyedTransform(cache, documents);
    var frames := cached.1;
    cache' := cached.0;
    var metrics := ComputeMetrics(frames.full);
    page := Shown(choices, frames, metrics, BuildCharts(frames.full));
  }
}
