/**
 * The five-day forecast strip: `getDailyForecasts` groups the forecast samples
 * that lie at or after the start of tomorrow by calendar day and keeps the
 * middle sample of each of the first five days.
 *
 * The clock and the time zone are parameters: `tomorrowTs` is the Unix time of
 * the next local midnight, and `dayKey` maps a Unix time to its local calendar
 * day (the role `toDateString()` plays in the source).  The dictionary the
 * source fills is a map from day to samples together with the sequence of its
 * keys in insertion order, the order `Object.values` reports string keys in.
 */
module Forecast {

  /** One entry of a forecast condition list. */
  datatype Condition = Condition(main: string)

  /** One forecast sample: a Unix timestamp and the readings for that time. */
  datatype Sample = Sample(
    dt: int,
    temp: real,
    feelsLike: real,
    humidity: real,
    weather: seq<Condition>,
    windSpeed: real,
    pop: real)

  /** The forecast payload: samples in the order the provider sent them. */
  datatype ForecastData = ForecastData(list: seq<Sample>)

  function Min(a: int, b: int): int
  {
    if a <= b then a else b
  }

  // ---------------------------------------------------------------------------
  // The specification: filter, first-seen day keys, groups, middles, first five.
  // Each sequence function is defined from the end, the way the loop grows it.
  // ---------------------------------------------------------------------------

  /** The samples at or after the boundary, in input order. */
  function Upcoming(list: seq<Sample>, tomorrowTs: int): (f: seq<Sample>)
    ensures |f| <= |list|
  {
    if list == [] then []
    else
      var init := Upcoming(list[..|list| - 1], tomorrowTs);
      var last := list[|list| - 1];
      if last.dt >= tomorrowTs then init + [last] else init
  }

  /** The days of the samples of `f`, each once, in the order they are first seen. */
  function DayKeys<K(==)>(f: seq<Sample>, dayKey: int -> K): (ks: seq<K>)
    ensures |ks| <= |f|
  {
    if f == [] then []
    else
      var ks := DayKeys(f[..|f| - 1], dayKey);
      var day := dayKey(f[|f| - 1].dt);
      if day in ks then ks else ks + [day]
  }

  /** The samples of `f` that fall on day `k`, in input order. */
  function Group<K(==)>(f: seq<Sample>, dayKey: int -> K, k: K): (g: seq<Sample>)
    ensures |g| <= |f|
  {
    if f == [] then []
    else
      var last := f[|f| - 1];
      Group(f[..|f| - 1], dayKey, k) + (if dayKey(last.dt) == k then [last] else [])
  }

  /** Some sample of `f` falls on day `k`. */
  ghost predicate HasDay<K>(f: seq<Sample>, dayKey: int -> K, k: K)
  {
    exists i :: 0 <= i < |f| && dayKey(f[i].dt) == k
  }

  /** The representative of a day: the sample at index floor(n / 2) of its n samples. */
  function Middle(g: seq<Sample>): (s: Sample)
    requires g != []
    ensures s in g
  {
    g[|g| / 2]
  }

  /** `.slice(0, 5)`: the first five elements, or all of them when there are fewer. */
  function FirstFive<T>(s: seq<T>): (r: seq<T>)
    ensures |r| == Min(5, |s|)
    ensures forall i :: 0 <= i < |r| ==> r[i] == s[i]
  {
    if |s| <= 5 then s else s[..5]
  }

  // ---------------------------------------------------------------------------
  // What the filter, the day keys and the groups are.
  // ---------------------------------------------------------------------------

  /** The filter keeps exactly the samples at or after the boundary (the boundary included). */
  lemma {:induction false} UpcomingMembers(list: seq<Sample>, tomorrowTs: int)
    ensures forall s :: s in Upcoming(list, tomorrowTs) <==> s in list && s.dt >= tomorrowTs
  {
    if list != [] {
      var init := list[..|list| - 1];
      UpcomingMembers(init, tomorrowTs);
      assert list == init + [list[|list| - 1]];
    }
  }

  /** Filtering a concatenation filters each part. */
  lemma {:induction false} UpcomingAppend(a: seq<Sample>, b: seq<Sample>, tomorrowTs: int)
    ensures Upcoming(a + b, tomorrowTs) == Upcoming(a, tomorrowTs) + Upcoming(b, tomorrowTs)
  {
    if b == [] {
      assert a + b == a;
    } else {
      var init := b[..|b| - 1];
      UpcomingAppend(a, init, tomorrowTs);
      assert (a + b)[..|a + b| - 1] == a + init;
    }
  }

  /** Every day of a sample of `f` is among the day keys. */
  lemma {:induction false} DayKeysComplete<K>(f: seq<Sample>, dayKey: int -> K)
    ensures forall i :: 0 <= i < |f| ==> dayKey(f[i].dt) in DayKeys(f, dayKey)
  {
    if f != [] {
      var init := f[..|f| - 1];
      DayKeysComplete(init, dayKey);
      forall i | 0 <= i < |f| ensures dayKey(f[i].dt) in DayKeys(f, dayKey) {
        if i < |init| {
          assert f[i] == init[i];
        }
      }
    }
  }

  /** Every day key is the day of some sample of `f`. */
  lemma {:induction false} DayKeysSound<K>(f: seq<Sample>, dayKey: int -> K)
    ensures forall j :: 0 <= j < |DayKeys(f, dayKey)| ==> HasDay(f, dayKey, DayKeys(f, dayKey)[j])
  {
    if f != [] {
      var init := f[..|f| - 1];
      var ks := DayKeys(init, dayKey);
      DayKeysSound(init, dayKey);
      forall j | 0 <= j < |ks| ensures HasDay(f, dayKey, ks[j]) {
        var i :| 0 <= i < |init| && dayKey(init[i].dt) == ks[j];
        assert f[i] == init[i];
      }
      assert HasDay(f, dayKey, dayKey(f[|f| - 1].dt));
    }
  }

  /** No day appears twice among the day keys. */
  lemma {:induction false} DayKeysDistinct<K>(f: seq<Sample>, dayKey: int -> K)
    ensures forall i, j :: 0 <= i < j < |DayKeys(f, dayKey)| ==>
      DayKeys(f, dayKey)[i] != DayKeys(f, dayKey)[j]
  {
    if f != [] {
      DayKeysDistinct(f[..|f| - 1], dayKey);
    }
  }

  /**
   * The day keys come in order of first appearance: for an earlier key and a
   * later one, every sample of the later day is preceded by a sample of the
   * earlier day.
   */
  ghost predicate FirstSeenOrder<K>(f: seq<Sample>, dayKey: int -> K, ks: seq<K>)
  {
    forall i, j, q :: 0 <= i < j < |ks| && 0 <= q < |f| && dayKey(f[q].dt) == ks[j] ==>
      exists p :: 0 <= p < q && dayKey(f[p].dt) == ks[i]
  }

  /** A sample of a day already seen keeps the first-seen order. */
  lemma FirstSeenKnownDay<K>(init: seq<Sample>, x: Sample, dayKey: int -> K, ks: seq<K>)
    requires FirstSeenOrder(init, dayKey, ks)
    requires forall j :: 0 <= j < |ks| ==> HasDay(init, dayKey, ks[j])
    requires dayKey(x.dt) in ks
    ensures FirstSeenOrder(init + [x], dayKey, ks)
  {
    var f := init + [x];
    forall i, j, q | 0 <= i < j < |ks| && 0 <= q < |f| && dayKey(f[q].dt) == ks[j]
      ensures exists p :: 0 <= p < q && dayKey(f[p].dt) == ks[i]
    {
      var q' := q;
      if q == |init| {
        // the day's first sample lies in init
        q' :| 0 <= q' < |init| && dayKey(init[q'].dt) == ks[j];
      }
      assert dayKey(init[q'].dt) == ks[j];
      var p :| 0 <= p < q' && dayKey(init[p].dt) == ks[i];
      assert f[p] == init[p];
    }
  }

  /** A sample of a new day, appended as the last key, keeps the first-seen order. */
  lemma FirstSeenNewDay<K>(init: seq<Sample>, x: Sample, dayKey: int -> K, ks: seq<K>)
    requires FirstSeenOrder(init, dayKey, ks)
    requires forall j :: 0 <= j < |ks| ==> HasDay(init, dayKey, ks[j])
    requires forall i :: 0 <= i < |init| ==> dayKey(init[i].dt) in ks
    requires dayKey(x.dt) !in ks
    ensures FirstSeenOrder(init + [x], dayKey, ks + [dayKey(x.dt)])
  {
    var f := init + [x];
    var ks' := ks + [dayKey(x.dt)];
    forall i, j, q | 0 <= i < j < |ks'| && 0 <= q < |f| && dayKey(f[q].dt) == ks'[j]
      ensures exists p :: 0 <= p < q && dayKey(f[p].dt) == ks'[i]
    {
      if j < |ks| {
        // the last sample is not of an old day
        assert q < |init| && f[q] == init[q];
        assert dayKey(init[q].dt) == ks[j];
        var p :| 0 <= p < q && dayKey(init[p].dt) == ks[i];
        assert f[p] == init[p];
      } else {
        // only the last sample is of the new day; every old day has an earlier one
        if q < |init| {
          assert false;
        }
        assert HasDay(init, dayKey, ks[i]);
        var p :| 0 <= p < |init| && dayKey(init[p].dt) == ks[i];
        assert f[p] == init[p];
      }
    }
  }

  lemma {:induction false} DayKeysFirstSeen<K>(f: seq<Sample>, dayKey: int -> K)
    ensures FirstSeenOrder(f, dayKey, DayKeys(f, dayKey))
  {
    if f != [] {
      var init := f[..|f| - 1];
      var x := f[|f| - 1];
      assert f == init + [x];
      DayKeysFirstSeen(init, dayKey);
      DayKeysSound(init, dayKey);
      DayKeysComplete(init, dayKey);
      if dayKey(x.dt) in DayKeys(init, dayKey) {
        FirstSeenKnownDay(init, x, dayKey, DayKeys(init, dayKey));
      } else {
        FirstSeenNewDay(init, x, dayKey, DayKeys(init, dayKey));
      }
    }
  }

  /** A day's group holds exactly the samples of `f` on that day. */
  lemma {:induction false} GroupMembers<K>(f: seq<Sample>, dayKey: int -> K, k: K)
    ensures forall s :: s in Group(f, dayKey, k) <==> s in f && dayKey(s.dt) == k
  {
    if f != [] {
      var init := f[..|f| - 1];
      GroupMembers(init, dayKey, k);
      assert f == init + [f[|f| - 1]];
    }
  }

  /** Grouping a concatenation groups each part: a day's list keeps input order. */
  lemma {:induction false} GroupAppend<K>(a: seq<Sample>, b: seq<Sample>, dayKey: int -> K, k: K)
    ensures Group(a + b, dayKey, k) == Group(a, dayKey, k) + Group(b, dayKey, k)
  {
    if b == [] {
      assert a + b == a;
    } else {
      var init := b[..|b| - 1];
      GroupAppend(a, init, dayKey, k);
      assert (a + b)[..|a + b| - 1] == a + init;
    }
  }

  /** One sample is in a day's list once when it falls on that day, and not at all otherwise. */
  lemma GroupSingle<K>(x: Sample, dayKey: int -> K, k: K)
    ensures Group([x], dayKey, k) == if dayKey(x.dt) == k then [x] else []
  {
    assert [x][..0] == [];
  }

  /** A day has samples exactly when it is one of the day keys. */
  lemma GroupNonEmptyIffDay<K>(f: seq<Sample>, dayKey: int -> K, k: K)
    ensures Group(f, dayKey, k) != [] <==> k in DayKeys(f, dayKey)
  {
    var g := Group(f, dayKey, k);
    var ks := DayKeys(f, dayKey);
    GroupMembers(f, dayKey, k);
    DayKeysComplete(f, dayKey);
    DayKeysSound(f, dayKey);
    if g != [] {
      assert g[0] in f;
      var i :| 0 <= i < |f| && f[i] == g[0];
      assert dayKey(f[i].dt) in ks;
    }
    if k in ks {
      var j :| 0 <= j < |ks| && ks[j] == k;
      var i :| 0 <= i < |f| && dayKey(f[i].dt) == k;
      assert f[i] in g;
    }
  }

  /** Every day key has a non-empty group, so its middle sample exists. */
  lemma DayGroupsNonEmpty<K>(f: seq<Sample>, dayKey: int -> K)
    ensures forall j :: 0 <= j < |DayKeys(f, dayKey)| ==> Group(f, dayKey, DayKeys(f, dayKey)[j]) != []
  {
    var ks := DayKeys(f, dayKey);
    forall j | 0 <= j < |ks| ensures Group(f, dayKey, ks[j]) != [] {
      GroupNonEmptyIffDay(f, dayKey, ks[j]);
    }
  }

  // ---------------------------------------------------------------------------
  // The daily summary and its properties.
  // ---------------------------------------------------------------------------

  /** The daily summary: the middle sample of each of the first five upcoming days. */
  function Daily<K(==)>(list: seq<Sample>, tomorrowTs: int, dayKey: int -> K): (days: seq<Sample>)
    ensures |days| <= 5
  {
    var f := Upcoming(list, tomorrowTs);
    var ks := DayKeys(f, dayKey);
    DayGroupsNonEmpty(f, dayKey);
    FirstFive(seq(|ks|, i requires 0 <= i < |ks| => Middle(Group(f, dayKey, ks[i]))))
  }

  /** The set of distinct days among the samples at or after the boundary. */
  ghost function UpcomingDays<K>(list: seq<Sample>, tomorrowTs: int, dayKey: int -> K): set<K>
  {
    set s | s in list && s.dt >= tomorrowTs :: dayKey(s.dt)
  }

  /** The elements of a sequence, as a set. */
  ghost function Elements<K>(ks: seq<K>): set<K>
  {
    set j | 0 <= j < |ks| :: ks[j]
  }

  lemma ElementsSnoc<K>(ks: seq<K>, x: K)
    ensures Elements(ks + [x]) == Elements(ks) + {x}
  {
    forall k | k in Elements(ks) ensures k in Elements(ks + [x]) {
      var j :| 0 <= j < |ks| && ks[j] == k;
      assert (ks + [x])[j] == k;
    }
    assert (ks + [x])[|ks|] == x;
  }

  /** A sequence without repetitions has as many distinct elements as entries. */
  lemma {:induction false} DistinctCardinality<K>(ks: seq<K>)
    requires forall i, j :: 0 <= i < j < |ks| ==> ks[i] != ks[j]
    ensures |Elements(ks)| == |ks|
  {
    if ks != [] {
      var init := ks[..|ks| - 1];
      DistinctCardinality(init);
      assert ks == init + [ks[|ks| - 1]];
      ElementsSnoc(init, ks[|ks| - 1]);
      assert ks[|ks| - 1] !in Elements(init);
    }
  }

  /** The day keys are exactly the distinct upcoming days. */
  lemma DayKeysAreUpcomingDays<K>(list: seq<Sample>, tomorrowTs: int, dayKey: int -> K)
    ensures Elements(DayKeys(Upcoming(list, tomorrowTs), dayKey)) == UpcomingDays(list, tomorrowTs, dayKey)
  {
    var f := Upcoming(list, tomorrowTs);
    var ks := DayKeys(f, dayKey);
    UpcomingMembers(list, tomorrowTs);
    DayKeysSound(f, dayKey);
    DayKeysComplete(f, dayKey);
    forall k | k in Elements(ks) ensures k in UpcomingDays(list, tomorrowTs, dayKey) {
      var j :| 0 <= j < |ks| && ks[j] == k;
      var i :| 0 <= i < |f| && dayKey(f[i].dt) == k;
      assert f[i] in f;
    }
    forall k | k in UpcomingDays(list, tomorrowTs, dayKey) ensures k in Elements(ks) {
      var s :| s in list && s.dt >= tomorrowTs && dayKey(s.dt) == k;
      assert s in f;
      var i :| 0 <= i < |f| && f[i] == s;
      assert k in ks;
    }
  }

  /**
   * The summary has one entry per distinct upcoming day, up to five: empty when
   * no sample lies at or after the boundary.
   */
  lemma DailyLength<K>(list: seq<Sample>, tomorrowTs: int, dayKey: int -> K)
    ensures |Daily(list, tomorrowTs, dayKey)| == Min(5, |UpcomingDays(list, tomorrowTs, dayKey)|)
  {
    var ks := DayKeys(Upcoming(list, tomorrowTs), dayKey);
    DayKeysDistinct(Upcoming(list, tomorrowTs), dayKey);
    DistinctCardinality(ks);
    DayKeysAreUpcomingDays(list, tomorrowTs, dayKey);
  }

  /**
   * Entry `i` of the summary is the middle sample, at index floor(n / 2), of the
   * n samples of the `i`-th first-seen upcoming day; it is a sample of the input
   * and lies at or after the boundary.
   */
  lemma DailyEntries<K>(list: seq<Sample>, tomorrowTs: int, dayKey: int -> K)
    ensures var days := Daily(list, tomorrowTs, dayKey);
      var f := Upcoming(list, tomorrowTs);
      var ks := DayKeys(f, dayKey);
      forall i :: 0 <= i < |days| ==>
        && i < |ks|
        && Group(f, dayKey, ks[i]) != []
        && days[i] == Group(f, dayKey, ks[i])[|Group(f, dayKey, ks[i])| / 2]
        && dayKey(days[i].dt) == ks[i]
        && days[i] in list
        && days[i].dt >= tomorrowTs
  {
    var days := Daily(list, tomorrowTs, dayKey);
    var f := Upcoming(list, tomorrowTs);
    var ks := DayKeys(f, dayKey);
    UpcomingMembers(list, tomorrowTs);
    DayGroupsNonEmpty(f, dayKey);
    forall i | 0 <= i < |days|
      ensures dayKey(days[i].dt) == ks[i] && days[i] in list && days[i].dt >= tomorrowTs
    {
      GroupMembers(f, dayKey, ks[i]);
      assert days[i] in Group(f, dayKey, ks[i]);
    }
  }

  /** No two entries of the summary fall on the same day. */
  lemma DailyDistinctDays<K>(list: seq<Sample>, tomorrowTs: int, dayKey: int -> K)
    ensures var days := Daily(list, tomorrowTs, dayKey);
      forall i, j :: 0 <= i < j < |days| ==> dayKey(days[i].dt) != dayKey(days[j].dt)
  {
    DailyEntries(list, tomorrowTs, dayKey);
    DayKeysDistinct(Upcoming(list, tomorrowTs), dayKey);
  }

  /**
   * The summary lists days in order of first appearance among the upcoming
   * samples: a sample of a later entry's day is always preceded by a sample of
   * every earlier entry's day.
   */
  lemma DailyFirstSeenOrder<K>(list: seq<Sample>, tomorrowTs: int, dayKey: int -> K)
    ensures var days := Daily(list, tomorrowTs, dayKey);
      var f := Upcoming(list, tomorrowTs);
      forall i, j, q :: 0 <= i < j < |days| && 0 <= q < |f| && dayKey(f[q].dt) == dayKey(days[j].dt) ==>
        exists p :: 0 <= p < q && dayKey(f[p].dt) == dayKey(days[i].dt)
  {
    DailyEntries(list, tomorrowTs, dayKey);
    DayKeysFirstSeen(Upcoming(list, tomorrowTs), dayKey);
  }

  /** A sample before the boundary, wherever it sits in the input, changes nothing. */
  lemma EarlySampleIgnored<K>(a: seq<Sample>, s: Sample, b: seq<Sample>, tomorrowTs: int, dayKey: int -> K)
    requires s.dt < tomorrowTs
    ensures Daily(a + [s] + b, tomorrowTs, dayKey) == Daily(a + b, tomorrowTs, dayKey)
  {
    UpcomingAppend(a + [s], b, tomorrowTs);
    UpcomingAppend(a, [s], tomorrowTs);
    UpcomingAppend(a, b, tomorrowTs);
    assert Upcoming([s], tomorrowTs) == [];
    assert Upcoming(a + [s] + b, tomorrowTs) == Upcoming(a + b, tomorrowTs);
  }

  // ---------------------------------------------------------------------------
  // The operation itself.
  // ---------------------------------------------------------------------------

  /**
   * The day dictionary after the upcoming samples `upcoming` have been seen: its
   * keys in insertion order are the first-seen days, and each day holds that
   * day's samples in input order.
   */
  ghost predicate Buckets<K>(upcoming: seq<Sample>, dayKey: int -> K,
                             order: seq<K>, dailyData: map<K, seq<Sample>>)
  {
    && order == DayKeys(upcoming, dayKey)
    && dailyData.Keys == Elements(order)
    && (forall j :: 0 <= j < |order| ==> dailyData[order[j]] == Group(upcoming, dayKey, order[j]))
  }

  /** Appending one upcoming sample to its day's list keeps the dictionary in step. */
  lemma BucketsAdd<K>(upcoming: seq<Sample>, dayKey: int -> K,
                      order: seq<K>, dailyData: map<K, seq<Sample>>, item: Sample)
    requires Buckets(upcoming, dayKey, order, dailyData)
    ensures var day := dayKey(item.dt);
      var withDay := if day in dailyData then dailyData else dailyData[day := []];
      Buckets(upcoming + [item], dayKey,
        if day in dailyData then order else order + [day],
        withDay[day := withDay[day] + [item]])
  {
    var day := dayKey(item.dt);
    var f := upcoming + [item];
    assert f[..|f| - 1] == upcoming;
    var order' := if day in dailyData then order else order + [day];
    var withDay := if day in dailyData then dailyData else dailyData[day := []];
    var data' := withDay[day := withDay[day] + [item]];
    assert order' == DayKeys(f, dayKey);
    ElementsSnoc(order, day);
    assert data'.Keys == Elements(order');
    if day !in dailyData {
      GroupNonEmptyIffDay(upcoming, dayKey, day);
    }
    forall j | 0 <= j < |order'| ensures data'[order'[j]] == Group(f, dayKey, order'[j]) {
    }
  }

  /** Every list in a filled dictionary is non-empty. */
  lemma BucketsNonEmpty<K>(upcoming: seq<Sample>, dayKey: int -> K,
                           order: seq<K>, dailyData: map<K, seq<Sample>>)
    requires Buckets(upcoming, dayKey, order, dailyData)
    ensures forall j :: 0 <= j < |order| ==> order[j] in dailyData && dailyData[order[j]] != []
  {
    DayGroupsNonEmpty(upcoming, dayKey);
    forall j | 0 <= j < |order| ensures order[j] in dailyData {
      assert order[j] in Elements(order);
    }
  }

  /** Taking the middle of each list of the filled dictionary, then five, is the summary. */
  lemma BucketsDaily<K>(list: seq<Sample>, tomorrowTs: int, dayKey: int -> K,
                        order: seq<K>, dailyData: map<K, seq<Sample>>, middles: seq<Sample>)
    requires Buckets(Upcoming(list, tomorrowTs), dayKey, order, dailyData)
    requires |middles| == |order|
    requires forall j :: 0 <= j < |order| ==>
      order[j] in dailyData && dailyData[order[j]] != [] && middles[j] == Middle(dailyData[order[j]])
    ensures FirstFive(middles) == Daily(list, tomorrowTs, dayKey)
  {
    var f := Upcoming(list, tomorrowTs);
    var ks := DayKeys(f, dayKey);
    DayGroupsNonEmpty(f, dayKey);
    assert middles == seq(|ks|, i requires 0 <= i < |ks| => Middle(Group(f, dayKey, ks[i])));
  }

  /**
   * `getDailyForecasts`: one pass over the samples that fills the day dictionary
   * in place, then the middle of each day's list, then the first five.
   */
  method DailyForecasts<K(==)>(data: ForecastData, tomorrowTs: int, dayKey: int -> K)
    returns (days: seq<Sample>)
    ensures days == Daily(data.list, tomorrowTs, dayKey)
  {
    var list := data.list;
    var dailyData: map<K, seq<Sample>> := map[];
    var order: seq<K> := [];
    ghost var upcoming: seq<Sample> := [];
    var i := 0;
    assert list[..0] == [];
    while i < |list|
      invariant 0 <= i <= |list|
      invariant upcoming == Upcoming(list[..i], tomorrowTs)
      invariant Buckets(upcoming, dayKey, order, dailyData)
    {
      var item := list[i];
      assert list[..i + 1][..i] == list[..i];
      if item.dt >= tomorrowTs {
        var day := dayKey(item.dt);
        BucketsAdd(upcoming, dayKey, order, dailyData, item);
        if day !in dailyData {
          dailyData := dailyData[day := []];
          order := order + [day];
        }
        dailyData := dailyData[day := dailyData[day] + [item]];
        upcoming := upcoming + [item];
      }
      i := i + 1;
    }
    assert list[..|list|] == list;
    BucketsNonEmpty(upcoming, dayKey, order, dailyData);
    var middles := seq(|order|, j requires 0 <= j < |order| => Middle(dailyData[order[j]]));
    days := FirstFive(middles);
    BucketsDaily(list, tomorrowTs, dayKey, order, dailyData, middles);
  }
}
