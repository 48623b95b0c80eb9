/** The history section's day table (`updateHistorySection`, lines 379-396):
    the one-day rollups of the four sensors merged into one record per
    calendar day, then the days that have a temperature, newest first. */
module History {
  import opened JsValues
  import opened DateKeys
  import opened Readings
  import opened Seasons

  /** The property `processData` writes. */
  datatype Metric = TempKey | HumKey | Pm25Key | NoiseKey

  /** `{date, temp, hum, pm25, noise}`; a property never written reads as
      `undefined`. */
  datatype DayRecord = DayRecord(date: string, temp: JsValue, hum: JsValue, pm25: JsValue, noise: JsValue)

  function Get(r: DayRecord, m: Metric): JsValue {
    match m
    case TempKey => r.temp
    case HumKey => r.hum
    case Pm25Key => r.pm25
    case NoiseKey => r.noise
  }

  /** `record[key] = v` */
  function Set(r: DayRecord, m: Metric, v: JsValue): (r': DayRecord)
    ensures r'.date == r.date
    ensures Get(r', m) == v
    ensures forall m' :: m' != m ==> Get(r', m') == Get(r, m')
  {
    match m
    case TempKey => r.(temp := v)
    case HumKey => r.(hum := v)
    case Pm25Key => r.(pm25 := v)
    case NoiseKey => r.(noise := v)
  }

  /** `{ date: dateKey }` */
  function NewDay(k: string): DayRecord {
    DayRecord(k, Undefined, Undefined, Undefined, Undefined)
  }

  lemma RecordsEqual(a: DayRecord, b: DayRecord)
    requires a.date == b.date
    requires forall m :: Get(a, m) == Get(b, m)
    ensures a == b
  {
    assert Get(a, TempKey) == Get(b, TempKey) && Get(a, HumKey) == Get(b, HumKey);
    assert Get(a, Pm25Key) == Get(b, Pm25Key) && Get(a, NoiseKey) == Get(b, NoiseKey);
  }

  /** The contents of `daysMap`: the records by date key, and the keys in the
      order they were first written. */
  datatype Table = Table(days: map<string, DayRecord>, order: seq<string>)

  /** Every record sits under its own date, and the order lists every key
      exactly once. */
  ghost predicate WellFormed(t: Table) {
    && (forall k :: k in t.days ==> t.days[k].date == k)
    && (forall i, j :: 0 <= i < j < |t.order| ==> t.order[i] != t.order[j])
    && (forall k :: k in t.days <==> k in t.order)
  }

  /** Lines 382-385: one point written into the table. */
  function Write(t: Table, p: Point, m: Metric): Table {
    if !HasTimestamp(p) then t
    else
      var k := DateKey(p.ts.value);
      var order := if k in t.days then t.order else t.order + [k];
      var rec := if k in t.days then t.days[k] else NewDay(k);
      Table(t.days[k := Set(rec, m, p.value)], order)
  }

  /** `processData(data, key)`: the points written one after the other. */
  function Process(t: Table, data: seq<Point>, m: Metric): Table
    decreases |data|
  {
    if |data| == 0 then t else Write(Process(t, data[..|data| - 1], m), data[|data| - 1], m)
  }

  /** The date keys of the points that have a timestamp. */
  function PointKeys(data: seq<Point>): (keys: set<string>)
    ensures forall k :: k in keys <==> exists j :: 0 <= j < |data| && HasTimestamp(data[j]) && DateKey(data[j].ts.value) == k
  {
    if |data| == 0 then {}
    else
      var init, last := data[..|data| - 1], data[|data| - 1];
      assert forall j :: 0 <= j < |init| ==> init[j] == data[j];
      PointKeys(init) + (if HasTimestamp(last) then {DateKey(last.ts.value)} else {})
  }

  /** The index of a point of day `k`. */
  ghost predicate OfDay(data: seq<Point>, j: int, k: string) {
    0 <= j < |data| && HasTimestamp(data[j]) && DateKey(data[j].ts.value) == k
  }

  /** The value the last point of day `k` carries; `undefined` when no point
      has that day. */
  function LastValue(data: seq<Point>, k: string): (v: JsValue)
    ensures k !in PointKeys(data) ==> v == Undefined
    ensures k in PointKeys(data) ==> exists j :: OfDay(data, j, k) && data[j].value == v && forall j' :: j < j' < |data| ==> !OfDay(data, j', k)
  {
    if |data| == 0 then Undefined
    else
      var init, last := data[..|data| - 1], data[|data| - 1];
      OfDayInit(data, k);
      if HasTimestamp(last) && DateKey(last.ts.value) == k then
        assert OfDay(data, |data| - 1, k);
        last.value
      else
        LastValue(init, k)
  }

  /** The points of day `k` before the last one are those of the prefix. */
  lemma OfDayInit(data: seq<Point>, k: string)
    requires |data| > 0
    ensures forall j :: 0 <= j < |data| - 1 ==> (OfDay(data[..|data| - 1], j, k) <==> OfDay(data, j, k))
    ensures k in PointKeys(data) <==> k in PointKeys(data[..|data| - 1]) || OfDay(data, |data| - 1, k)
  {
    var init := data[..|data| - 1];
    assert forall j :: 0 <= j < |init| ==> init[j] == data[j];
  }

  /** Processing one more point writes it into what the earlier ones gave. */
  lemma ProcessOneMore(t: Table, data: seq<Point>, i: int, m: Metric)
    requires 0 <= i < |data|
    ensures Process(t, data[..i + 1], m) == Write(Process(t, data[..i], m), data[i], m)
  {
    assert data[..i + 1][..i] == data[..i];
  }

  lemma WriteKeepsWellFormed(t: Table, p: Point, m: Metric)
    requires WellFormed(t)
    ensures WellFormed(Write(t, p, m))
  {
    if HasTimestamp(p) {
      var k := DateKey(p.ts.value);
      if k !in t.days {
        var r := Write(t, p, m);
        assert r.order == t.order + [k];
        forall i, j | 0 <= i < j < |r.order|
          ensures r.order[i] != r.order[j]
        {
          if j == |t.order| {
            assert r.order[i] == t.order[i];
          }
        }
      }
    }
  }

  /** `processData` keeps the table well formed; the keys become the old
      keys and the days of the points, an existing key keeps its place and
      the new ones come after. */
  lemma {:induction false} ProcessShape(t: Table, data: seq<Point>, m: Metric)
    requires WellFormed(t)
    ensures var r := Process(t, data, m);
      && WellFormed(r)
      && r.days.Keys == t.days.Keys + PointKeys(data)
      && |t.order| <= |r.order| && r.order[..|t.order|] == t.order
    decreases |data|
  {
    if |data| > 0 {
      var init, last := data[..|data| - 1], data[|data| - 1];
      ProcessShape(t, init, m);
      var r0 := Process(t, init, m);
      WriteKeepsWellFormed(r0, last, m);
      var r := Process(t, data, m);
      assert r == Write(r0, last, m);
      assert r.order[..|t.order|] == t.order by {
        assert r0.order[..|t.order|] == t.order;
      }
    }
  }

  /** Property `key` of a day of the points is the value of that day's last
      point; every other day keeps its value. */
  lemma {:induction false} ProcessValue(t: Table, data: seq<Point>, m: Metric)
    ensures var r := Process(t, data, m);
      && (forall k :: k in PointKeys(data) ==> k in r.days && Get(r.days[k], m) == LastValue(data, k))
      && (forall k :: k in t.days && k !in PointKeys(data) ==> k in r.days && r.days[k] == t.days[k])
    decreases |data|
  {
    if |data| > 0 {
      var init, last := data[..|data| - 1], data[|data| - 1];
      ProcessValue(t, init, m);
      var r0 := Process(t, init, m);
      var r := Process(t, data, m);
      assert r == Write(r0, last, m);
      forall k | k in PointKeys(data)
        ensures k in r.days && Get(r.days[k], m) == LastValue(data, k)
      {
        if !(HasTimestamp(last) && DateKey(last.ts.value) == k) {
          assert k in PointKeys(init);
        }
      }
    }
  }

  /** A day that was already there differs from its old record at most in
      property `key`, and a new day differs from `{ date: dateKey }` at most
      there. */
  lemma {:induction false} ProcessOthers(t: Table, data: seq<Point>, m: Metric)
    ensures var r := Process(t, data, m);
      && (forall k :: k in t.days ==> k in r.days && r.days[k] == Set(t.days[k], m, Get(r.days[k], m)))
      && (forall k :: k in r.days && k !in t.days ==> r.days[k] == Set(NewDay(k), m, Get(r.days[k], m)))
    decreases |data|
  {
    if |data| > 0 {
      var init, last := data[..|data| - 1], data[|data| - 1];
      ProcessOthers(t, init, m);
      var r0 := Process(t, init, m);
      var r := Process(t, data, m);
      assert r == Write(r0, last, m);
      if HasTimestamp(last) {
        var k := DateKey(last.ts.value);
        var rec := if k in r0.days then r0.days[k] else NewDay(k);
        assert r.days[k] == Set(rec, m, last.value);
        SetTwice(rec, m, Get(rec, m), last.value);
        if k in t.days {
          SetTwice(t.days[k], m, Get(r0.days[k], m), last.value);
        } else if k in r0.days {
          SetTwice(NewDay(k), m, Get(r0.days[k], m), last.value);
        }
      }
    }
  }

  /** Setting a property twice keeps the second value. */
  lemma SetTwice(r: DayRecord, m: Metric, v: JsValue, w: JsValue)
    ensures Set(Set(r, m, v), m, w) == Set(r, m, w)
  {
  }

  /** What `processData(data, key)` does to the table: the keys become the
      old keys and the days of the points, an existing key keeps its place
      and a new one is appended; property `key` of a day of the points is
      the value of its last point, the day's other properties and every
      other day are untouched, and a new day's other properties are
      undefined. */
  lemma ProcessMeaning(t: Table, data: seq<Point>, m: Metric)
    requires WellFormed(t)
    ensures var r := Process(t, data, m);
      && WellFormed(r)
      && r.days.Keys == t.days.Keys + PointKeys(data)
      && |t.order| <= |r.order| && r.order[..|t.order|] == t.order
      && (forall k :: k in r.days ==>
            r.days[k] == Set(if k in t.days then t.days[k] else NewDay(k), m,
                             if k in PointKeys(data) then LastValue(data, k) else Get(t.days[k], m)))
  {
    ProcessShape(t, data, m);
    ProcessValue(t, data, m);
    ProcessOthers(t, data, m);
  }

  // ---------------------------------------------------------------------------
  // The four rollups merged.

  /** The one-day rollups of lines 372-377 (an empty one for a failed fetch). */
  datatype Rollups = Rollups(temp: seq<Point>, hum: seq<Point>, pm25: seq<Point>, noise: seq<Point>)

  function RollupOf(src: Rollups, m: Metric): seq<Point> {
    match m
    case TempKey => src.temp
    case HumKey => src.hum
    case Pm25Key => src.pm25
    case NoiseKey => src.noise
  }

  function WithRollup(src: Rollups, m: Metric, data: seq<Point>): Rollups {
    match m
    case TempKey => src.(temp := data)
    case HumKey => src.(hum := data)
    case Pm25Key => src.(pm25 := data)
    case NoiseKey => src.(noise := data)
  }

  /** Day `k` as the merge should show it: each property the value of that
      day's last point in its rollup, undefined when the rollup has no point
      of that day. */
  function Merged(k: string, src: Rollups): (r: DayRecord)
    ensures r.date == k
    ensures forall m :: Get(r, m) == LastValue(RollupOf(src, m), k)
  {
    var value := (m: Metric) => LastValue(RollupOf(src, m), k);
    var r := DayRecord(k, value(TempKey), value(HumKey), value(Pm25Key), value(NoiseKey));
    GetOfFields(r, value);
    r
  }

  /** A record built from one value per property reads back those values. */
  lemma GetOfFields(r: DayRecord, value: Metric -> JsValue)
    requires r.temp == value(TempKey) && r.hum == value(HumKey)
    requires r.pm25 == value(Pm25Key) && r.noise == value(NoiseKey)
    ensures forall m :: Get(r, m) == value(m)
  {
  }

  /** Day `k` occurs in some rollup. */
  predicate InSomeRollup(src: Rollups, k: string) {
    k in PointKeys(src.temp) || k in PointKeys(src.hum) || k in PointKeys(src.pm25) || k in PointKeys(src.noise)
  }

  /** `t` holds exactly the merge of `src`. */
  ghost predicate Reflects(t: Table, src: Rollups) {
    && WellFormed(t)
    && (forall k :: k in t.days <==> InSomeRollup(src, k))
    && (forall k :: k in t.days ==> t.days[k] == Merged(k, src))
  }

  lemma InRollupKeys(src: Rollups, m: Metric, k: string)
    requires k in PointKeys(RollupOf(src, m))
    ensures InSomeRollup(src, k)
  {
    match m
    case TempKey =>
    case HumKey =>
    case Pm25Key =>
    case NoiseKey =>
  }

  lemma RollupKeys(src: Rollups, m: Metric, data: seq<Point>, k: string)
    requires RollupOf(src, m) == []
    ensures InSomeRollup(WithRollup(src, m, data), k) <==> InSomeRollup(src, k) || k in PointKeys(data)
  {
    assert k !in PointKeys([]);
    match m
    case TempKey =>
    case HumKey =>
    case Pm25Key =>
    case NoiseKey =>
  }

  lemma RollupOfWith(src: Rollups, m: Metric, data: seq<Point>, m': Metric)
    ensures RollupOf(WithRollup(src, m, data), m') == if m' == m then data else RollupOf(src, m')
  {
  }

  /** Writing one more rollup into a table that holds the merge of the others
      gives the merge with that rollup. */
  lemma WriteRollup(t: Table, src: Rollups, m: Metric, data: seq<Point>)
    requires Reflects(t, src) && RollupOf(src, m) == []
    ensures Reflects(Process(t, data, m), WithRollup(src, m, data))
  {
    ProcessMeaning(t, data, m);
    var src' := WithRollup(src, m, data);
    var r := Process(t, data, m);
    forall k
      ensures k in r.days <==> InSomeRollup(src', k)
    {
      RollupKeys(src, m, data, k);
    }
    forall k | k in r.days
      ensures r.days[k] == Merged(k, src')
    {
      var base := if k in t.days then t.days[k] else NewDay(k);
      var v := if k in PointKeys(data) then LastValue(data, k) else Get(t.days[k], m);
      assert r.days[k] == Set(base, m, v);
      forall m'
        ensures Get(r.days[k], m') == LastValue(RollupOf(src', m'), k)
      {
        RollupOfWith(src, m, data, m');
        if m' == m {
          if k !in PointKeys(data) {
            assert Get(t.days[k], m) == LastValue(RollupOf(src, m), k);
            assert PointKeys(RollupOf(src, m)) == {};
          }
        } else if k in t.days {
          assert Get(t.days[k], m') == Get(Merged(k, src), m');
        } else if k in PointKeys(RollupOf(src, m')) {
          InRollupKeys(src, m', k);
        }
      }
      RecordsEqual(r.days[k], Merged(k, src'));
    }
  }

  /** Lines 389-392: the temperature, humidity, PM2.5 and noise rollups
      written in turn into an empty table. */
  function BuildTable(src: Rollups): Table {
    var t1 := Process(Table(map[], []), src.temp, TempKey);
    var t2 := Process(t1, src.hum, HumKey);
    var t3 := Process(t2, src.pm25, Pm25Key);
    Process(t3, src.noise, NoiseKey)
  }

  /** The table after the four calls is the merge of the four rollups. */
  lemma BuildTableMerges(src: Rollups)
    ensures Reflects(BuildTable(src), src)
  {
    var s0 := Rollups([], [], [], []);
    var s1 := s0.(temp := src.temp);
    var s2 := s1.(hum := src.hum);
    var s3 := s2.(pm25 := src.pm25);
    assert Reflects(Table(map[], []), s0);
    WriteRollup(Table(map[], []), s0, TempKey, src.temp);
    var t1 := Process(Table(map[], []), src.temp, TempKey);
    WriteRollup(t1, s1, HumKey, src.hum);
    var t2 := Process(t1, src.hum, HumKey);
    WriteRollup(t2, s2, Pm25Key, src.pm25);
    var t3 := Process(t2, src.pm25, Pm25Key);
    WriteRollup(t3, s3, NoiseKey, src.noise);
    assert s3.(noise := src.noise) == src;
  }

  // ---------------------------------------------------------------------------
  // `sortedDays` (lines 394-396).

  /** `Object.values(daysMap)`, in the order the keys were first written. */
  function ValuesOf(days: map<string, DayRecord>, order: seq<string>): (vs: seq<DayRecord>)
    ensures forall r :: r in vs <==> exists i :: 0 <= i < |order| && order[i] in days && days[order[i]] == r
  {
    if |order| == 0 then []
    else
      var init, last := order[..|order| - 1], order[|order| - 1];
      assert forall i :: 0 <= i < |init| ==> init[i] == order[i];
      ValuesOf(days, init) + (if last in days then [days[last]] else [])
  }

  /** `d.temp !== undefined && d.temp !== null` */
  predicate HasTemp(r: DayRecord) {
    r.temp != Undefined && r.temp != Null
  }

  /** `.filter(d => d.temp !== undefined && d.temp !== null)` */
  function WithTemp(rs: seq<DayRecord>): (kept: seq<DayRecord>)
    ensures forall r :: r in kept <==> r in rs && HasTemp(r)
  {
    if |rs| == 0 then []
    else
      var init, last := rs[..|rs| - 1], rs[|rs| - 1];
      assert forall r :: r in rs <==> r in init || r == last;
      WithTemp(init) + (if HasTemp(last) then [last] else [])
  }

  function DateOf(r: DayRecord): string {
    r.date
  }

  /** `sortedDays` */
  function SortedDays(t: Table): seq<DayRecord> {
    SortDesc(WithTemp(ValuesOf(t.days, t.order)), DateOf)
  }

  /** No two records share a date. */
  ghost predicate DistinctDates(rs: seq<DayRecord>) {
    forall i, j :: 0 <= i < j < |rs| ==> rs[i].date != rs[j].date
  }

  lemma {:induction false} ValuesDistinct(days: map<string, DayRecord>, order: seq<string>)
    requires forall k :: k in days ==> days[k].date == k
    requires forall i, j :: 0 <= i < j < |order| ==> order[i] != order[j]
    ensures DistinctDates(ValuesOf(days, order))
    decreases |order|
  {
    if |order| > 0 {
      var init, last := order[..|order| - 1], order[|order| - 1];
      ValuesDistinct(days, init);
      var vs := ValuesOf(days, init);
      forall r | r in vs
        ensures r.date != last
      {
        var i :| 0 <= i < |init| && init[i] in days && days[init[i]] == r;
        assert init[i] == order[i];
      }
    }
  }

  lemma {:induction false} WithTempDistinct(rs: seq<DayRecord>)
    requires DistinctDates(rs)
    ensures DistinctDates(WithTemp(rs))
    decreases |rs|
  {
    if |rs| > 0 {
      var init, last := rs[..|rs| - 1], rs[|rs| - 1];
      assert DistinctDates(init);
      WithTempDistinct(init);
      forall r | r in WithTemp(init)
        ensures r.date != last.date
      {
        var i :| 0 <= i < |init| && init[i] == r;
      }
    }
  }

  lemma {:induction false} DistinctAtMostOnce(rs: seq<DayRecord>, x: DayRecord)
    requires DistinctDates(rs)
    ensures multiset(rs)[x] <= 1
    decreases |rs|
  {
    if |rs| > 0 {
      var init, last := rs[..|rs| - 1], rs[|rs| - 1];
      assert rs == init + [last];
      assert DistinctDates(init);
      DistinctAtMostOnce(init, x);
      if x == last {
        assert x !in init;
      }
    }
  }

  lemma TwiceCountsTwice(rs: seq<DayRecord>, i: int, j: int)
    requires 0 <= i < j < |rs| && rs[i] == rs[j]
    ensures multiset(rs)[rs[i]] >= 2
  {
    assert rs == rs[..j] + [rs[j]] + rs[j + 1..];
    assert rs[i] in multiset(rs[..j]) by {
      assert rs[..j][i] == rs[i];
    }
  }

  /** A permutation of records with distinct dates has distinct dates, when
      each date names one record. */
  lemma PermutationDistinct(rs: seq<DayRecord>, ps: seq<DayRecord>)
    requires DistinctDates(rs) && multiset(rs) == multiset(ps)
    ensures DistinctDates(ps)
  {
    forall i, j | 0 <= i < j < |ps|
      ensures ps[i].date != ps[j].date
    {
      if ps[i].date == ps[j].date {
        assert ps[i] in multiset(rs) && ps[j] in multiset(rs);
        var a :| 0 <= a < |rs| && rs[a] == ps[i];
        var b :| 0 <= b < |rs| && rs[b] == ps[j];
        assert a == b;
        TwiceCountsTwice(ps, i, j);
        DistinctAtMostOnce(rs, ps[i]);
        assert false;
      }
    }
  }

  /** `sortedDays` is strictly newest first, holds only days of the table
      that have a temperature, and every such day. */
  lemma SortedDaysMeaning(t: Table)
    requires WellFormed(t)
    ensures var s := SortedDays(t);
      && (forall i, j :: 0 <= i < j < |s| ==> LexLt(s[j].date, s[i].date))
      && (forall i :: 0 <= i < |s| ==> s[i].date in t.days && s[i] == t.days[s[i].date] && HasTemp(s[i]))
      && (forall k :: k in t.days && HasTemp(t.days[k]) ==> exists i :: 0 <= i < |s| && s[i].date == k)
  {
    var vs := ValuesOf(t.days, t.order);
    var kept := WithTemp(vs);
    var s := SortedDays(t);
    ValuesDistinct(t.days, t.order);
    WithTempDistinct(vs);
    SortDescPermutes(kept, DateOf);
    SortDescSorted(kept, DateOf);
    PermutationDistinct(kept, s);
    forall i, j | 0 <= i < j < |s|
      ensures LexLt(s[j].date, s[i].date)
    {
      assert LexLe(DateOf(s[j]), DateOf(s[i]));
      if LexLe(s[i].date, s[j].date) {
        LexLeAntisymmetric(s[i].date, s[j].date);
      }
    }
    forall i | 0 <= i < |s|
      ensures s[i].date in t.days && s[i] == t.days[s[i].date] && HasTemp(s[i])
    {
      assert s[i] in multiset(kept);
      assert s[i] in vs;
      var n :| 0 <= n < |t.order| && t.order[n] in t.days && t.days[t.order[n]] == s[i];
    }
    forall k | k in t.days && HasTemp(t.days[k])
      ensures exists i :: 0 <= i < |s| && s[i].date == k
    {
      var n :| 0 <= n < |t.order| && t.order[n] == k;
      assert t.days[k] in vs;
      assert t.days[k] in multiset(s);
      var i :| 0 <= i < |s| && s[i] == t.days[k];
      assert s[i].date == k;
    }
  }

  /** The table lines 379-392 build from the four rollups, sorted. */
  function HistoryDays(src: Rollups): seq<DayRecord> {
    SortedDays(BuildTable(src))
  }

  /** The history section lists one card per day whose last temperature
      point has a value that is neither null nor undefined, strictly newest
      first, and each card's record holds, for every sensor, the value of
      that day's last point in its rollup (undefined when there is none). */
  lemma HistoryDaysMeaning(src: Rollups)
    ensures var s := HistoryDays(src);
      && (forall i, j :: 0 <= i < j < |s| ==> LexLt(s[j].date, s[i].date))
      && (forall i :: 0 <= i < |s| ==> s[i] == Merged(s[i].date, src) && HasTemp(s[i]))
      && (forall k :: HasTemp(Merged(k, src)) <==> exists i :: 0 <= i < |s| && s[i].date == k)
  {
    var t := BuildTable(src);
    BuildTableMerges(src);
    SortedDaysMeaning(t);
    var s := HistoryDays(src);
    assert s == SortedDays(t);
    forall i | 0 <= i < |s|
      ensures s[i] == Merged(s[i].date, src) && HasTemp(s[i])
    {
      assert s[i] == t.days[s[i].date];
    }
    forall k
      ensures HasTemp(Merged(k, src)) <==> exists i :: 0 <= i < |s| && s[i].date == k
    {
      if HasTemp(Merged(k, src)) {
        assert LastValue(src.temp, k) != Undefined;
        assert k in PointKeys(src.temp);
        assert k in t.days && t.days[k] == Merged(k, src);
      }
    }
  }

  // ---------------------------------------------------------------------------
  // The table as the script holds it.

  /** `daysMap`, filled in place by `processData`. */
  class DaysMap {
    var days: map<string, DayRecord>
    var order: seq<string>

    function Contents(): Table
      reads this
    {
      Table(days, order)
    }

    ghost predicate Valid()
      reads this
    {
      WellFormed(Contents())
    }

    /** `const daysMap = {}` */
    constructor ()
      ensures Valid() && Contents() == Table(map[], [])
    {
      days := map[];
      order := [];
    }

    /** `processData(data, key)` (lines 380-387). */
    method ProcessData(data: seq<Point>, m: Metric)
      requires Valid()
      modifies this
      ensures Valid()
      ensures Contents() == Process(old(Contents()), data, m)
    {
      var i := 0;
      while i < |data|
        invariant 0 <= i <= |data|
        invariant Valid()
        invariant Contents() == Process(old(Contents()), data[..i], m)
      {
        ghost var before := Contents();
        var point := data[i];
        if HasTimestamp(point) {
          var dateKey := DateKey(point.ts.value);
          var rec := if dateKey in days then days[dateKey] else NewDay(dateKey);
          if dateKey !in days {
            order := order + [dateKey];
          }
          days := days[dateKey := Set(rec, m, point.value)];
        }
        assert Contents() == Write(before, point, m);
        WriteKeepsWellFormed(before, point, m);
        ProcessOneMore(old(Contents()), data, i, m);
        i := i + 1;
      }
      assert data[..|data|] == data;
    }
  }

  /** Lines 379-396: the four rollups merged in a fresh table and sorted. */
  method BuildHistory(src: Rollups) returns (sortedDays: seq<DayRecord>)
    ensures sortedDays == HistoryDays(src)
  {
    var daysMap := new DaysMap();
    daysMap.ProcessData(src.temp, TempKey);
    daysMap.ProcessData(src.hum, HumKey);
    daysMap.ProcessData(src.pm25, Pm25Key);
    daysMap.ProcessData(src.noise, NoiseKey);
    sortedDays := SortedDays(daysMap.Contents());
  }

  // ---------------------------------------------------------------------------
  // A history card's seasonal tag (lines 419-424).

  /** `hl.x !== null ? Math.round(hl.x) : "--"`, as `Number()` then sees it. */
  function Shown(x: Option<Num>): JsValue {
    if x.Some? then Val(Round(x.value)) else Val(NaN)
  }

  /** The tag of a day card from the day's high and low and the month of its date. */
  function HistoryTag(hl: HighLow, month: int): Tag {
    SeasonTag(Shown(hl.high), Shown(hl.low), month)
  }

  /** Corrected: with the history helper that drops null readings, a day
      without a finite reading is tagged normal, and so is a day whose
      readings all lie inside its season's band: the bands' ends are whole
      degrees, so rounding the high and the low keeps them inside. */
  lemma HistoryTagOfDay(readings: seq<Point>, month: int)
    ensures var band := LimnosBand(SeasonFromMonth(month));
      && ((forall j :: 0 <= j < |readings| ==> !FiniteReading(readings[j].value)) ==>
            HistoryTag(DayHighLow(readings), month) == NormalTag)
      && ((forall j :: 0 <= j < |readings| && FiniteReading(readings[j].value) ==>
             band.low as real <= readings[j].value.n.r <= band.high as real) ==>
            HistoryTag(DayHighLow(readings), month) == NormalTag)
  {
    var band := LimnosBand(SeasonFromMonth(month));
    var hl := DayHighLow(readings);
    SeasonTagMeaning(Shown(hl.high), Shown(hl.low), month);
    if hl.high.Some? {
      if forall j :: 0 <= j < |readings| && FiniteReading(readings[j].value) ==> band.low as real <= readings[j].value.n.r <= band.high as real {
        var jh :| 0 <= jh < |readings| && readings[jh].value == Val(hl.high.value);
        var jl :| 0 <= jl < |readings| && readings[jl].value == Val(hl.low.value);
        assert FiniteReading(readings[jh].value) && FiniteReading(readings[jl].value);
        RoundStaysInBand(hl.high.value.r, band.low, band.high);
        RoundStaysInBand(hl.low.value.r, band.low, band.high);
      }
    }
  }

  /** As written (lines 352-354 feeding lines 419-424): a day whose only
      reading is null gets a high and a low of 0 and is tagged cold in every
      season, where the corrected helper tags it normal. */
  lemma NullDayTaggedColdAsWritten(ts: string, month: int)
    ensures HistoryTag(DayHighLowAsWritten([Point(Some(ts), Null)]), month) == LowTag
    ensures HistoryTag(DayHighLow([Point(Some(ts), Null)]), month) == NormalTag
  {
    var readings := [Point(Some(ts), Null)];
    assert readings[..0] == [];
    assert FiniteValuesAsWritten(readings) == [Finite(0.0)];
    assert [Finite(0.0)][..0] == [];
    assert DayHighLowAsWritten(readings) == HighLow(Some(Finite(0.0)), Some(Finite(0.0)));
    assert Round(Finite(0.0)) == Finite(0.0);
    HistoryTagOfDay(readings, month);
  }

  /** As written, a summer day with readings null and 25 °C gets a low of 0,
      a mid temperature of 12.5 and the cold tag; the corrected helper gives
      25 for both and the normal tag. */
  lemma NullBesideSummerReadingAsWritten(t0: string, t1: string)
    ensures var readings := [Point(Some(t0), Null), Point(Some(t1), Val(Finite(25.0)))];
      && DayHighLowAsWritten(readings) == HighLow(Some(Finite(25.0)), Some(Finite(0.0)))
      && HistoryTag(DayHighLowAsWritten(readings), 6) == LowTag
      && HistoryTag(DayHighLow(readings), 6) == NormalTag
  {
    var readings := [Point(Some(t0), Null), Point(Some(t1), Val(Finite(25.0)))];
    NullBesideReadingAsWritten(readings);
    assert SeasonFromMonth(6) == Summer;
    assert Round(Finite(0.0)) == Finite(0.0);
    assert Round(Finite(25.0)) == Finite(25.0);
    assert HistoryTag(HighLow(Some(Finite(25.0)), Some(Finite(0.0))), 6) == LowTag;
    assert forall j :: 0 <= j < |readings| && FiniteReading(readings[j].value) ==> j == 1;
    HistoryTagOfDay(readings, 6);
  }

  /** The values the helper as written reduces for a null and 25 °C. */
  lemma NullBesideReadingAsWritten(readings: seq<Point>)
    requires |readings| == 2 && readings[0].value == Null && readings[1].value == Val(Finite(25.0))
    ensures DayHighLowAsWritten(readings) == HighLow(Some(Finite(25.0)), Some(Finite(0.0)))
  {
    assert readings[..1][..0] == [];
    assert FiniteValuesAsWritten(readings[..1]) == [Finite(0.0)];
    var values := [Finite(0.0), Finite(25.0)];
    assert FiniteValuesAsWritten(readings) == values;
    assert values[..1] == [Finite(0.0)];
    assert [Finite(0.0)][..0] == [];
    assert JsMax(values) == Finite(25.0) && JsMin(values) == Finite(0.0);
  }

  /** Rounding keeps a number between two whole numbers between them. */
  lemma RoundStaysInBand(x: real, lo: int, hi: int)
    requires lo as real <= x <= hi as real
    ensures Round(Finite(x)).Finite? && lo as real <= Round(Finite(x)).r <= hi as real
  {
    var n := Round(Finite(x)).r.Floor;
    assert Round(Finite(x)).r == n as real;
    assert (lo as real) - 0.5 < n as real;
    assert lo - 1 < n;
    assert n as real <= (hi as real) + 0.5;
    assert n < hi + 1;
  }
}
