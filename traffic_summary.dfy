/**
  The dashboard's traffic aggregates (dashboard/visualizations.py, `summarize_traffic_for_plotly`):
  packet counts per source and per destination with their ten most common entries, and the
  bytes per minute as a series sorted by minute. Timestamps arrive already parsed, as integer
  seconds.
*/
module TrafficSummary {
  import opened Common
  import opened StableSort

  /** The packet keys the summary reads; a missing key is `None`. */
  datatype TrafficPacket = TrafficPacket(
    srcIp: Option<string>,
    idOrigH: Option<string>,
    dstIp: Option<string>,
    idRespH: Option<string>,
    timestamp: Option<int>,
    ts: Option<int>,
    time: Option<int>,
    length: Option<int>,
    origBytes: Option<int>,
    respBytes: Option<int>)

  /** One `(ip, count)` pair of a `Counter`. */
  datatype IpCount = IpCount(ip: string, count: int)

  /** One element of the intermediate `time_series` list. */
  datatype TimedBytes = TimedBytes(ts: Option<int>, bytes: int)

  datatype Summary = Summary(topSrc: seq<IpCount>, topDst: seq<IpCount>, timeX: seq<int>, timeY: seq<int>)

  const TopCount := 10

  predicate TruthyText(s: Option<string>) {
    s.Some? && s.value != ""
  }

  predicate TruthyInt(n: Option<int>) {
    n.Some? && n.value != 0
  }

  /** `p.get("src_ip") or p.get("id_orig_h") or "unknown"` */
  function SourceOf(p: TrafficPacket): string {
    if TruthyText(p.srcIp) then p.srcIp.value
    else if TruthyText(p.idOrigH) then p.idOrigH.value
    else "unknown"
  }

  /** `p.get("dst_ip") or p.get("id_resp_h") or "unknown"` */
  function DestinationOf(p: TrafficPacket): string {
    if TruthyText(p.dstIp) then p.dstIp.value
    else if TruthyText(p.idRespH) then p.idRespH.value
    else "unknown"
  }

  /** `p.get("timestamp") or p.get("ts") or p.get("time") or None`: a zero time counts as missing. */
  function TimeOf(p: TrafficPacket): Option<int> {
    if TruthyInt(p.timestamp) then p.timestamp
    else if TruthyInt(p.ts) then p.ts
    else if TruthyInt(p.time) then p.time
    else None
  }

  /** `p.get("length") or p.get("orig_bytes") or p.get("resp_bytes") or 0` */
  function LengthOf(p: TrafficPacket): int {
    if TruthyInt(p.length) then p.length.value
    else if TruthyInt(p.origBytes) then p.origBytes.value
    else if TruthyInt(p.respBytes) then p.respBytes.value
    else 0
  }

  /** `int(ts) - int(ts) % 60`, with Python's floored remainder: the start of the minute. */
  function MinuteOf(t: int): (m: int)
    ensures m % 60 == 0 && m <= t < m + 60
  {
    t - t % 60
  }

  function Sources(pkts: seq<TrafficPacket>): (r: seq<string>)
    ensures |r| == |pkts| && forall k | 0 <= k < |pkts| :: r[k] == SourceOf(pkts[k])
  {
    seq(|pkts|, k requires 0 <= k < |pkts| => SourceOf(pkts[k]))
  }

  function Destinations(pkts: seq<TrafficPacket>): (r: seq<string>)
    ensures |r| == |pkts| && forall k | 0 <= k < |pkts| :: r[k] == DestinationOf(pkts[k])
  {
    seq(|pkts|, k requires 0 <= k < |pkts| => DestinationOf(pkts[k]))
  }

  /** The `time_series` list the first loop builds. */
  function TimeSeries(pkts: seq<TrafficPacket>): (r: seq<TimedBytes>)
    ensures |r| == |pkts| && forall k | 0 <= k < |pkts| :: r[k] == TimedBytes(TimeOf(pkts[k]), LengthOf(pkts[k]))
  {
    seq(|pkts|, k requires 0 <= k < |pkts| => TimedBytes(TimeOf(pkts[k]), LengthOf(pkts[k])))
  }

  // ---- Counter ------------------------------------------------------------

  /** `counter[ip]`: the count of `ip`, 0 when it has none. */
  function Count(c: seq<IpCount>, ip: string): int {
    if c == [] then 0 else if c[0].ip == ip then c[0].count else Count(c[1..], ip)
  }

  /** `ip` has an entry in the counter. */
  predicate HasKey(c: seq<IpCount>, ip: string) {
    exists k | 0 <= k < |c| :: c[k].ip == ip
  }

  /** No ip has two entries. */
  ghost predicate UniqueKeys(c: seq<IpCount>) {
    forall i, j | 0 <= i < j < |c| :: c[i].ip != c[j].ip
  }

  /** `counter[ip] += 1`: an existing entry grows in place, a new key is appended. */
  function Bump(c: seq<IpCount>, ip: string): (r: seq<IpCount>)
    ensures |r| == if HasKey(c, ip) then |c| else |c| + 1
  {
    if c == [] then [IpCount(ip, 1)]
    else if c[0].ip == ip then [c[0].(count := c[0].count + 1)] + c[1..]
    else
      assert HasKey(c, ip) <==> HasKey(c[1..], ip) by {
        if HasKey(c, ip) {
          var k :| 0 <= k < |c| && c[k].ip == ip;
          assert c[1..][k - 1].ip == ip;
        }
        if HasKey(c[1..], ip) {
          var k :| 0 <= k < |c[1..]| && c[1..][k].ip == ip;
          assert c[k + 1].ip == ip;
        }
      }
      [c[0]] + Bump(c[1..], ip)
  }

  /** The counter after counting every element of `xs` in turn. */
  function Tally(xs: seq<string>): seq<IpCount> {
    if xs == [] then [] else Bump(Tally(xs[..|xs| - 1]), xs[|xs| - 1])
  }

  lemma {:induction false} PrefixSnoc<T>(s: seq<T>, i: nat)
    requires i < |s|
    ensures s[..i + 1] == s[..i] + [s[i]]
  {
  }

  lemma {:induction false} TallySnoc(xs: seq<string>, x: string)
    ensures Tally(xs + [x]) == Bump(Tally(xs), x)
  {
    assert (xs + [x])[..|xs|] == xs;
  }

  function NegCount(e: IpCount): int {
    -e.count
  }

  /** `counter.most_common(n)`: by count, highest first, ties in first-seen order, at most `n` long. */
  function MostCommon(c: seq<IpCount>, n: nat): (r: seq<IpCount>)
    ensures |r| == if |c| < n then |c| else n
    ensures multiset(r) <= multiset(c)
  {
    var s := Sort(c, NegCount);
    if |s| <= n then s
    else
      assert s == s[..n] + s[n..];
      s[..n]
  }

  // ---- per-minute series --------------------------------------------------

  /** The `series` dictionary after the second loop has seen `es`. */
  function Series(es: seq<TimedBytes>): map<int, int> {
    if es == [] then map[]
    else
      var m := Series(es[..|es| - 1]);
      var e := es[|es| - 1];
      if e.ts.None? then m
      else
        var minute := MinuteOf(e.ts.value);
        m[minute := (if minute in m then m[minute] else 0) + e.bytes]
  }

  /** Some timestamped entry of `es` falls in minute `m`. */
  predicate HasMinute(es: seq<TimedBytes>, m: int) {
    exists k | 0 <= k < |es| :: es[k].ts.Some? && MinuteOf(es[k].ts.value) == m
  }

  /** The bytes of the timestamped entries of `es` that fall in minute `m`. */
  function MinuteTotal(es: seq<TimedBytes>, m: int): int {
    if es == [] then 0
    else
      var e := es[|es| - 1];
      MinuteTotal(es[..|es| - 1], m) + (if e.ts.Some? && MinuteOf(e.ts.value) == m then e.bytes else 0)
  }

  /** The series has a key for exactly the minutes with timestamped traffic, holding their total. */
  lemma {:induction false} SeriesIsMinuteTotals(es: seq<TimedBytes>, m: int)
    ensures m in Series(es) <==> HasMinute(es, m)
    ensures m in Series(es) ==> Series(es)[m] == MinuteTotal(es, m)
  {
    if es != [] {
      var init := es[..|es| - 1];
      SeriesIsMinuteTotals(init, m);
      if !HasMinute(init, m) {
        NoMinuteNoBytes(init, m);
      }
      if HasMinute(init, m) {
        var k :| 0 <= k < |init| && init[k].ts.Some? && MinuteOf(init[k].ts.value) == m;
        assert es[k] == init[k];
      }
      if HasMinute(es, m) {
        var k :| 0 <= k < |es| && es[k].ts.Some? && MinuteOf(es[k].ts.value) == m;
        if k < |init| {
          assert init[k] == es[k];
        }
      }
    }
  }

  /** The bytes of entries outside minute `m` do not count towards it. */
  lemma {:induction false} NoMinuteNoBytes(es: seq<TimedBytes>, m: int)
    requires !HasMinute(es, m)
    ensures MinuteTotal(es, m) == 0
  {
    if es != [] {
      var init := es[..|es| - 1];
      forall k | 0 <= k < |init| ensures !(init[k].ts.Some? && MinuteOf(init[k].ts.value) == m) {
        assert init[k] == es[k];
      }
      NoMinuteNoBytes(init, m);
    }
  }

  /** Python dictionaries keep their keys in insertion order: the minutes of `es` as first seen. */
  function Minutes(es: seq<TimedBytes>): seq<int> {
    if es == [] then []
    else
      var ms := Minutes(es[..|es| - 1]);
      var e := es[|es| - 1];
      if e.ts.None? || MinuteOf(e.ts.value) in ms then ms else ms + [MinuteOf(e.ts.value)]
  }

  predicate Distinct(s: seq<int>) {
    forall i, j | 0 <= i < j < |s| :: s[i] != s[j]
  }

  /** The key order lists each minute with timestamped traffic exactly once. */
  lemma {:induction false} MinutesAreKeys(es: seq<TimedBytes>, m: int)
    ensures m in Minutes(es) <==> HasMinute(es, m)
    ensures Distinct(Minutes(es))
  {
    if es != [] {
      var init := es[..|es| - 1];
      MinutesAreKeys(init, m);
      if HasMinute(init, m) {
        var k :| 0 <= k < |init| && init[k].ts.Some? && MinuteOf(init[k].ts.value) == m;
        assert es[k] == init[k];
      }
      if HasMinute(es, m) {
        var k :| 0 <= k < |es| && es[k].ts.Some? && MinuteOf(es[k].ts.value) == m;
        if k < |init| {
          assert init[k] == es[k];
        }
      }
    }
  }

  /** A distinct sequence holds each value at most once. */
  lemma {:induction false} DistinctCount(s: seq<int>, x: int)
    requires Distinct(s)
    ensures multiset(s)[x] <= 1
  {
    if s != [] {
      assert s == [s[0]] + s[1..];
      DistinctCount(s[1..], x);
      if s[0] == x {
        assert x !in s[1..];
      }
    }
  }

  /** A rearrangement of a distinct sequence is distinct. */
  lemma {:induction false} DistinctPermutation(a: seq<int>, b: seq<int>)
    requires multiset(a) == multiset(b) && Distinct(b)
    ensures Distinct(a)
  {
    forall i, j | 0 <= i < j < |a| ensures a[i] != a[j] {
      if a[i] == a[j] {
        assert a == a[..j] + [a[j]] + a[j + 1..];
        assert a[i] in a[..j];
        assert multiset(a)[a[j]] >= 2;
        DistinctCount(b, a[j]);
      }
    }
  }

  function MinuteKey(m: int): int {
    m
  }

  /** The first loop of `summarize_traffic_for_plotly`: both counters and the `time_series` list. */
  method CountTraffic(pkts: seq<TrafficPacket>) returns (src: seq<IpCount>, dst: seq<IpCount>, timeSeries: seq<TimedBytes>)
    ensures src == Tally(Sources(pkts)) && dst == Tally(Destinations(pkts))
    ensures timeSeries == TimeSeries(pkts)
  {
    ghost var xs, ys, es := Sources(pkts), Destinations(pkts), TimeSeries(pkts);
    src, dst, timeSeries := [], [], [];
    for i := 0 to |pkts|
      invariant src == Tally(xs[..i]) && dst == Tally(ys[..i])
      invariant timeSeries == es[..i]
    {
      var p := pkts[i];
      PrefixSnoc(xs, i);
      PrefixSnoc(ys, i);
      PrefixSnoc(es, i);
      TallySnoc(xs[..i], xs[i]);
      TallySnoc(ys[..i], ys[i]);
      src := Bump(src, SourceOf(p));
      dst := Bump(dst, DestinationOf(p));
      timeSeries := timeSeries + [TimedBytes(TimeOf(p), LengthOf(p))];
    }
    assert xs[..|pkts|] == xs && ys[..|pkts|] == ys && es[..|pkts|] == es;
  }

  /**
    The second loop: the `series` dictionary, as its contents and its key order. An entry
    without a time is skipped; a new minute is added with 0 before its bytes are added.
  */
  method BuildSeries(es: seq<TimedBytes>) returns (series: map<int, int>, order: seq<int>)
    ensures series == Series(es) && order == Minutes(es)
    ensures forall m :: m in order <==> m in series
  {
    series, order := map[], [];
    for i := 0 to |es|
      invariant series == Series(es[..i])
      invariant order == Minutes(es[..i])
      invariant forall m :: m in order <==> m in series
    {
      var e := es[i];
      assert es[..i + 1][..i] == es[..i];
      if e.ts.Some? {
        var minute := MinuteOf(e.ts.value);
        if minute !in series {
          series := series[minute := 0];
          order := order + [minute];
        }
        series := series[minute := series[minute] + e.bytes];
      }
    }
    assert es[..|es|] == es;
  }

  /**
    The plot axes from the series: `sorted(series.items())` split into minutes and byte totals.
    The minutes come out strictly increasing, each one with timestamped traffic exactly once.
  */
  method Axes(es: seq<TimedBytes>) returns (timeX: seq<int>, timeY: seq<int>)
    ensures |timeX| == |timeY|
    ensures forall i, j | 0 <= i < j < |timeX| :: timeX[i] < timeX[j]
    ensures forall m :: m in timeX <==> HasMinute(es, m)
    ensures forall i | 0 <= i < |timeX| :: timeX[i] % 60 == 0 && timeY[i] == MinuteTotal(es, timeX[i])
  {
    var series, order := BuildSeries(es);
    timeX := Sort(order, MinuteKey);
    SortSorted(order, MinuteKey);
    MinutesAreKeys(es, 0);
    DistinctPermutation(timeX, order);
    forall i | 0 <= i < |timeX| ensures timeX[i] in series {
      assert timeX[i] in multiset(order);
    }
    timeY := seq(|timeX|, i requires 0 <= i < |timeX| => series[timeX[i]]);
    forall i | 0 <= i < |timeX|
      ensures timeX[i] % 60 == 0 && timeY[i] == MinuteTotal(es, timeX[i])
    {
      SeriesIsMinuteTotals(es, timeX[i]);
      var k :| 0 <= k < |es| && es[k].ts.Some? && MinuteOf(es[k].ts.value) == timeX[i];
    }
    forall m
      ensures m in timeX <==> HasMinute(es, m)
    {
      SeriesIsMinuteTotals(es, m);
      assert m in timeX <==> m in multiset(order);
    }
  }

  /** `summarize_traffic_for_plotly` */
  method SummarizeTraffic(pkts: seq<TrafficPacket>) returns (s: Summary)
    ensures s.topSrc == MostCommon(Tally(Sources(pkts)), TopCount)
    ensures s.topDst == MostCommon(Tally(Destinations(pkts)), TopCount)
    ensures |s.timeX| == |s.timeY|
    ensures forall i, j | 0 <= i < j < |s.timeX| :: s.timeX[i] < s.timeX[j]
    ensures forall m :: m in s.timeX <==> HasMinute(TimeSeries(pkts), m)
    ensures forall i | 0 <= i < |s.timeX| ::
              s.timeX[i] % 60 == 0 && s.timeY[i] == MinuteTotal(TimeSeries(pkts), s.timeX[i])
  {
    var src, dst, timeSeries := CountTraffic(pkts);
    var timeX, timeY := Axes(timeSeries);
    s := Summary(MostCommon(src, TopCount), MostCommon(dst, TopCount), timeX, timeY);
  }

  // ---- properties of the counters ---------------------------------------------

  lemma {:induction false} BumpCount(c: seq<IpCount>, ip: string, x: string)
    ensures Count(Bump(c, ip), x) == Count(c, x) + (if x == ip then 1 else 0)
  {
    if c != [] && c[0].ip != ip {
      BumpCount(c[1..], ip, x);
      assert Bump(c, ip)[1..] == Bump(c[1..], ip);
    }
  }

  /** Each element is counted exactly as often as it occurs. */
  lemma {:induction false} TallyCount(xs: seq<string>, x: string)
    ensures Count(Tally(xs), x) == multiset(xs)[x]
  {
    if xs != [] {
      var init := xs[..|xs| - 1];
      TallyCount(init, x);
      BumpCount(Tally(init), xs[|xs| - 1], x);
      assert xs == init + [xs[|xs| - 1]];
    }
  }

  /** A key with a non-zero count has an entry. */
  lemma {:induction false} CountedHasKey(c: seq<IpCount>, x: string)
    requires Count(c, x) != 0
    ensures HasKey(c, x)
  {
    if c[0].ip != x {
      CountedHasKey(c[1..], x);
      var k :| 0 <= k < |c[1..]| && c[1..][k].ip == x;
      assert c[k + 1].ip == x;
    }
  }

  lemma {:induction false} BumpUnique(c: seq<IpCount>, ip: string)
    requires UniqueKeys(c)
    ensures UniqueKeys(Bump(c, ip))
    ensures forall k | 0 <= k < |Bump(c, ip)| :: Bump(c, ip)[k].ip == ip || HasKey(c, Bump(c, ip)[k].ip)
  {
    var r := Bump(c, ip);
    if c == [] {
    } else if c[0].ip == ip {
      forall k | 0 <= k < |r| ensures r[k].ip == ip || HasKey(c, r[k].ip) {
        assert r[k].ip == c[k].ip;
      }
    } else {
      BumpUnique(c[1..], ip);
      var tail := Bump(c[1..], ip);
      assert r == [c[0]] + tail;
      forall k | 0 <= k < |tail| ensures tail[k].ip != c[0].ip && (tail[k].ip == ip || HasKey(c, tail[k].ip)) {
        if tail[k].ip != ip {
          var j :| 0 <= j < |c[1..]| && c[1..][j].ip == tail[k].ip;
          assert c[j + 1].ip == tail[k].ip;
        }
      }
      forall k | 0 <= k < |r| ensures r[k].ip == ip || HasKey(c, r[k].ip) {
        if k > 0 {
          assert r[k] == tail[k - 1];
        }
      }
    }
  }

  /** The counter never holds two entries for one ip. */
  lemma {:induction false} TallyUnique(xs: seq<string>)
    ensures UniqueKeys(Tally(xs))
  {
    if xs != [] {
      TallyUnique(xs[..|xs| - 1]);
      BumpUnique(Tally(xs[..|xs| - 1]), xs[|xs| - 1]);
    }
  }

  /** With unique keys, an entry's count is the counter's answer for its ip. */
  lemma {:induction false} EntryCount(c: seq<IpCount>, k: nat)
    requires UniqueKeys(c) && k < |c|
    ensures Count(c, c[k].ip) == c[k].count
  {
    if k > 0 {
      assert UniqueKeys(c[1..]);
      EntryCount(c[1..], k - 1);
    }
  }

  // ---- properties of the top lists --------------------------------------------

  /** The top list is ordered by count, highest first. */
  lemma {:induction false} TopNonIncreasing(c: seq<IpCount>, n: nat)
    ensures forall i, j | 0 <= i < j < |MostCommon(c, n)| :: MostCommon(c, n)[i].count >= MostCommon(c, n)[j].count
  {
    SortSorted(c, NegCount);
    var s := Sort(c, NegCount);
    assert forall i, j | 0 <= i < j < |s| :: NegCount(s[i]) <= NegCount(s[j]);
  }

  /** No entry left out of the top list has a higher count than one in it. */
  lemma {:induction false} TopIsTop(c: seq<IpCount>, n: nat, e: IpCount)
    requires e in c
    ensures e in MostCommon(c, n) || forall k | 0 <= k < |MostCommon(c, n)| :: MostCommon(c, n)[k].count >= e.count
  {
    SortSorted(c, NegCount);
    var s := Sort(c, NegCount);
    assert e in multiset(s);
    var j :| 0 <= j < |s| && s[j] == e;
    if j < n {
      assert MostCommon(c, n)[j] == e;
    } else {
      forall k | 0 <= k < |MostCommon(c, n)| ensures MostCommon(c, n)[k].count >= e.count {
        assert MostCommon(c, n)[k] == s[k];
        assert NegCount(s[k]) <= NegCount(s[j]);
      }
    }
  }

  /** With at most `n` distinct keys, every entry is listed. */
  lemma {:induction false} TopListsAllWhenFew(c: seq<IpCount>, n: nat)
    requires |c| <= n
    ensures multiset(MostCommon(c, n)) == multiset(c)
  {
  }

  /** Among equal counts, the top list keeps the counter's first-seen order. */
  lemma {:induction false} TopTiesInFirstSeenOrder(c: seq<IpCount>, n: nat, k: int)
    ensures WithKey(MostCommon(c, n), NegCount, k) <= WithKey(c, NegCount, k)
  {
    var s := Sort(c, NegCount);
    SortStable(c, NegCount, k);
    if |s| > n {
      assert s == s[..n] + s[n..];
      WithKeyAppend(s[..n], s[n..], NegCount, k);
    }
  }

  /** Each listed entry carries the exact number of packets with that address. */
  lemma {:induction false} TopCountsExact(xs: seq<string>, n: nat, k: nat)
    requires k < |MostCommon(Tally(xs), n)|
    ensures MostCommon(Tally(xs), n)[k].count == multiset(xs)[MostCommon(Tally(xs), n)[k].ip]
  {
    var c := Tally(xs);
    var e := MostCommon(c, n)[k];
    assert e in multiset(MostCommon(c, n));
    assert e in multiset(c);
    var j :| 0 <= j < |c| && c[j] == e;
    TallyUnique(xs);
    EntryCount(c, j);
    TallyCount(xs, e.ip);
  }

  /** An address seen twice and one seen once: both listed, the repeated one first. */
  lemma {:induction false} TwiceThenOnce(a: string, b: string)
    requires a != b
    ensures MostCommon(Tally([a, a, b]), TopCount) == [IpCount(a, 2), IpCount(b, 1)]
  {
    var xs := [a, a, b];
    assert xs[..1] == [a] && xs[..2] == [a, a] && xs[..|xs| - 1] == xs[..2];
    assert Tally(xs[..1]) == [IpCount(a, 1)];
    assert Tally(xs[..2]) == [IpCount(a, 2)];
    assert [IpCount(a, 2)][1..] == [];
    assert Bump([], b) == [IpCount(b, 1)];
    var c := [IpCount(a, 2), IpCount(b, 1)];
    assert Bump([IpCount(a, 2)], b) == c;
    assert Tally(xs) == Bump(Tally(xs[..2]), b);
    SortOfSorted(c, NegCount);
  }

  lemma {:induction false} SourcesOfThree(p1: TrafficPacket, p2: TrafficPacket, p3: TrafficPacket)
    ensures Sources([p1, p2, p3]) == [SourceOf(p1), SourceOf(p2), SourceOf(p3)]
  {
  }

  /** A packet with a time puts its minute on the time axis. */
  lemma {:induction false} TimedPacketPlotted(pkts: seq<TrafficPacket>, k: nat)
    requires k < |pkts| && TimeOf(pkts[k]).Some?
    ensures HasMinute(TimeSeries(pkts), MinuteOf(TimeOf(pkts[k]).value))
  {
    assert TimeSeries(pkts)[k].ts == TimeOf(pkts[k]);
  }

  /**
    The dashboard's basic test, for any two distinct addresses: two packets from `a` ten
    seconds apart and one from `b` seventy seconds after the first give a non-empty series and
    list `a` first among the sources, with both of its packets.
  */
  method BasicSummaryScenario(a: string, b: string, now: int) returns (s: Summary)
    requires a != "" && b != "" && a != b
    ensures |s.timeX| >= 1 && |s.timeY| >= 1
    ensures s.topSrc == [IpCount(a, 2), IpCount(b, 1)]
  {
    var p1 := TrafficPacket(Some(a), None, Some("8.8.8.8"), None, Some(now), None, None, Some(100), None, None);
    var p2 := TrafficPacket(Some(a), None, Some("8.8.8.8"), None, Some(now + 10), None, None, Some(200), None, None);
    var p3 := TrafficPacket(Some(b), None, Some("1.1.1.1"), None, Some(now + 70), None, None, Some(50), None, None);
    var pkts := [p1, p2, p3];
    TwiceThenOnce(a, b);
    SourcesOfThree(p1, p2, p3);
    if now != 0 {
      TimedPacketPlotted(pkts, 0);
    } else {
      TimedPacketPlotted(pkts, 1);
    }
    s := SummarizeTraffic(pkts);
  }
}
