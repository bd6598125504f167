/**
  Continuous session monitoring (zero_trust_control/session_monitor.py).

  The module-level `_sessions` dictionary and the per-session `_session_events` deques become
  the two fields of a `SessionMonitor` object. Every clock reading is a `now` parameter; the
  several readings the source takes within one call are the same `now` here.
*/
module SessionMonitor {
  import opened Common

  /** The deque length of each session's event window. */
  const WindowCapacity := 500
  /** How many of the newest window events the destination check looks at. */
  const RecentCount := 50
  /** More distinct destinations than this among the recent events raise an alert. */
  const UniqueDstThreshold := 20
  /** 100 MiB: a cumulative byte count above this raises an alert. */
  const ByteThreshold := 104857600

  datatype Status = Active | Suspicious | Quarantined | Ended

  datatype AlertReason = HighDataTransfer | ManyUniqueDestinations

  /**
    An alert record; `amount` is the `bytes` entry of a high-data-transfer alert and the
    `unique_dst` entry of a many-destinations alert.
  */
  datatype SessionAlert = SessionAlert(reason: AlertReason, when: Timestamp, amount: int)

  /** An event dictionary; a missing `dst_ip` or `bytes` key is `None`. */
  datatype SessionEvent = SessionEvent(
    timestamp: Timestamp,
    srcIp: Option<string>,
    dstIp: Option<string>,
    bytes: Option<int>,
    dport: Option<int>,
    eventType: string)

  /** A session record; `alerts` is empty until the first alert, `endedAt` is set by `end_session`. */
  datatype Session = Session(
    id: string,
    createdAt: Timestamp,
    lastSeen: Timestamp,
    context: map<string, string>,
    status: Status,
    cumulativeBytes: int,
    eventsCount: nat,
    alerts: seq<SessionAlert>,
    endedAt: Option<Timestamp>)

  /** What `check_session` answers: a `not_found` stub or the session itself. */
  datatype Lookup = NotFound(id: string) | Found(session: Session)

  /** The record `create_session` builds. */
  function NewSession(id: string, context: map<string, string>, now: Timestamp): Session {
    Session(id, now, now, context, Active, 0, 0, [], None)
  }

  /** The record `update_session` starts from: the stored one, or a new one with an empty context. */
  function SessionOrNew(sessions: map<string, Session>, id: string, now: Timestamp): Session {
    if id in sessions then sessions[id] else NewSession(id, map[], now)
  }

  /** `event.get("bytes", 0)` */
  function BytesOf(e: SessionEvent): int {
    e.bytes.GetOr(0)
  }

  /** The window of `id`; the default dictionary starts every window empty. */
  function WindowOf(windows: map<string, seq<SessionEvent>>, id: string): seq<SessionEvent> {
    if id in windows then windows[id] else []
  }

  /** Appending to a bounded deque: the newest `WindowCapacity` events of `w + [e]` remain. */
  function Push(w: seq<SessionEvent>, e: SessionEvent): (r: seq<SessionEvent>)
    ensures |r| == if |w| < WindowCapacity then |w| + 1 else WindowCapacity
    ensures r == (w + [e])[|w| + 1 - |r|..]
    ensures r[|r| - 1] == e
  {
    if |w| < WindowCapacity then w + [e] else (w + [e])[|w| + 1 - WindowCapacity..]
  }

  /** `list(window)[-50:]` */
  function Recent(w: seq<SessionEvent>): (r: seq<SessionEvent>)
    ensures |r| == if |w| < RecentCount then |w| else RecentCount
    ensures r == w[|w| - |r|..]
  {
    if |w| < RecentCount then w else w[|w| - RecentCount..]
  }

  /** A truthy `dst_ip`: present and non-empty. */
  predicate HasDestination(e: SessionEvent) {
    e.dstIp.Some? && e.dstIp.value != ""
  }

  /** `{e.get("dst_ip") for e in events if e.get("dst_ip")}` */
  function DestinationsOf(es: seq<SessionEvent>): set<string> {
    if es == [] then {}
    else (if HasDestination(es[0]) then {es[0].dstIp.value} else {}) + DestinationsOf(es[1..])
  }

  /** The `unique_dst` count of a window. */
  function UniqueDestinations(w: seq<SessionEvent>): nat {
    |DestinationsOf(Recent(w))|
  }

  /** The counters of an update: last seen now, one more event, the event's bytes added. */
  function Counted(s: Session, e: SessionEvent, now: Timestamp): Session {
    s.(lastSeen := now, eventsCount := s.eventsCount + 1, cumulativeBytes := s.cumulativeBytes + BytesOf(e))
  }

  /** The data-spike check on the updated counters. */
  function ByteCheck(s: Session, now: Timestamp): Session {
    if s.cumulativeBytes > ByteThreshold then
      s.(status := Suspicious, alerts := s.alerts + [SessionAlert(HighDataTransfer, now, s.cumulativeBytes)])
    else s
  }

  /** The many-destinations check, given the window's `unique_dst` count. */
  function DestinationCheck(s: Session, unique: nat, now: Timestamp): Session {
    if unique > UniqueDstThreshold then
      s.(status := Suspicious, alerts := s.alerts + [SessionAlert(ManyUniqueDestinations, now, unique)])
    else s
  }

  /**
    One `update_session` applied to the session record `s`, where `w` is the session's window
    with the event already pushed.
  */
  function ApplyEvent(s: Session, w: seq<SessionEvent>, e: SessionEvent, now: Timestamp): (r: Session)
    ensures r.id == s.id && r.createdAt == s.createdAt && r.context == s.context && r.endedAt == s.endedAt
    ensures r.lastSeen == now && r.eventsCount == s.eventsCount + 1
    ensures r.cumulativeBytes == s.cumulativeBytes + BytesOf(e)
    ensures |r.alerts| == |s.alerts| + (if r.cumulativeBytes > ByteThreshold then 1 else 0)
                                     + (if UniqueDestinations(w) > UniqueDstThreshold then 1 else 0)
    ensures r.alerts[..|s.alerts|] == s.alerts
    ensures r.cumulativeBytes > ByteThreshold ==>
              r.alerts[|s.alerts|] == SessionAlert(HighDataTransfer, now, r.cumulativeBytes)
    ensures UniqueDestinations(w) > UniqueDstThreshold ==>
              r.alerts[|r.alerts| - 1] == SessionAlert(ManyUniqueDestinations, now, UniqueDestinations(w))
    ensures r.status == if |r.alerts| > |s.alerts| then Suspicious else s.status
  {
    DestinationCheck(ByteCheck(Counted(s, e, now), now), UniqueDestinations(w), now)
  }

  /** `check_session`'s lazy escalation: two or more alerts quarantine the session. */
  function Escalate(s: Session): (r: Session)
    ensures r.status == Quarantined <==> |s.alerts| >= 2 || s.status == Quarantined
    ensures |s.alerts| < 2 ==> r == s
    ensures r.(status := s.status) == s
  {
    if |s.alerts| >= 2 then s.(status := Quarantined) else s
  }

  /** What `end_session` does to a known session. */
  function EndRecord(s: Session, now: Timestamp): (r: Session)
    ensures r.status == Ended && r.endedAt == Some(now)
    ensures r.(status := s.status, endedAt := s.endedAt) == s
  {
    s.(status := Ended, endedAt := Some(now))
  }

  /** Every window holds at most `WindowCapacity` events. */
  ghost predicate Bounded(windows: map<string, seq<SessionEvent>>) {
    forall id | id in windows :: |windows[id]| <= WindowCapacity
  }

  /** Storing a window within capacity keeps all windows within capacity. */
  lemma {:induction false} StoreBounded(windows: map<string, seq<SessionEvent>>, id: string, w: seq<SessionEvent>)
    requires Bounded(windows) && |w| <= WindowCapacity
    ensures Bounded(windows[id := w])
  {
  }

  /**
    The record side of `update_session`: the counters, then the data-spike check, then the
    many-destinations check over the window `w`, which already holds `e`.
  */
  method RecordEvent(record: Session, w: seq<SessionEvent>, e: SessionEvent, now: Timestamp) returns (s: Session)
    ensures s == ApplyEvent(record, w, e, now)
  {
    s := record.(lastSeen := now, eventsCount := record.eventsCount + 1, cumulativeBytes := record.cumulativeBytes + BytesOf(e));
    assert s == Counted(record, e, now);
    ghost var counted := s;
    if s.cumulativeBytes > ByteThreshold {
      s := s.(status := Suspicious, alerts := s.alerts + [SessionAlert(HighDataTransfer, now, s.cumulativeBytes)]);
    }
    assert s == ByteCheck(counted, now);
    ghost var checked := s;
    var unique := UniqueDestinations(w);
    if unique > UniqueDstThreshold {
      s := s.(status := Suspicious, alerts := s.alerts + [SessionAlert(ManyUniqueDestinations, now, unique)]);
    }
    assert s == DestinationCheck(checked, unique, now);
  }

  class SessionMonitor {
    var sessions: map<string, Session>
    var windows: map<string, seq<SessionEvent>>

    /** No window outgrows its deque. */
    ghost predicate Valid()
      reads this
    {
      Bounded(windows)
    }

    constructor()
      ensures Valid() && sessions == map[] && windows == map[]
    {
      sessions := map[];
      windows := map[];
    }

    /** `create_session`: replaces any record under `id`; the id's event window is kept. */
    method CreateSession(id: string, context: map<string, string>, now: Timestamp) returns (s: Session)
      requires Valid()
      modifies this
      ensures Valid()
      ensures s == NewSession(id, context, now)
      ensures sessions == old(sessions)[id := s] && windows == old(windows)
    {
      s := NewSession(id, context, now);
      sessions := sessions[id := s];
    }

    /**
      `update_session`: an unknown id is first created with an empty context; then the event is
      counted, pushed on the window and both anomaly checks run.
    */
    method UpdateSession(id: string, e: SessionEvent, now: Timestamp) returns (s: Session)
      requires Valid()
      modifies this
      ensures Valid()
      ensures windows == old(windows)[id := Push(WindowOf(old(windows), id), e)]
      ensures s == ApplyEvent(SessionOrNew(old(sessions), id, now), windows[id], e, now)
      ensures sessions == old(sessions)[id := s]
    {
      var record: Session;
      if id in sessions {
        record := sessions[id];
      } else {
        // the record `create_session` would store; it is stored below, updated
        record := NewSession(id, map[], now);
      }
      var w := Push(WindowOf(windows, id), e);
      s := RecordEvent(record, w, e, now);
      StoreBounded(windows, id, w);
      windows := windows[id := w];
      sessions := sessions[id := s];
    }

    /** `check_session`: an unknown id is reported, not created; a known one may be quarantined. */
    method CheckSession(id: string) returns (r: Lookup)
      requires Valid()
      modifies this
      ensures Valid()
      ensures id !in old(sessions) ==> r == NotFound(id) && sessions == old(sessions)
      ensures id in old(sessions) ==>
                r == Found(Escalate(old(sessions)[id])) && sessions == old(sessions)[id := r.session]
      ensures windows == old(windows)
    {
      if id !in sessions {
        return NotFound(id);
      }
      var s := sessions[id];
      if |s.alerts| >= 2 {
        s := s.(status := Quarantined);
        sessions := sessions[id := s];
      }
      r := Found(s);
    }

    /** `end_session`: a known session ends now; an unknown id is ignored. */
    method EndSession(id: string, now: Timestamp)
      requires Valid()
      modifies this
      ensures Valid()
      ensures id in old(sessions) ==> sessions == old(sessions)[id := EndRecord(old(sessions)[id], now)]
      ensures id !in old(sessions) ==> sessions == old(sessions)
      ensures windows == old(windows)
    {
      if id in sessions {
        sessions := sessions[id := EndRecord(sessions[id], now)];
      }
    }
  }

  // ---- properties ------------------------------------------------------------

  /** Each event contributes at most one destination. */
  lemma {:induction false} DestinationsBound(es: seq<SessionEvent>)
    ensures |DestinationsOf(es)| <= |es|
  {
    if es != [] {
      DestinationsBound(es[1..]);
    }
  }

  /** The destinations are exactly the truthy `dst_ip` values of the events. */
  lemma {:induction false} DestinationsIn(es: seq<SessionEvent>, d: string)
    ensures d in DestinationsOf(es) <==> exists i | 0 <= i < |es| :: HasDestination(es[i]) && es[i].dstIp.value == d
  {
    if es != [] {
      DestinationsIn(es[1..], d);
      if d in DestinationsOf(es[1..]) {
        var i :| 0 <= i < |es[1..]| && HasDestination(es[1..][i]) && es[1..][i].dstIp.value == d;
        assert HasDestination(es[i + 1]) && es[i + 1].dstIp.value == d;
      }
      if exists i | 0 <= i < |es| :: HasDestination(es[i]) && es[i].dstIp.value == d {
        var i :| 0 <= i < |es| && HasDestination(es[i]) && es[i].dstIp.value == d;
        if i > 0 {
          assert es[1..][i - 1] == es[i];
        }
      }
    }
  }

  /** Events with pairwise different, truthy destinations count one destination each. */
  lemma {:induction false} DistinctDestinations(es: seq<SessionEvent>)
    requires forall i | 0 <= i < |es| :: HasDestination(es[i])
    requires forall i, j | 0 <= i < j < |es| :: es[i].dstIp != es[j].dstIp
    ensures |DestinationsOf(es)| == |es|
  {
    if es != [] {
      DistinctDestinations(es[1..]);
      DestinationsIn(es[1..], es[0].dstIp.value);
    }
  }

  lemma {:induction false} DestinationsAppend(a: seq<SessionEvent>, b: seq<SessionEvent>)
    ensures DestinationsOf(a + b) == DestinationsOf(a) + DestinationsOf(b)
  {
    if a == [] {
      assert a + b == b;
    } else {
      assert (a + b)[1..] == a[1..] + b;
      DestinationsAppend(a[1..], b);
    }
  }

  lemma {:induction false} SubsetSize<T>(a: set<T>, b: set<T>)
    requires a <= b
    ensures |a| <= |b|
  {
    assert b == a + (b - a);
  }

  /** A window of at most 20 events never raises the destination alert. */
  lemma {:induction false} ShortWindowNoDestinationAlert(w: seq<SessionEvent>)
    requires |w| <= UniqueDstThreshold
    ensures UniqueDestinations(w) <= UniqueDstThreshold
  {
    DestinationsBound(Recent(w));
  }

  /** Whatever the window, the destination count is at most 50. */
  lemma {:induction false} UniqueDestinationsAtMostRecent(w: seq<SessionEvent>)
    ensures UniqueDestinations(w) <= RecentCount
  {
    DestinationsBound(Recent(w));
  }

  /** When the newest 21 events of a window go to 21 different destinations, the window counts more than 20. */
  lemma {:induction false} NewestDistinctCounted(w: seq<SessionEvent>)
    requires |w| >= UniqueDstThreshold + 1
    requires forall i | |w| - UniqueDstThreshold - 1 <= i < |w| :: HasDestination(w[i])
    requires forall i, j | |w| - UniqueDstThreshold - 1 <= i < j < |w| :: w[i].dstIp != w[j].dstIp
    ensures UniqueDestinations(w) > UniqueDstThreshold
  {
    var off := |w| - UniqueDstThreshold - 1;
    SuffixDistinct(w, off);
    RecentCovers(w, off);
    SubsetSize(DestinationsOf(w[off..]), DestinationsOf(Recent(w)));
  }

  lemma {:induction false} SuffixDistinct(w: seq<SessionEvent>, off: nat)
    requires off <= |w|
    requires forall i | off <= i < |w| :: HasDestination(w[i])
    requires forall i, j | off <= i < j < |w| :: w[i].dstIp != w[j].dstIp
    ensures |DestinationsOf(w[off..])| == |w| - off
  {
    var last := w[off..];
    forall i | 0 <= i < |last| ensures HasDestination(last[i]) {
      assert last[i] == w[off + i];
    }
    forall i, j | 0 <= i < j < |last| ensures last[i].dstIp != last[j].dstIp {
      assert last[i] == w[off + i] && last[j] == w[off + j];
    }
    DistinctDestinations(last);
  }

  /** The destinations of a suffix of at most 50 events are among those the window counts. */
  lemma {:induction false} RecentCovers(w: seq<SessionEvent>, off: nat)
    requires off <= |w| && |w| - off <= RecentCount
    ensures DestinationsOf(w[off..]) <= DestinationsOf(Recent(w))
  {
    var recent := Recent(w);
    var k := |recent| - (|w| - off);
    assert recent[k..] == w[off..];
    assert recent == recent[..k] + w[off..];
    DestinationsAppend(recent[..k], w[off..]);
  }

  /**
    ... so the update that pushed the last of them marks the session suspicious and ends its
    alerts with a many-destinations alert.
  */
  lemma {:induction false} ManyDestinationsFlag(s: Session, w: seq<SessionEvent>, e: SessionEvent, now: Timestamp)
    requires |w| >= UniqueDstThreshold + 1
    requires forall i | |w| - UniqueDstThreshold - 1 <= i < |w| :: HasDestination(w[i])
    requires forall i, j | |w| - UniqueDstThreshold - 1 <= i < j < |w| :: w[i].dstIp != w[j].dstIp
    ensures ApplyEvent(s, w, e, now).status == Suspicious
    ensures var r := ApplyEvent(s, w, e, now);
            |r.alerts| > |s.alerts| && r.alerts[|r.alerts| - 1].reason == ManyUniqueDestinations
  {
    NewestDistinctCounted(w);
  }

  /** With non-negative traffic the byte counter never decreases. */
  lemma {:induction false} BytesNeverDecrease(s: Session, w: seq<SessionEvent>, e: SessionEvent, now: Timestamp)
    requires BytesOf(e) >= 0
    ensures ApplyEvent(s, w, e, now).cumulativeBytes >= s.cumulativeBytes
  {
  }

  /** Once over the byte threshold, every further non-negative update appends another alert. */
  lemma {:induction false} ByteAlertRepeats(s: Session, w: seq<SessionEvent>, e: SessionEvent, now: Timestamp)
    requires s.cumulativeBytes > ByteThreshold && BytesOf(e) >= 0
    ensures var r := ApplyEvent(s, w, e, now);
            r.status == Suspicious && |r.alerts| > |s.alerts| && r.alerts[|s.alerts|].reason == HighDataTransfer
  {
  }

  /** An update that raises no alert keeps the status, so an ended session stays ended. */
  lemma {:induction false} QuietUpdateKeepsStatus(s: Session, w: seq<SessionEvent>, e: SessionEvent, now: Timestamp)
    requires s.cumulativeBytes + BytesOf(e) <= ByteThreshold && |w| <= UniqueDstThreshold
    ensures ApplyEvent(s, w, e, now).status == s.status
    ensures ApplyEvent(s, w, e, now).alerts == s.alerts
  {
    ShortWindowNoDestinationAlert(w);
  }

  /** Escalation is idempotent: a second check changes nothing further. */
  lemma {:induction false} EscalateIdempotent(s: Session)
    ensures Escalate(Escalate(s)) == Escalate(s)
  {
  }

  /** Ending twice leaves the session ended; only the end time moves to the second call. */
  lemma {:induction false} EndTwice(s: Session, t1: Timestamp, t2: Timestamp)
    ensures EndRecord(EndRecord(s, t1), t2) == EndRecord(s, t2)
  {
  }

  /** The ended state is not terminal for `check_session`: two alerts still quarantine it. */
  lemma {:induction false} EndedSessionRequarantined(s: Session, now: Timestamp)
    requires |s.alerts| >= 2
    ensures Escalate(EndRecord(s, now)).status == Quarantined
  {
  }

  /** Events without a destination contribute none. */
  lemma {:induction false} NoDestinations(es: seq<SessionEvent>)
    requires forall i | 0 <= i < |es| :: !HasDestination(es[i])
    ensures DestinationsOf(es) == {}
  {
    if es != [] {
      NoDestinations(es[1..]);
    }
  }

  /** Storing under the only key a map may hold leaves a one-entry map. */
  lemma {:induction false} SingleKeyUpdate<K, V>(m: map<K, V>, k: K, v: V)
    requires forall j | j in m :: j == k
    ensures m[k := v] == map[k := v]
  {
  }

  /** A window without destinations never raises the destination alert. */
  lemma {:induction false} QuietWindow(w: seq<SessionEvent>)
    requires forall i | 0 <= i < |w| :: !HasDestination(w[i])
    ensures UniqueDestinations(w) == 0
  {
    NoDestinations(Recent(w));
  }

  /** The record of a session after `i` quiet events of 1 MiB each. */
  ghost predicate FedMiB(s: Session, i: nat) {
    && s.cumulativeBytes == i * 1048576
    && (i <= 100 ==> s.alerts == [] && s.status == Active)
    && (i > 100 ==> |s.alerts| == i - 100 && s.status == Suspicious)
    && (forall k | 0 <= k < |s.alerts| :: s.alerts[k].reason == HighDataTransfer)
  }

  /** One more quiet event of 1 MiB: from the 101st on, each raises one more transfer alert. */
  lemma {:induction false} FeedStep(s: Session, w: seq<SessionEvent>, e: SessionEvent, now: Timestamp, i: nat)
    requires FedMiB(s, i) && BytesOf(e) == 1048576 && UniqueDestinations(w) == 0
    ensures FedMiB(ApplyEvent(s, w, e, now), i + 1)
  {
    var r := ApplyEvent(s, w, e, now);
    assert r.cumulativeBytes == (i + 1) * 1048576;
    assert r.cumulativeBytes > ByteThreshold <==> i + 1 > 100;
    forall k | 0 <= k < |r.alerts| ensures r.alerts[k].reason == HighDataTransfer {
      if k < |s.alerts| {
        assert r.alerts[k] == r.alerts[..|s.alerts|][k];
      }
    }
  }

  /** `i` copies of the event `e`. */
  function Copies(e: SessionEvent, i: nat): (r: seq<SessionEvent>)
    ensures |r| == i && forall k | 0 <= k < i :: r[k] == e
  {
    seq(i, _ => e)
  }

  /** Pushing `e` on a window of `i` copies of it, below capacity, gives `i + 1` copies and no destinations. */
  lemma {:induction false} RepeatPush(e: SessionEvent, i: nat)
    requires i < WindowCapacity && !HasDestination(e)
    ensures Push(Copies(e, i), e) == Copies(e, i + 1)
    ensures UniqueDestinations(Copies(e, i + 1)) == 0
  {
    assert Copies(e, i) + [e] == Copies(e, i + 1);
    QuietWindow(Copies(e, i + 1));
  }

  /** Feeds the session "s1" of a monitor that tracks only that session `n` events `e`, one by one. */
  method FeedSession(m: SessionMonitor, e: SessionEvent, n: nat, now: Timestamp) returns (s: Session)
    requires m.Valid() && n <= WindowCapacity
    requires m.sessions == map["s1" := NewSession("s1", map[], now)] && m.windows == map[]
    requires BytesOf(e) == 1048576 && !HasDestination(e)
    modifies m
    ensures m.Valid() && m.sessions == map["s1" := s]
    ensures s.cumulativeBytes == n * 1048576
    ensures n <= 100 ==> s.alerts == [] && s.status == Active
    ensures n > 100 ==> |s.alerts| == n - 100 && s.status == Suspicious
    ensures forall k | 0 <= k < |s.alerts| :: s.alerts[k].reason == HighDataTransfer
  {
    s := m.sessions["s1"];
    var i := 0;
    while i < n
      invariant i <= n && Fed(m, s, e, i)
    {
      s := FeedOne(m, s, e, i, now);
      i := i + 1;
    }
  }

  /** The monitor tracks only "s1", whose window holds `i` copies of `e` and whose record is `s`. */
  ghost predicate Fed(m: SessionMonitor, s: Session, e: SessionEvent, i: nat)
    reads m
  {
    && m.Valid()
    && m.sessions == map["s1" := s]
    && m.windows == (if i == 0 then map[] else map["s1" := Copies(e, i)])
    && FedMiB(s, i)
  }

  /** One `update_session` of "s1" with the quiet 1 MiB event `e`. */
  method FeedOne(m: SessionMonitor, s: Session, e: SessionEvent, i: nat, now: Timestamp) returns (s': Session)
    requires Fed(m, s, e, i) && i < WindowCapacity
    requires BytesOf(e) == 1048576 && !HasDestination(e)
    modifies m
    ensures Fed(m, s', e, i + 1)
  {
    assert WindowOf(m.windows, "s1") == Copies(e, i);
    RepeatPush(e, i);
    FeedStep(s, Copies(e, i + 1), e, now, i);
    ghost var (sessions, windows) := (m.sessions, m.windows);
    s' := m.UpdateSession("s1", e, now);
    SingleKeyUpdate(sessions, "s1", s');
    SingleKeyUpdate(windows, "s1", Copies(e, i + 1));
  }

  /**
    Feeding one session 101 events of 1 MiB each makes it suspicious with one
    high-data-transfer alert; the 102nd adds a second alert, so the next check quarantines it;
    ending it twice leaves it ended.
  */
  method HighTransferScenario(now: Timestamp) returns (checked: Lookup, ended: Session)
    ensures checked.Found? && checked.session.status == Quarantined
    ensures |checked.session.alerts| == 2 && checked.session.cumulativeBytes == 102 * 1048576
    ensures forall a | a in checked.session.alerts :: a.reason == HighDataTransfer
    ensures ended.status == Ended
  {
    var m := new SessionMonitor();
    var e := SessionEvent(now, Some("10.0.0.5"), None, Some(1048576), Some(443), "flow");
    var _ := m.CreateSession("s1", map[], now);
    SingleKeyUpdate(map[], "s1", NewSession("s1", map[], now));
    var s := FeedSession(m, e, 102, now);
    checked := m.CheckSession("s1");
    m.EndSession("s1", now);
    m.EndSession("s1", now);
    ended := m.sessions["s1"];
  }
}
