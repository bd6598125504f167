/**
  Alert triage (incident_response/analyzer.py): a keyword cascade over the lower-cased,
  serialised alert, and a pass that tags every alert with its severity and analysis time.
  The serialisation (`json.dumps`) is not modelled: an alert carries its serialised text.
*/
module IncidentAnalyzer {
  import opened Common

  datatype Severity = Critical | High | Medium | Low

  /** The severity as the source spells it. */
  function Label(s: Severity): string {
    match s
    case Critical => "critical"
    case High => "high"
    case Medium => "medium"
    case Low => "low"
  }

  /** `str.lower()` on one character, for the ASCII letters. */
  function LowerChar(c: char): (r: char)
    ensures 'A' <= c <= 'Z' ==> r as int == c as int + 32
    ensures !('A' <= c <= 'Z') ==> r == c
  {
    if 'A' <= c <= 'Z' then (c as int + 32) as char else c
  }

  function Lower(s: string): (r: string)
    ensures |r| == |s|
    ensures forall i | 0 <= i < |s| :: r[i] == LowerChar(s[i])
  {
    seq(|s|, i requires 0 <= i < |s| => LowerChar(s[i]))
  }

  /** `key in text` for strings: `key` occurs somewhere in `text`. */
  predicate Contains(text: string, key: string)
    decreases |text|
  {
    |key| <= |text| && (text[..|key|] == key || Contains(text[1..], key))
  }

  /** `classify_severity`, applied to the serialised alert. */
  function ClassifySeverity(serialized: string): (r: Severity)
    ensures var msg := Lower(serialized);
            var critical := Contains(msg, "block_ip") || Contains(msg, "malicious");
            var high := Contains(msg, "isolate") || Contains(msg, "quarantine");
            var medium := Contains(msg, "alert") || Contains(msg, "deny");
            (r == Critical <==> critical) &&
            (r == High <==> !critical && high) &&
            (r == Medium <==> !critical && !high && medium) &&
            (r == Low <==> !critical && !high && !medium)
  {
    var msg := Lower(serialized);
    if Contains(msg, "block_ip") || Contains(msg, "malicious") then Critical
    else if Contains(msg, "isolate") || Contains(msg, "quarantine") then High
    else if Contains(msg, "alert") || Contains(msg, "deny") then Medium
    else Low
  }

  /** An alert dictionary: its serialised text and the two keys the analysis adds. */
  class AlertRecord {
    const serialized: string
    var severity: Option<Severity>
    var analyzedAt: Option<Timestamp>

    constructor(text: string)
      ensures serialized == text && severity.None? && analyzedAt.None?
    {
      serialized := text;
      severity := None;
      analyzedAt := None;
    }
  }

  /** No later position of `alerts` before `upTo` holds the same alert object as position `k`. */
  predicate LastUpTo(alerts: seq<AlertRecord>, k: nat, upTo: nat)
    requires k < upTo <= |alerts|
  {
    forall j | k < j < upTo :: alerts[j] != alerts[k]
  }

  /**
    `analyze_alerts`: tags every alert in place and returns the same alerts in the same order.
    The clock is read once per alert: `clock(k)` is the reading taken at position `k`. An alert
    object listed more than once ends with the reading of its last position.
  */
  method AnalyzeAlerts(alerts: seq<AlertRecord>, clock: nat -> Timestamp) returns (analyzed: seq<AlertRecord>)
    modifies set a | a in alerts
    ensures analyzed == alerts
    ensures forall k | 0 <= k < |alerts| :: alerts[k].severity == Some(ClassifySeverity(alerts[k].serialized))
    ensures forall k | 0 <= k < |alerts| && LastUpTo(alerts, k, |alerts|) :: alerts[k].analyzedAt == Some(clock(k))
  {
    analyzed := [];
    for i := 0 to |alerts|
      invariant analyzed == alerts[..i]
      invariant forall k | 0 <= k < i :: alerts[k].severity == Some(ClassifySeverity(alerts[k].serialized))
      invariant forall k | 0 <= k < i && LastUpTo(alerts, k, i) :: alerts[k].analyzedAt == Some(clock(k))
    {
      var a := alerts[i];
      var sev := ClassifySeverity(a.serialized);
      a.severity := Some(sev);
      a.analyzedAt := Some(clock(i));
      analyzed := analyzed + [a];
      forall k | 0 <= k < i + 1 && LastUpTo(alerts, k, i + 1)
        ensures alerts[k].analyzedAt == Some(clock(k))
      {
        if k < i {
          assert alerts[i] != alerts[k];
          assert LastUpTo(alerts, k, i);
        }
      }
    }
  }

  // ---- properties ------------------------------------------------------------

  /** `key` occurs in `text` starting at position `i`. */
  predicate OccursAt(text: string, key: string, i: int) {
    0 <= i && i + |key| <= |text| && text[i..i + |key|] == key
  }

  /** `Contains` agrees with the positional definition of a substring. */
  lemma {:induction false} ContainsAt(text: string, key: string)
    ensures Contains(text, key) <==> exists i :: OccursAt(text, key, i)
    decreases |text|
  {
    if |key| <= |text| {
      if text[..|key|] == key {
        assert OccursAt(text, key, 0);
      } else {
        ContainsAt(text[1..], key);
        if Contains(text[1..], key) {
          var j :| OccursAt(text[1..], key, j);
          assert text[1..][j..j + |key|] == text[j + 1..j + 1 + |key|];
          assert OccursAt(text, key, j + 1);
        }
        if exists i :: OccursAt(text, key, i) {
          var i :| OccursAt(text, key, i);
          assert i != 0;
          assert text[1..][i - 1..i - 1 + |key|] == text[i..i + |key|];
          assert OccursAt(text[1..], key, i - 1);
        }
      }
    }
  }

  /** A key inside the middle part of a text is contained in the whole text. */
  lemma {:induction false} ContainsInside(a: string, key: string, b: string)
    ensures Contains(a + key + b, key)
  {
    var text := a + key + b;
    assert OccursAt(text, key, |a|);
    ContainsAt(text, key);
  }

  lemma {:induction false} LowerAppend(a: string, b: string)
    ensures Lower(a + b) == Lower(a) + Lower(b)
  {
  }

  /**
    "malicious" anywhere in the serialised alert, in any letter case, makes it critical, even
    inside an allow entry and whatever other keyword the text holds.
  */
  lemma {:induction false} MaliciousAnywhereIsCritical(before: string, word: string, after: string)
    requires Lower(word) == "malicious"
    ensures ClassifySeverity(before + word + after) == Critical
  {
    LowerAppend(before + word, after);
    LowerAppend(before, word);
    ContainsInside(Lower(before), "malicious", Lower(after));
  }

  /** The logged allow of a packet the ML stage called malicious is classified critical. */
  lemma {:induction false} AllowedMaliciousPacketIsCritical()
    ensures ClassifySeverity("{\"action\": \"allow\", \"data\": {\"ai_pred\": \"malicious\"}}") == Critical
  {
    var before := "{\"action\": \"allow\", \"data\": {\"ai_pred\": \"";
    var after := "\"}}";
    assert before + "malicious" + after == "{\"action\": \"allow\", \"data\": {\"ai_pred\": \"malicious\"}}";
    MaliciousAnywhereIsCritical(before, "malicious", after);
  }

  /** An isolation record without critical keywords is high. */
  lemma {:induction false} IsolateIsHigh(before: string, after: string)
    requires !Contains(Lower(before + "isolate" + after), "block_ip")
    requires !Contains(Lower(before + "isolate" + after), "malicious")
    ensures ClassifySeverity(before + "isolate" + after) == High
  {
    assert Lower("isolate") == "isolate";
    LowerAppend(before + "isolate", after);
    LowerAppend(before, "isolate");
    ContainsInside(Lower(before), "isolate", Lower(after));
  }
}
