/**
  Automated incident response (incident_response/responder.py): dispatch on an incident's
  severity to blocking, host isolation and alerting, all through the response actions of the
  firewall engine.
*/
module IncidentResponder {
  import opened Common
  import opened FirewallRules
  import opened ActionLog
  import opened ResponseAutomation

  /** Python truthiness of an optional text: present and non-empty. */
  predicate Truthy(s: Option<string>) {
    s.Some? && s.value != ""
  }

  /** `data.get("ip") or data.get("src_ip")` */
  function SourceIp(d: IncidentData): (r: Option<string>)
    ensures Truthy(d.ip) ==> r == d.ip
    ensures !Truthy(d.ip) ==> r == d.srcIp
  {
    if Truthy(d.ip) then d.ip else d.srcIp
  }

  /** `incident.get("severity", "low")` */
  function SeverityOf(i: Incident): string {
    i.severity.GetOr("low")
  }

  const CriticalMessage := "Critical incident blocked"
  const HighMessage := "High severity incident isolated"
  const MediumMessage := "Medium severity alert review"

  /** The rule list after responding to `i`: only a critical incident with a source adds a block rule. */
  function IncidentRules(rules: seq<PacketRule>, i: Incident): seq<PacketRule> {
    if SeverityOf(i) == "critical" && Truthy(SourceIp(i.data)) then rules + [BlockRule(SourceIp(i.data))]
    else rules
  }

  /** The records a response to `i` appends to the action log, in order. */
  function IncidentEntries(i: Incident, now: Timestamp): seq<LogEntry> {
    var src := SourceIp(i.data);
    var sev := SeverityOf(i);
    if sev == "critical" then
      (if Truthy(src) then [LogEntry(now, "block_ip", BlockedIp(src))] else [])
      + [LogEntry(now, "alert", AlertMessage(CriticalMessage, IncidentDetails(i)))]
    else if sev == "high" then
      (if Truthy(src) then [LogEntry(now, "isolate_host", IsolatedHost(src))] else [])
      + [LogEntry(now, "alert", AlertMessage(HighMessage, IncidentDetails(i)))]
    else if sev == "medium" then
      [LogEntry(now, "alert", AlertMessage(MediumMessage, IncidentDetails(i)))]
    else
      []
  }

  /** `respond_to_incident` */
  method RespondToIncident(i: Incident, engine: RuleEngine, log: Log, now: Timestamp)
    modifies engine, log
    ensures engine.rules == IncidentRules(old(engine.rules), i)
    ensures engine.rules != old(engine.rules) ==> engine.persisted == Some(engine.rules)
    ensures engine.rules == old(engine.rules) ==> engine.persisted == old(engine.persisted)
    ensures log.entries == old(log.entries) + IncidentEntries(i, now)
  {
    var sev := SeverityOf(i);
    var src := SourceIp(i.data);
    if sev == "critical" {
      if Truthy(src) {
        BlockIp(src, engine, log, now);
      }
      SendAlert(CriticalMessage, IncidentDetails(i), log, now);
    } else if sev == "high" {
      if Truthy(src) {
        IsolateHost(src, log, now);
      }
      SendAlert(HighMessage, IncidentDetails(i), log, now);
    } else if sev == "medium" {
      SendAlert(MediumMessage, IncidentDetails(i), log, now);
    }
  }

  // ---- properties ------------------------------------------------------------

  /** Only a critical incident can add a rule, and it adds at most one, at the end. */
  lemma {:induction false} OnlyCriticalAddsRules(rules: seq<PacketRule>, i: Incident)
    ensures SeverityOf(i) != "critical" ==> IncidentRules(rules, i) == rules
    ensures |IncidentRules(rules, i)| <= |rules| + 1
    ensures IncidentRules(rules, i)[..|rules|] == rules
  {
  }

  /** Critical, high and medium incidents each end with exactly one alert record. */
  lemma {:induction false} OneAlertPerIncident(i: Incident, now: Timestamp)
    requires SeverityOf(i) in {"critical", "high", "medium"}
    ensures var es := IncidentEntries(i, now);
            |es| >= 1 && es[|es| - 1].action == "alert" &&
            forall k | 0 <= k < |es| - 1 :: es[k].action != "alert"
  {
  }

  /** A low, missing or unrecognised severity leaves both the rules and the log alone. */
  lemma {:induction false} LowSeverityDoesNothing(rules: seq<PacketRule>, i: Incident, now: Timestamp)
    requires SeverityOf(i) !in {"critical", "high", "medium"}
    ensures IncidentRules(rules, i) == rules
    ensures IncidentEntries(i, now) == []
  {
  }

  /** A missing severity is read as "low". */
  lemma {:induction false} MissingSeverityIsLow(i: Incident)
    requires i.severity.None?
    ensures SeverityOf(i) == "low"
  {
  }

  /** An empty `ip` falls back to `src_ip`, which then decides whether the host is blocked. */
  lemma {:induction false} EmptyIpFallsBack(rules: seq<PacketRule>, src: string, now: Timestamp)
    requires src != ""
    ensures var i := Incident(Some("critical"), IncidentData(Some(""), Some(src)));
            IncidentRules(rules, i) == rules + [BlockRule(Some(src))]
  {
  }

  /**
    After a critical incident with a source address, a later packet from that address that no
    earlier rule matches is denied.
  */
  lemma {:induction false} CriticalSourceDenied(rules: seq<PacketRule>, i: Incident, p: Packet)
    requires SeverityOf(i) == "critical" && Truthy(SourceIp(i.data))
    requires p.srcIp == SourceIp(i.data) && FirstMatch(rules, p).None?
    ensures DecideIn(IncidentRules(rules, i), p) == Some("deny")
  {
    BlockRuleMatches(SourceIp(i.data), p);
    AppendDecidesUnmatched(rules, BlockRule(SourceIp(i.data)), p);
  }
}
