/**
  Automated responses (firewall_engine/response_automation.py): turning a filter decision into
  a deny rule in the shared rule store and into records in the action log.
  Every clock reading is `now`. The source stamps each record it writes separately; the model
  gives all records of one response the same reading.
*/
module ResponseAutomation {
  import opened Common
  import opened FirewallRules
  import opened PacketFilter
  import opened ActionLog

  /** The deny-everything-from-`ip` rule that `block_ip` adds. */
  function BlockRule(ip: Option<string>): PacketRule {
    PacketRule(Some("auto_block_" + TextOf(ip)), ip, Some(Wildcard), Some(Wildcard), Some(PortText(Wildcard)), Some("deny"), false)
  }

  /** A block rule matches exactly the packets from its address (every packet if the address is "*"). */
  lemma {:induction false} BlockRuleMatches(ip: Option<string>, p: Packet)
    ensures Matches(BlockRule(ip), p) <==> p.srcIp == ip || ip == Some(Wildcard)
  {
  }

  /** `block_ip`: adds the block rule (which saves the store), then logs "block_ip". */
  method BlockIp(ip: Option<string>, engine: RuleEngine, log: Log, now: Timestamp)
    modifies engine, log
    ensures engine.rules == old(engine.rules) + [BlockRule(ip)]
    ensures engine.persisted == Some(engine.rules)
    ensures log.entries == old(log.entries) + [LogEntry(now, "block_ip", BlockedIp(ip))]
  {
    engine.AddRule(BlockRule(ip));
    log.LogAction("block_ip", BlockedIp(ip), now);
  }

  /** `isolate_host`: a simulation; only the log records it. */
  method IsolateHost(host: Option<string>, log: Log, now: Timestamp)
    modifies log
    ensures log.entries == old(log.entries) + [LogEntry(now, "isolate_host", IsolatedHost(host))]
  {
    log.LogAction("isolate_host", IsolatedHost(host), now);
  }

  /** `send_alert` */
  method SendAlert(message: string, details: AlertDetails, log: Log, now: Timestamp)
    modifies log
    ensures log.entries == old(log.entries) + [LogEntry(now, "alert", AlertMessage(message, details))]
  {
    log.LogAction("alert", AlertMessage(message, details), now);
  }

  /** The rule list after responding to `d`: only "block" adds a rule. */
  function RulesAfter(rules: seq<PacketRule>, d: FilterDecision): seq<PacketRule> {
    if d.decision == Some("block") then rules + [BlockRule(d.packet.srcIp)] else rules
  }

  /** The records a response to `d` appends to the action log, in order. */
  function ResponseEntries(d: FilterDecision, now: Timestamp): seq<LogEntry> {
    if d.decision == Some("block") then
      [LogEntry(now, "block_ip", BlockedIp(d.packet.srcIp)),
       LogEntry(now, "alert", AlertMessage("Blocked malicious packet", PacketDetails(d.packet)))]
    else if d.decision == Some("allow") then
      [LogEntry(now, "allow", AllowedPacket(d.packet))]
    else
      [LogEntry(now, "isolate_host", IsolatedHost(d.packet.srcIp))]
  }

  /**
    `respond_to_decision`: "block" blocks the source and alerts, "allow" logs the packet, and
    anything else (a rule-based "deny" included) isolates the source host.
  */
  method RespondToDecision(d: FilterDecision, engine: RuleEngine, log: Log, now: Timestamp)
    modifies engine, log
    ensures engine.rules == RulesAfter(old(engine.rules), d)
    ensures d.decision == Some("block") ==> engine.persisted == Some(engine.rules)
    ensures d.decision != Some("block") ==> engine.persisted == old(engine.persisted)
    ensures log.entries == old(log.entries) + ResponseEntries(d, now)
  {
    var pkt := d.packet;
    if d.decision == Some("block") {
      BlockIp(pkt.srcIp, engine, log, now);
      SendAlert("Blocked malicious packet", PacketDetails(pkt), log, now);
    } else if d.decision == Some("allow") {
      log.LogAction("allow", AllowedPacket(pkt), now);
    } else {
      IsolateHost(pkt.srcIp, log, now);
    }
  }

  // ---- properties ------------------------------------------------------------

  /** A response never rewrites earlier rules; only "block" grows the list, by exactly one. */
  lemma {:induction false} OnlyBlockAddsRules(rules: seq<PacketRule>, d: FilterDecision)
    ensures |RulesAfter(rules, d)| == |rules| + (if d.decision == Some("block") then 1 else 0)
    ensures RulesAfter(rules, d)[..|rules|] == rules
  {
  }

  /** Every response appends one or two records, whatever the decision. */
  lemma {:induction false} ResponseLogsSomething(d: FilterDecision, now: Timestamp)
    ensures 1 <= |ResponseEntries(d, now)| <= 2
    ensures ResponseEntries(d, now)[0].timestamp == now
  {
  }

  /**
    A "deny" (the store's default answer, and the action of every rule this code installs) is
    answered by isolating the host, as is a decision without an action: one "isolate_host"
    record and no new rule.
  */
  lemma {:induction false} RuleBasedDenyIsolates(rules: seq<PacketRule>, d: FilterDecision, now: Timestamp)
    requires d.decision == Some("deny") || d.decision.None?
    ensures RulesAfter(rules, d) == rules
    ensures ResponseEntries(d, now) == [LogEntry(now, "isolate_host", IsolatedHost(d.packet.srcIp))]
  {
  }

  /** Blocking the same address twice adds two identical rules. */
  lemma {:induction false} RepeatedBlocksDuplicate(rules: seq<PacketRule>, d: FilterDecision)
    requires d.decision == Some("block")
    ensures RulesAfter(RulesAfter(rules, d), d) == rules + [BlockRule(d.packet.srcIp), BlockRule(d.packet.srcIp)]
  {
  }

  /**
    After a block, a later packet from the blocked source that no earlier rule matches is denied
    by the rule store.
  */
  lemma {:induction false} BlockedSourceDenied(rules: seq<PacketRule>, d: FilterDecision, p: Packet)
    requires d.decision == Some("block") && p.srcIp == d.packet.srcIp
    requires FirstMatch(rules, p).None?
    ensures DecideIn(RulesAfter(rules, d), p) == Some("deny")
  {
    BlockRuleMatches(d.packet.srcIp, p);
    AppendDecidesUnmatched(rules, BlockRule(d.packet.srcIp), p);
  }
}
