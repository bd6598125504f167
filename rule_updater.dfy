/**
  Bulk insertion of threat-feed deny rules (threat_intelligence/rule_updater.py).
*/
module RuleUpdater {
  import opened Common
  import opened FirewallRules

  /** At most this many feed addresses are turned into rules per update. */
  const FeedLimit := 1000

  /** The deny-everything-from-`ip` rule for a feed address. */
  function ThreatRule(ip: string): PacketRule {
    PacketRule(Some("threat_feed_" + ip), Some(ip), Some(Wildcard), Some(Wildcard), Some(PortText(Wildcard)), Some("deny"), false)
  }

  /** One threat rule per address, in list order. */
  function ThreatRules(ips: seq<string>): (r: seq<PacketRule>)
    ensures |r| == |ips|
    ensures forall i | 0 <= i < |ips| :: r[i] == ThreatRule(ips[i])
  {
    if ips == [] then [] else [ThreatRule(ips[0])] + ThreatRules(ips[1..])
  }

  /** `ips[:1000]` */
  function FeedBatch(ips: seq<string>): (b: seq<string>)
    ensures |b| == if |ips| < FeedLimit then |ips| else FeedLimit
    ensures b == ips[..|b|]
  {
    if |ips| <= FeedLimit then ips else ips[..FeedLimit]
  }

  /** `parsed_data.get("ips", [])` */
  function FeedIps(parsed: map<string, seq<string>>): seq<string> {
    if "ips" in parsed then parsed["ips"] else []
  }

  /**
    `update_firewall_rules`: adds one deny rule per address among the first 1000 of the feed, in
    order, behind the existing rules; `added` is the count the source logs.
  */
  method UpdateFirewallRules(parsed: map<string, seq<string>>, engine: RuleEngine) returns (added: nat)
    modifies engine
    ensures engine.rules == old(engine.rules) + ThreatRules(FeedBatch(FeedIps(parsed)))
    ensures added == |FeedBatch(FeedIps(parsed))|
    ensures added > 0 ==> engine.persisted == Some(engine.rules)
    ensures added == 0 ==> engine.persisted == old(engine.persisted)
  {
    var batch := FeedBatch(FeedIps(parsed));
    added := 0;
    for i := 0 to |batch|
      invariant added == i
      invariant engine.rules == old(engine.rules) + ThreatRules(batch[..i])
      invariant i > 0 ==> engine.persisted == Some(engine.rules)
      invariant i == 0 ==> engine.persisted == old(engine.persisted)
    {
      assert batch[..i + 1] == batch[..i] + [batch[i]];
      ThreatRulesAppend(batch[..i], batch[i]);
      engine.AddRule(ThreatRule(batch[i]));
      added := added + 1;
    }
    assert batch[..|batch|] == batch;
  }

  lemma {:induction false} ThreatRulesAppend(ips: seq<string>, ip: string)
    ensures ThreatRules(ips + [ip]) == ThreatRules(ips) + [ThreatRule(ip)]
  {
    if ips != [] {
      assert (ips + [ip])[1..] == ips[1..] + [ip];
      ThreatRulesAppend(ips[1..], ip);
    }
  }

  /**
    A threat rule matches every packet from its address, so once appended it denies that address
    unless an earlier rule already decides the packet.
  */
  lemma {:induction false} ThreatRuleMatchesItsAddress(rules: seq<PacketRule>, ip: string, p: Packet)
    requires p.srcIp == Some(ip)
    ensures Matches(ThreatRule(ip), p)
    ensures DecideIn(rules + [ThreatRule(ip)], p) ==
              if FirstMatch(rules, p).Some? then DecideIn(rules, p) else Some("deny")
  {
    if FirstMatch(rules, p).Some? {
      AppendKeepsEarlierMatch(rules, ThreatRule(ip), p);
    } else {
      AppendDecidesUnmatched(rules, ThreatRule(ip), p);
    }
  }

  /** A feed without an "ips" key adds nothing; a long feed adds exactly 1000 rules. */
  lemma {:induction false} BatchSize(parsed: map<string, seq<string>>)
    ensures "ips" !in parsed ==> ThreatRules(FeedBatch(FeedIps(parsed))) == []
    ensures "ips" in parsed && |parsed["ips"]| >= FeedLimit ==> |ThreatRules(FeedBatch(FeedIps(parsed)))| == FeedLimit
  {
  }
}
