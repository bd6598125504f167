/**
  The firewall pipeline (firewall_engine/integration.py): verify the access context, stamp the
  resulting trust score on the packet, let the filter decide, and respond to the decision, all
  against one rule store shared by the firewall and its filter.
*/
module Integration {
  import opened Common
  import opened IdentityVerification
  import opened FirewallRules
  import opened PacketFilter
  import opened ActionLog
  import opened ResponseAutomation

  datatype FirewallResult = FirewallResult(zt: ContextVerdict, decision: FilterDecision)

  class AIFirewall {
    const ruleEngine: RuleEngine
    const filter: PacketFilter

    /** The filter inspects packets against the firewall's own rule store. */
    ghost predicate Valid() {
      filter.ruleEngine == ruleEngine
    }

    /** `__init__`: one rule store, loaded from the rules file, shared with a new filter. */
    constructor(stored: Option<seq<PacketRule>>)
      ensures Valid() && fresh(ruleEngine) && fresh(filter)
      ensures ruleEngine.rules == stored.GetOr([]) && ruleEngine.persisted == stored
    {
      var engine := new RuleEngine(stored);
      ruleEngine := engine;
      filter := new PacketFilter(engine);
    }

    /**
      `process_packet`: the packet's `trust_score` becomes the context score, the filter inspects
      the updated packet, and the response is applied once, to that decision, on the shared store.
    */
    method ProcessPacket(packet: Packet, context: Context, log: Log, now: Timestamp) returns (result: FirewallResult)
      requires Valid()
      modifies ruleEngine, log
      ensures result.zt == VerifyContext(context)
      ensures result.decision == Inspect(old(ruleEngine.rules), packet.(trustScore := Some(result.zt.score)))
      ensures ruleEngine.rules == RulesAfter(old(ruleEngine.rules), result.decision)
      ensures ruleEngine.persisted == if result.decision.decision == Some("block") then Some(ruleEngine.rules)
                                      else old(ruleEngine.persisted)
      ensures log.entries == old(log.entries) + ResponseEntries(result.decision, now)
    {
      var zt := VerifyContext(context);
      var stamped := packet.(trustScore := Some(zt.score));
      var decision := filter.InspectPacket(stamped);
      RespondToDecision(decision, ruleEngine, log, now);
      result := FirewallResult(zt, decision);
    }
  }

  /**
    Starting from an empty rule list, once a confidently malicious packet from an address has
    been processed, any later packet from that address that the ML stage does not flag is denied.
  */
  lemma {:induction false} RepeatOffenderDenied(first: Packet, later: Packet, c1: Context, c2: Context)
    requires AiShortCircuit(first) && !AiShortCircuit(later) && later.srcIp == first.srcIp
    ensures var d1 := Inspect([], first.(trustScore := Some(VerifyContext(c1).score)));
            var rules := RulesAfter([], d1);
            Inspect(rules, later.(trustScore := Some(VerifyContext(c2).score))).decision == Some("deny")
  {
    var d1 := Inspect([], first.(trustScore := Some(VerifyContext(c1).score)));
    var p2 := later.(trustScore := Some(VerifyContext(c2).score));
    BlockedSourceDenied([], d1, p2);
  }

  /** The same scenario run through a firewall that starts without a rules file. */
  method RepeatOffenderScenario(first: Packet, later: Packet, c1: Context, c2: Context, log: Log, t1: Timestamp, t2: Timestamp)
    returns (second: FirewallResult)
    requires AiShortCircuit(first) && !AiShortCircuit(later) && later.srcIp == first.srcIp
    modifies log
    ensures second.decision.decision == Some("deny")
  {
    var fw := new AIFirewall(None);
    var _ := fw.ProcessPacket(first, c1, log, t1);
    second := fw.ProcessPacket(later, c2, log, t2);
    RepeatOffenderDenied(first, later, c1, c2);
  }
}
