/**
  The decision combiner (firewall_engine/packet_filter.py): a confident "malicious" verdict from
  the ML stage blocks the packet outright; otherwise the packet rule store decides.
*/
module PacketFilter {
  import opened Common
  import opened FirewallRules

  /** The decision is None when the deciding rule has no action. */
  datatype FilterDecision = FilterDecision(decision: Option<string>, reason: string, packet: Packet)

  const AiReason := "AI detected malicious"

  /** `ai_pred == "malicious" and ai_confidence (default 0) > 0.8` */
  predicate AiShortCircuit(p: Packet) {
    p.aiPred == Some("malicious") && p.aiConfidence.GetOr(0.0) > 0.8
  }

  /** `inspect_packet` against the given rule list. */
  function Inspect(rules: seq<PacketRule>, p: Packet): (d: FilterDecision)
    ensures d.packet == p
    ensures AiShortCircuit(p) ==> d.decision == Some("block") && d.reason == AiReason
    ensures !AiShortCircuit(p) ==> d.decision == DecideIn(rules, p)
    ensures !AiShortCircuit(p) ==> d.reason == "Rule-based decision (" + TextOf(d.decision) + ")"
  {
    if AiShortCircuit(p) then FilterDecision(Some("block"), AiReason, p)
    else
      var decision := DecideIn(rules, p);
      FilterDecision(decision, "Rule-based decision (" + TextOf(decision) + ")", p)
  }

  /** The filter holds a reference to a rule store, shared with whoever built it. */
  class PacketFilter {
    const ruleEngine: RuleEngine

    constructor(engine: RuleEngine)
      ensures ruleEngine == engine
    {
      ruleEngine := engine;
    }

    /** Reads the shared store and changes nothing. */
    function InspectPacket(p: Packet): (d: FilterDecision)
      reads ruleEngine
      ensures d == Inspect(ruleEngine.rules, p)
    {
      Inspect(ruleEngine.rules, p)
    }
  }

  // ---- properties ------------------------------------------------------------

  /** A confident malicious verdict blocks whatever the rules say, even with an allow-all rule first. */
  lemma {:induction false} AiOverridesRules(rules: seq<PacketRule>, p: Packet)
    requires p.aiPred == Some("malicious") && p.aiConfidence == Some(0.93)
    ensures Inspect(rules, p).decision == Some("block")
    ensures Inspect(rules, p).reason == AiReason
  {
  }

  /** A confidence of exactly 0.8, or none at all, leaves the decision to the rules. */
  lemma {:induction false} ThresholdIsStrict(rules: seq<PacketRule>, p: Packet)
    requires p.aiConfidence == Some(0.8) || p.aiConfidence.None?
    ensures Inspect(rules, p).decision == DecideIn(rules, p)
  {
  }

  /**
    A rule stored as `{"action": null}` in first place: a packet without source, destination and
    protocol that the ML stage does not block gets no decision, and the reason prints it as None.
  */
  lemma {:induction false} NullActionRuleReason(rules: seq<PacketRule>, p: Packet)
    requires p.srcIp.None? && p.dstIp.None? && p.protocol.None? && !AiShortCircuit(p)
    ensures var n := PacketRule(None, None, None, None, None, None, true);
            Inspect([n] + rules, p).decision.None? &&
            Inspect([n] + rules, p).reason == "Rule-based decision (None)"
  {
    NullKeysRuleDecidesNone(rules, p);
  }

  /** The packet's trust score plays no part in the rule match. */
  lemma {:induction false} MatchIgnoresTrustScore(rules: seq<PacketRule>, p: Packet, t: Option<real>)
    ensures FirstMatch(rules, p.(trustScore := t)) == FirstMatch(rules, p)
  {
    if rules != [] {
      MatchIgnoresTrustScore(rules[1..], p, t);
    }
  }

  /** ... nor in the filter's decision. */
  lemma {:induction false} TrustScoreIrrelevant(rules: seq<PacketRule>, p: Packet, t: Option<real>)
    ensures Inspect(rules, p.(trustScore := t)).decision == Inspect(rules, p).decision
    ensures Inspect(rules, p.(trustScore := t)).reason == Inspect(rules, p).reason
  {
    MatchIgnoresTrustScore(rules, p, t);
  }
}
