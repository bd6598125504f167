/**
  The packet rule store (firewall_engine/rule_engine.py): rules over source and destination
  address, protocol and port, kept in insertion order, first match wins, default deny.

  Rules and packets are JSON dictionaries in the source, so every field the matcher reads may be
  missing; `rule.get(f) in [packet.get(f), "*"]` then compares None with None. The model keeps
  that: address and protocol fields are `Option<string>`, ports `Option<Port>`.
  The rules file is the `persisted` field: None while no file exists, otherwise the list last
  written. `decide` also tests the rule dictionary's truth, which depends on its keys and not on
  their values, so a rule records whether it holds a key its fields do not show.
*/
module FirewallRules {
  import opened Common

  /** A JSON port value: a number, or a string such as the wildcard. */
  datatype Port = PortNum(n: int) | PortText(s: string)

  datatype PacketRule = PacketRule(
    id: Option<string>,
    srcIp: Option<string>,
    dstIp: Option<string>,
    protocol: Option<string>,
    port: Option<Port>,
    action: Option<string>,
    /** The dictionary holds a key the fields above leave as None: a key holding null, or any other key. */
    otherKeys: bool)

  /** A packet as the filter sees it, with the fields attached by the ML and trust stages. */
  datatype Packet = Packet(
    srcIp: Option<string>,
    dstIp: Option<string>,
    protocol: Option<string>,
    port: Option<Port>,
    aiPred: Option<string>,
    aiConfidence: Option<real>,
    trustScore: Option<real>)

  const Wildcard := "*"
  const DefaultAction := "deny"

  /** `rule.get(f) in [packet.get(f), "*"]` */
  predicate FieldMatches(ruleField: Option<string>, packetField: Option<string>) {
    ruleField == packetField || ruleField == Some(Wildcard)
  }

  /** `rule.get("port") in [packet.get("port"), "*", None]`: a rule without a port matches any port. */
  predicate PortMatches(rulePort: Option<Port>, packetPort: Option<Port>) {
    rulePort == packetPort || rulePort == Some(PortText(Wildcard)) || rulePort.None?
  }

  predicate Matches(r: PacketRule, p: Packet) {
    && FieldMatches(r.srcIp, p.srcIp)
    && FieldMatches(r.dstIp, p.dstIp)
    && FieldMatches(r.protocol, p.protocol)
    && PortMatches(r.port, p.port)
  }

  /** The index of the first rule, in stored order, that matches `p`. */
  function FirstMatch(rules: seq<PacketRule>, p: Packet): (r: Option<nat>)
    ensures r.Some? ==> r.value < |rules| && Matches(rules[r.value], p)
    ensures r.Some? ==> forall j | 0 <= j < r.value :: !Matches(rules[j], p)
    ensures r.None? ==> forall j | 0 <= j < |rules| :: !Matches(rules[j], p)
  {
    if rules == [] then None
    else if Matches(rules[0], p) then Some(0)
    else match FirstMatch(rules[1..], p)
      case None => None
      case Some(i) => Some(i + 1)
  }

  /** `match`: the first matching rule, or None. */
  function MatchIn(rules: seq<PacketRule>, p: Packet): (r: Option<PacketRule>)
    ensures r.Some? <==> exists j | 0 <= j < |rules| :: Matches(rules[j], p)
    ensures r.Some? ==> r.value in rules && Matches(r.value, p)
  {
    match FirstMatch(rules, p)
    case None => None
    case Some(i) => Some(rules[i])
  }

  /** The empty rule dictionary `{}`, the only falsy rule: it holds no key at all. */
  predicate EmptyRule(r: PacketRule) {
    r == PacketRule(None, None, None, None, None, None, false)
  }

  /**
    `decide`: the first matching rule's `action` (None when that rule has no action), and
    "deny" when nothing matches or the match is the falsy empty rule.
  */
  function DecideIn(rules: seq<PacketRule>, p: Packet): (a: Option<string>)
    ensures FirstMatch(rules, p).None? ==> a == Some(DefaultAction)
    ensures FirstMatch(rules, p).Some? && EmptyRule(rules[FirstMatch(rules, p).value]) ==> a == Some(DefaultAction)
    ensures FirstMatch(rules, p).Some? && !EmptyRule(rules[FirstMatch(rules, p).value]) ==>
              a == rules[FirstMatch(rules, p).value].action
  {
    match MatchIn(rules, p)
    case None => Some(DefaultAction)
    case Some(r) => if EmptyRule(r) then Some(DefaultAction) else r.action
  }

  /** `[r for r in rules if r.get("id") != rule_id]`: rules without an id are never removed. */
  function WithoutId(rules: seq<PacketRule>, id: string): (r: seq<PacketRule>)
    ensures forall x | x in r :: x.id != Some(id)
    ensures forall x | x in rules && x.id != Some(id) :: x in r
    ensures forall x | x in r :: x in rules
    ensures |r| <= |rules|
  {
    if rules == [] then []
    else (if rules[0].id != Some(id) then [rules[0]] else []) + WithoutId(rules[1..], id)
  }

  class RuleEngine {
    var rules: seq<PacketRule>
    /** The rules file: None until one exists, then the rule list as last saved. */
    var persisted: Option<seq<PacketRule>>

    /** The in-memory list is what the file holds (or empty while there is no file). */
    ghost predicate Synced()
      reads this
    {
      rules == persisted.GetOr([])
    }

    /** `__init__`: start empty, then load whatever the rules file holds. */
    constructor(stored: Option<seq<PacketRule>>)
      ensures persisted == stored && rules == stored.GetOr([])
      ensures Synced()
    {
      rules := [];
      persisted := stored;
      new;
      Load();
    }

    /** `load`: replaces the list by the file's contents, verbatim and in order; no file, no change. */
    method Load()
      modifies this`rules
      ensures rules == if persisted.Some? then persisted.value else old(rules)
    {
      if persisted.Some? {
        rules := persisted.value;
      }
    }

    /** `save`: overwrites the file with the current list. */
    method Save()
      modifies this`persisted
      ensures persisted == Some(rules)
    {
      persisted := Some(rules);
    }

    /** `add_rule`: appends at the end (no id-uniqueness check) and saves. */
    method AddRule(r: PacketRule)
      modifies this
      ensures rules == old(rules) + [r]
      ensures persisted == Some(rules)
    {
      rules := rules + [r];
      Save();
    }

    /** `remove_rule`: drops every rule with that id, keeps the rest in order, and saves. */
    method RemoveRule(id: string)
      modifies this
      ensures rules == WithoutId(old(rules), id)
      ensures persisted == Some(rules)
    {
      rules := WithoutId(rules, id);
      Save();
    }

    function Match(p: Packet): (r: Option<PacketRule>)
      reads this
      ensures r == MatchIn(rules, p)
    {
      MatchIn(rules, p)
    }

    function Decide(p: Packet): (a: Option<string>)
      reads this
      ensures a == DecideIn(rules, p)
    {
      DecideIn(rules, p)
    }
  }

  // ---- properties ------------------------------------------------------------

  /** An empty store denies every packet. */
  lemma {:induction false} EmptyStoreDenies(p: Packet)
    ensures DecideIn([], p) == Some("deny")
  {
  }

  /** Appending a rule never changes the outcome for a packet an earlier rule already matches. */
  lemma {:induction false} AppendKeepsEarlierMatch(rules: seq<PacketRule>, r: PacketRule, p: Packet)
    requires FirstMatch(rules, p).Some?
    ensures FirstMatch(rules + [r], p) == FirstMatch(rules, p)
    ensures DecideIn(rules + [r], p) == DecideIn(rules, p)
  {
    if !Matches(rules[0], p) {
      assert (rules + [r])[1..] == rules[1..] + [r];
      AppendKeepsEarlierMatch(rules[1..], r, p);
    }
  }

  /** An appended rule decides exactly the packets no earlier rule matches. */
  lemma {:induction false} AppendDecidesUnmatched(rules: seq<PacketRule>, r: PacketRule, p: Packet)
    requires FirstMatch(rules, p).None?
    ensures DecideIn(rules + [r], p) == if Matches(r, p) && !EmptyRule(r) then r.action else Some(DefaultAction)
  {
    if Matches(r, p) {
      FirstMatchIs(rules + [r], p, |rules|);
    } else {
      assert forall j | 0 <= j < |rules + [r]| :: !Matches((rules + [r])[j], p);
    }
  }

  /** FirstMatch is determined by its contract. */
  lemma {:induction false} FirstMatchIs(rules: seq<PacketRule>, p: Packet, i: nat)
    requires i < |rules| && Matches(rules[i], p)
    requires forall j | 0 <= j < i :: !Matches(rules[j], p)
    ensures FirstMatch(rules, p) == Some(i)
  {
    if i > 0 {
      FirstMatchIs(rules[1..], p, i - 1);
    }
  }

  /** Removal distributes over concatenation, so the kept rules stay in their relative order. */
  lemma {:induction false} WithoutIdAppend(a: seq<PacketRule>, b: seq<PacketRule>, id: string)
    ensures WithoutId(a + b, id) == WithoutId(a, id) + WithoutId(b, id)
  {
    if a == [] {
      assert a + b == b;
    } else {
      assert (a + b)[1..] == a[1..] + b;
      WithoutIdAppend(a[1..], b, id);
    }
  }

  /** Removing an id that no rule carries leaves the list unchanged. */
  lemma {:induction false} WithoutUnknownId(rules: seq<PacketRule>, id: string)
    requires forall j | 0 <= j < |rules| :: rules[j].id != Some(id)
    ensures WithoutId(rules, id) == rules
  {
    if rules != [] {
      WithoutUnknownId(rules[1..], id);
      assert rules == [rules[0]] + rules[1..];
    }
  }

  /** Removing the same id twice is the same as removing it once. */
  lemma {:induction false} WithoutIdIdempotent(rules: seq<PacketRule>, id: string)
    ensures WithoutId(WithoutId(rules, id), id) == WithoutId(rules, id)
  {
    var once := WithoutId(rules, id);
    forall j | 0 <= j < |once| ensures once[j].id != Some(id) {
      assert once[j] in once;
    }
    WithoutUnknownId(once, id);
  }

  /**
    The store's documented example: after adding rule r1 (10.0.0.5, any destination, TCP, port 80,
    allow) to an empty store, the TCP packet is allowed and the same packet over UDP is denied.
  */
  lemma {:induction false} DocumentedExample()
    ensures var r1 := PacketRule(Some("r1"), Some("10.0.0.5"), Some("*"), Some("TCP"), Some(PortNum(80)), Some("allow"), false);
            var tcp := Packet(Some("10.0.0.5"), Some("8.8.8.8"), Some("TCP"), Some(PortNum(80)), None, None, None);
            DecideIn([] + [r1], tcp) == Some("allow") && DecideIn([] + [r1], tcp.(protocol := Some("UDP"))) == Some("deny")
  {
    var r1 := PacketRule(Some("r1"), Some("10.0.0.5"), Some("*"), Some("TCP"), Some(PortNum(80)), Some("allow"), false);
    var tcp := Packet(Some("10.0.0.5"), Some("8.8.8.8"), Some("TCP"), Some(PortNum(80)), None, None, None);
    AppendDecidesUnmatched([], r1, tcp);
    AppendDecidesUnmatched([], r1, tcp.(protocol := Some("UDP")));
  }

  /**
    The empty rule matches exactly the packets without source, destination and protocol, and
    for them it answers "deny" whatever follows it.
  */
  lemma {:induction false} EmptyRuleDenies(rules: seq<PacketRule>, p: Packet)
    ensures var e := PacketRule(None, None, None, None, None, None, false);
            Matches(e, p) <==> p.srcIp.None? && p.dstIp.None? && p.protocol.None?
    ensures p.srcIp.None? && p.dstIp.None? && p.protocol.None? ==>
              DecideIn([PacketRule(None, None, None, None, None, None, false)] + rules, p) == Some("deny")
  {
    var e := PacketRule(None, None, None, None, None, None, false);
    if p.srcIp.None? && p.dstIp.None? && p.protocol.None? {
      FirstMatchIs([e] + rules, p, 0);
    }
  }

  /**
    A matching rule stored without an action makes `decide` answer None, not "deny", as long as
    the dictionary holds some key.
  */
  lemma {:induction false} MissingActionDecidesNone(rules: seq<PacketRule>, r: PacketRule, p: Packet)
    requires r.action.None? && !EmptyRule(r) && Matches(r, p)
    ensures DecideIn([r] + rules, p).None?
  {
    FirstMatchIs([r] + rules, p, 0);
  }

  /**
    A rule whose keys all hold null, such as `{"action": null}`, is truthy: it matches what the
    empty rule matches, but in first place it answers None where the empty rule answers "deny".
  */
  lemma {:induction false} NullKeysRuleDecidesNone(rules: seq<PacketRule>, p: Packet)
    ensures var n := PacketRule(None, None, None, None, None, None, true);
            Matches(n, p) <==> p.srcIp.None? && p.dstIp.None? && p.protocol.None?
    ensures p.srcIp.None? && p.dstIp.None? && p.protocol.None? ==>
              DecideIn([PacketRule(None, None, None, None, None, None, true)] + rules, p).None?
  {
    var n := PacketRule(None, None, None, None, None, None, true);
    if p.srcIp.None? && p.dstIp.None? && p.protocol.None? {
      FirstMatchIs([n] + rules, p, 0);
    }
  }

  /**
    Restarting from the rules file: a store built from a synced store's file holds the same
    list in the same order and decides every packet the same way.
  */
  method Reload(e: RuleEngine, p: Packet) returns (reloaded: RuleEngine)
    requires e.Synced()
    ensures fresh(reloaded)
    ensures reloaded.rules == e.rules && reloaded.Synced()
    ensures reloaded.Decide(p) == e.Decide(p)
  {
    reloaded := new RuleEngine(e.persisted);
  }
}
