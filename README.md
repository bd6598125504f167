# Zero-trust and firewall decision layer, modelled in Dafny

This project models the decision layer of the TE-projects network-security system: the
parts that turn signals into allow / deny / block decisions and into recorded responses.

- **Identity verification** (`zero_trust_control/identity_verification.py`). Device and user
  assertions get heuristic trust scores. Each score starts at a neutral 0.5 and each check
  adds a fixed delta. The sum is clamped to [0, 1] and compared with a pass threshold. The
  access context combines the two scores 0.6 : 0.4 and subtracts a 0.4 penalty for a blocked
  country.
- **Access rules** (`zero_trust_control/access_rules.py`). An engine of named policy rules,
  kept stably sorted by priority. The first rule that applies decides. Default-deny applies
  when none does. A predicate that raises counts as "does not apply".
- **Session monitoring** (`zero_trust_control/session_monitor.py`). An in-memory store of
  sessions, each with a bounded window of its last 500 events. A data-spike check and a
  many-destinations check mark a session suspicious and append alerts. Two alerts quarantine
  the session at its next check.
- **Packet rule store** (`firewall_engine/rule_engine.py`). Rules over address, protocol and
  port, in insertion order. The first match wins and the default is deny. Every change is
  written to the rules file.
- **Packet filter** (`firewall_engine/packet_filter.py`). A confident "malicious" verdict
  from the ML stage blocks a packet outright. Otherwise the rule store decides.
- **Automated responses** (`firewall_engine/response_automation.py`). These add block rules
  to the shared store and append records to the action log.
- **Pipeline** (`firewall_engine/integration.py`). It verifies the context, stamps the trust
  score on the packet, filters the packet and responds, all on one shared store.
- **Incident handling** (`incident_response/analyzer.py`, `incident_response/responder.py`).
  A keyword cascade classifies alert severity. Incidents are dispatched by severity.
- **Threat-feed updater** (`threat_intelligence/rule_updater.py`). It adds one deny rule per
  feed address, for at most 1000 addresses.
- **Traffic summary** (`dashboard/visualizations.py`, `summarize_traffic_for_plotly`).
  Per-address packet counters with their top ten, and bytes per minute sorted by minute.

## Modelling choices

- **Modules.** There is one module per source file. Three shared modules support them:
  - `Common` holds `Option`, the clock-reading type and `str.join`;
  - `StableSort` holds Python's stable `sort(key=…)`, as an insertion sort with its
    stability proved;
  - `ActionLog` holds the append-only action log.
- **Objects.** Objects whose fields the source updates in place are classes:
  - the two rule engines;
  - the packet filter, which holds a reference to the shared store;
  - the firewall;
  - the action log;
  - the session monitor, which holds the module-level dictionaries;
  - the alert dictionaries that the analyzer tags.
- **Pure logic.** The scoring, matching, classification and aggregation are functions. The
  source's loops are methods with loop invariants, proved against those functions.
- **Dictionary keys.** A key that may be missing is an `Option`. Where the source tells a
  missing key from one holding None (`"trust_score" not in context`), the entry is an
  `Option<Option<…>>`. Python truthiness (`a or b or default`) is spelled out where the source
  relies on it. For example, a zero `trust_score` falls through to `score`. A packet rule's
  `action` may be missing, and then `decide` answers None. `decide` also tests the rule
  dictionary itself (`if rule`), which is false only when it has no key at all. A packet rule
  therefore carries `otherKeys`: whether it holds a key its fields show as None (a key holding
  null, or a key the matcher does not read).
- **Clocks and hashes.** Clock readings are `now` / `utcHour` parameters. `analyze_alerts`
  reads the clock once per alert, so it takes one reading per position. Date parsing and
  the token hash are inputs: a dated field arrives as its age in days or as unparsable, and a
  presented token arrives with the outcome of its check.
- **Files.** The rules file is the `persisted` field of the packet rule store. The action
  log file is the `entries` sequence of a `Log`.
- **Behaviour the proofs make visible.** These are modelled as written:
  - The store's default answer, and every rule this code installs, say "deny", not "block".
    A rule-based deny is therefore answered by isolating the source host, not by a new rule.
  - The empty rule `{}` is falsy, so when it matches, `decide` answers "deny". A rule without an
    action makes `decide` answer None, which the response step also treats as "isolate". This
    includes `{"action": null}`: it matches what `{}` matches, but it is truthy.
  - Blocking the same address twice adds two identical rules.
  - `check_session` quarantines an ended session that holds two alerts.
  - A blocked country can never be allowed. Its best score is 0.6, below the 0.65
    threshold.

## Model

| member | source | states |
|---|---|---|
| StableSort.Sort | zero_trust_control/access_rules.py:49 | sorting by key keeps length and is a permutation of its input |
| StableSort.SortSorted | zero_trust_control/access_rules.py:49 | the sorted list is ordered by non-decreasing key |
| StableSort.SortStable | zero_trust_control/access_rules.py:49 | for every key, the elements with that key keep their original relative order |
| StableSort.SortOfSorted | dashboard/visualizations.py:91 | sorting an already sorted list leaves it unchanged |
| StableSort.SortOfSortedAppend | zero_trust_control/access_rules.py:46-49 | appending to a sorted list then sorting places the new element behind all elements with an equal or smaller key |
| AccessRules.Eval | zero_trust_control/access_rules.py:67-91 | definition: calls the rule's predicate; the truth value of each predicate builder, or Raised for a predicate that throws (properties in ScoreAtLeastFallsThrough and HourWindowBounds) |
| AccessRules.Applies | zero_trust_control/access_rules.py:34-39 | a rule applies only if its predicate returns true; a predicate that raises never applies |
| AccessRules.EffectiveScore | zero_trust_control/access_rules.py:79 | `trust_score` when truthy, else `score` when truthy, else 0.0 |
| AccessRules.LocalHour | zero_trust_control/access_rules.py:86-89 | the local hour lies in [0, 24) and is congruent to UTC hour plus offset mod 24, also for negative offsets |
| AccessRules.FirstApplying | zero_trust_control/access_rules.py:56-61 | the index of a rule that applies with no earlier rule applying, or None exactly when no rule applies |
| AccessRules.RuleEngine.constructor | zero_trust_control/access_rules.py:43-44 | a new engine has no rules and is sorted |
| AccessRules.RuleEngine.AddRule | zero_trust_control/access_rules.py:46-49 | the rules stay sorted by priority; they are the old rules plus the new one as a multiset; for each priority the order is insertion order with the new rule last |
| AccessRules.RuleEngine.Evaluate | zero_trust_control/access_rules.py:51-61 | the first applying rule's action and name; default-deny when no rule applies |
| AccessRules.FirstApplyingHasLowestPriority | zero_trust_control/access_rules.py:46-61 | in a sorted engine the deciding rule has a priority number no higher than any applying rule |
| AccessRules.RaisingRuleSkipped | zero_trust_control/access_rules.py:34-39 | a rule whose predicate raises never decides |
| AccessRules.ScoreAtLeastFallsThrough | zero_trust_control/access_rules.py:76-81 | a zero `trust_score` is falsy, so the threshold is checked against `score` |
| AccessRules.HourWindowBounds | zero_trust_control/access_rules.py:84-91 | a window whose start is not before its end never holds; [0, 24) always holds |
| AccessRules.DefaultRuleEngine | zero_trust_control/access_rules.py:97-107 | the default engine is sorted and holds block_low_trust, admin_internal, allow_high_trust, working_hours_allow in that order |
| AccessRules.DefaultFirstThree | zero_trust_control/access_rules.py:100-104 | the first three default rules arrive in priority order and are appended in turn |
| AccessRules.DefaultLast | zero_trust_control/access_rules.py:105-106 | admin_internal (15) is inserted between priorities 10 and 20 |
| AccessRules.LowTrustDeniedByDefault | zero_trust_control/access_rules.py:99-100 | under the default rules any effective score below 0.3 is denied by block_low_trust |
| AccessRules.AdminInternalAllowedByDefault | zero_trust_control/access_rules.py:67-73 | an internal admin scoring at least 0.3 is allowed by admin_internal under the default rules |
| AccessRules.Normalize | zero_trust_control/access_rules.py:121-122 | the `trust_score` entry takes the `score` entry only when the `trust_score` key is missing (a key holding None is kept); no other key changes |
| AccessRules.ContextScore | zero_trust_control/access_rules.py:125 | definition: `context.get("trust_score", 0.0)`, which is 0.0 only for a missing key (property in ReportedScore) |
| AccessRules.ReportedScore | zero_trust_control/access_rules.py:121-125 | the reported score is the caller's `trust_score` entry if that key is present (even holding None), else the `score` entry if present, else 0.0 |
| AccessRules.NoneTrustScoreReported | zero_trust_control/access_rules.py:121-125 | a `trust_score` key holding None is not normalized and is reported as None |
| AccessRules.NormalizeKeepsFirstMatch | zero_trust_control/access_rules.py:120-123 | normalizing never changes which rule applies first |
| AccessRules.NormalizeKeepsApplies | zero_trust_control/access_rules.py:121-123 | normalizing never changes whether a single rule applies |
| AccessRules.EvaluateRequest | zero_trust_control/access_rules.py:113-127 | the default engine is used when none is given; the decision is the engine's on the context; `context_score` is the normalized `trust_score` entry, None when that key holds None, or 0.0 when it is missing; the resource is passed through |
| IdentityVerification.Clamp | zero_trust_control/identity_verification.py:95 | the result lies in [0, 1], equals the input inside that range and the nearer bound outside it |
| IdentityVerification.MdmCheck | zero_trust_control/identity_verification.py:47-52 | +0.3 when signed by MDM, otherwise -0.2, with one reason |
| IdentityVerification.AntivirusCheck | zero_trust_control/identity_verification.py:54-59 | +0.1 exactly for "up_to_date", otherwise -0.1, with one reason |
| IdentityVerification.PatchCheck | zero_trust_control/identity_verification.py:62-79 | no reason exactly when the patch level is absent; +0.1 under 30 days, 0 under 90, -0.15 otherwise, -0.05 when unparsable |
| IdentityVerification.TokenCheck | zero_trust_control/identity_verification.py:82-93 | +0.2 for a validated token, 0 for an unvalidated one, -0.1 without a token, with one reason |
| IdentityVerification.VerifyDevice | zero_trust_control/identity_verification.py:29-98 | the score is clamp(0.5 + the four deltas) and lies in [0, 1]; ok exactly when the score is at least 0.6; 3 or 4 reasons |
| IdentityVerification.AuthCheck | zero_trust_control/identity_verification.py:116-125 | MFA by method or flag +0.3 and takes precedence; SSO +0.15; anything else -0.2 |
| IdentityVerification.RoleCheck | zero_trust_control/identity_verification.py:127-130 | -0.1 with one reason exactly for the admin role, nothing otherwise |
| IdentityVerification.RecencyCheck | zero_trust_control/identity_verification.py:134-148 | nothing when absent; +0.1 under a day, -0.1 over 30 days, 0 between; -0.05 when unparsable |
| IdentityVerification.VerifyUser | zero_trust_control/identity_verification.py:101-153 | the score is clamp(0.5 + the three deltas) and lies in [0, 1]; ok exactly when the score is at least 0.6 |
| IdentityVerification.VerifyContext | zero_trust_control/identity_verification.py:156-179 | the score is clamp(0.6 device + 0.4 user, minus 0.4 for a blocked country); allow exactly when the score is at least 0.65; the device and user reasons are joined; a geo reason `geo:<country> blocked` appears only with the penalty |
| IdentityVerification.BlockedCountryNeverAllowed | zero_trust_control/identity_verification.py:169-177 | a context from a blocked country scores at most 0.6 and is never allowed |
| IdentityVerification.FailingDeviceAndUserNeverAllowed | zero_trust_control/identity_verification.py:162-177 | if both the device and the user fail, the context is denied |
| IdentityVerification.UnsignedDeviceNeedsAvAndToken | zero_trust_control/identity_verification.py:47-96 | an unsigned device passes only with up-to-date AV and a validated token |
| IdentityVerification.PasswordOnlyUserFails | zero_trust_control/identity_verification.py:116-151 | a user without MFA or SSO scores at most 0.4 and fails |
| IdentityVerification.MissingMethodIsPassword | zero_trust_control/identity_verification.py:116 | a missing auth method is judged exactly as "password" |
| IdentityVerification.MdmSignatureMonotone | zero_trust_control/identity_verification.py:47-52 | MDM signing never lowers the device score and raises it by at most 0.5 |
| IdentityVerification.CompliantContextAllowed | zero_trust_control/identity_verification.py:156-177 | a compliant device plus an MFA non-admin user with fresh authentication, from an unblocked country, is allowed |
| FirewallRules.FieldMatches | firewall_engine/rule_engine.py:65-67 | definition: the rule's field equals the packet's (None equals None) or is "*" |
| FirewallRules.PortMatches | firewall_engine/rule_engine.py:68 | definition: the rule's port equals the packet's, is "*", or is missing |
| FirewallRules.Matches | firewall_engine/rule_engine.py:64-69 | definition: all four fields match (properties in BlockRuleMatches, EmptyRuleDenies and DocumentedExample) |
| FirewallRules.FirstMatch | firewall_engine/rule_engine.py:63-71 | the index of a matching rule with no earlier match, or None exactly when no rule matches |
| FirewallRules.MatchIn | firewall_engine/rule_engine.py:59-71 | a rule is found exactly when some rule matches; the found rule is stored and matches |
| FirewallRules.DecideIn | firewall_engine/rule_engine.py:73-75 | "deny" when nothing matches or the match is the empty rule; otherwise the first matching rule's action, None when it has none |
| FirewallRules.WithoutId | firewall_engine/rule_engine.py:55 | no kept rule carries the id; every other rule is kept; nothing is added |
| FirewallRules.RuleEngine.constructor | firewall_engine/rule_engine.py:30-34 | the store starts with the file's rules, or empty without a file, and is in sync with the file |
| FirewallRules.RuleEngine.Load | firewall_engine/rule_engine.py:36-42 | the list becomes the file's contents verbatim; without a file it is unchanged |
| FirewallRules.RuleEngine.Save | firewall_engine/rule_engine.py:44-46 | the file holds the current list |
| FirewallRules.RuleEngine.AddRule | firewall_engine/rule_engine.py:48-51 | the rule is appended at the end without an id check, and the file is updated |
| FirewallRules.RuleEngine.RemoveRule | firewall_engine/rule_engine.py:53-57 | every rule with the id is dropped, the rest keep their order, and the file is updated |
| FirewallRules.RuleEngine.Match | firewall_engine/rule_engine.py:59-71 | the stored list's first match |
| FirewallRules.RuleEngine.Decide | firewall_engine/rule_engine.py:73-75 | the stored list's decision, as DecideIn states it, including None for a rule without an action |
| FirewallRules.EmptyStoreDenies | firewall_engine/rule_engine.py:73-75 | an empty store denies every packet |
| FirewallRules.AppendKeepsEarlierMatch | firewall_engine/rule_engine.py:48-49 | appending a rule never changes the match or decision for a packet an earlier rule matches |
| FirewallRules.AppendDecidesUnmatched | firewall_engine/rule_engine.py:48-75 | an appended non-empty rule decides exactly the packets nothing earlier matched; the rest stay "deny" |
| FirewallRules.EmptyRuleDenies | firewall_engine/rule_engine.py:64-75 | the empty rule matches exactly the packets without source, destination and protocol, and in first place it answers "deny" for them |
| FirewallRules.EmptyRule | firewall_engine/rule_engine.py:75 | definition: the rule dictionary with no key at all, the only falsy rule (properties in EmptyRuleDenies and NullKeysRuleDecidesNone) |
| FirewallRules.MissingActionDecidesNone | firewall_engine/rule_engine.py:73-75 | a matching rule without an action that holds some key, in first place, makes `decide` answer None |
| FirewallRules.NullKeysRuleDecidesNone | firewall_engine/rule_engine.py:64-75 | a rule whose keys all hold null matches exactly what the empty rule matches, yet is truthy and answers None in first place |
| FirewallRules.WithoutIdAppend | firewall_engine/rule_engine.py:55 | removal distributes over concatenation, so relative order is kept |
| FirewallRules.WithoutUnknownId | firewall_engine/rule_engine.py:53-57 | removing an id no rule carries leaves the list unchanged |
| FirewallRules.WithoutIdIdempotent | firewall_engine/rule_engine.py:53-57 | removing the same id twice equals removing it once |
| FirewallRules.DocumentedExample | firewall_engine/rule_engine.py:5-13 | the documented rule allows its TCP packet on port 80 and denies the same packet over UDP |
| FirewallRules.Reload | firewall_engine/rule_engine.py:30-46 | a store rebuilt from a synced store's file holds the same list and decides every packet alike |
| PacketFilter.AiShortCircuit | firewall_engine/packet_filter.py:39 | definition: the ML stage says "malicious" with a confidence (default 0) above 0.8 |
| PacketFilter.Inspect | firewall_engine/packet_filter.py:25-48 | a confident malicious verdict (confidence above 0.8) gives "block" with the AI reason; otherwise the rule store's decision (possibly None) with a rule-based reason rendering it; the packet is echoed |
| PacketFilter.PacketFilter.constructor | firewall_engine/packet_filter.py:22-23 | the filter refers to the given shared store |
| PacketFilter.PacketFilter.InspectPacket | firewall_engine/packet_filter.py:25-48 | inspection against the current contents of the shared store |
| PacketFilter.AiOverridesRules | firewall_engine/packet_filter.py:38-41 | a malicious verdict at 0.93 blocks whatever the rules say |
| PacketFilter.ThresholdIsStrict | firewall_engine/packet_filter.py:39 | a confidence of exactly 0.8, or none, leaves the decision to the rules |
| PacketFilter.NullActionRuleReason | firewall_engine/packet_filter.py:43-45 | with `{"action": null}` first, a packet without source, destination and protocol that the ML stage does not block gets no decision and the reason "Rule-based decision (None)" |
| PacketFilter.MatchIgnoresTrustScore | firewall_engine/rule_engine.py:64-69 | the trust score stamped on a packet plays no part in rule matching |
| PacketFilter.TrustScoreIrrelevant | firewall_engine/packet_filter.py:38-45 | the trust score changes neither the filter's decision nor its reason |
| ActionLog.Log.constructor | firewall_engine/response_automation.py:26 | the log starts with the records already in the file |
| ActionLog.Log.LogAction | firewall_engine/response_automation.py:29-33 | exactly one record (time, action, data) is appended; earlier records are untouched |
| ResponseAutomation.BlockRule | firewall_engine/response_automation.py:37 | definition: the `auto_block_<ip>` deny rule for the address (properties in BlockRuleMatches) |
| ResponseAutomation.RulesAfter | firewall_engine/response_automation.py:57-64 | definition: the rules after a response; only "block" appends the block rule (properties in OnlyBlockAddsRules) |
| ResponseAutomation.ResponseEntries | firewall_engine/response_automation.py:57-64 | definition: the log records of a response, per decision (properties in ResponseLogsSomething and RuleBasedDenyIsolates) |
| ResponseAutomation.BlockRuleMatches | firewall_engine/response_automation.py:36-37 | a block rule matches exactly the packets from its address, or every packet for "*" |
| ResponseAutomation.BlockIp | firewall_engine/response_automation.py:36-40 | the block rule is appended and saved, then one "block_ip" record is logged |
| ResponseAutomation.IsolateHost | firewall_engine/response_automation.py:43-45 | only an "isolate_host" record is logged |
| ResponseAutomation.SendAlert | firewall_engine/response_automation.py:48-50 | one "alert" record with the message and details is logged |
| ResponseAutomation.RespondToDecision | firewall_engine/response_automation.py:53-64 | "block" adds the block rule and logs block_ip then an alert; "allow" logs the packet; anything else isolates the source; the file changes only on block |
| ResponseAutomation.OnlyBlockAddsRules | firewall_engine/response_automation.py:58-64 | earlier rules are never rewritten; only "block" grows the list, by one |
| ResponseAutomation.ResponseLogsSomething | firewall_engine/response_automation.py:53-64 | every response appends one or two records stamped now |
| ResponseAutomation.RuleBasedDenyIsolates | firewall_engine/response_automation.py:58-64 | a "deny" decision, or one without an action, adds no rule and logs only an isolate_host record |
| ResponseAutomation.RepeatedBlocksDuplicate | firewall_engine/response_automation.py:36-38 | blocking the same source twice appends two identical rules |
| ResponseAutomation.BlockedSourceDenied | firewall_engine/response_automation.py:36-38 | after a block, an otherwise unmatched packet from that source is denied |
| Integration.AIFirewall.constructor | firewall_engine/integration.py:26-28 | one freshly loaded store, shared with a new filter |
| Integration.AIFirewall.ProcessPacket | firewall_engine/integration.py:30-44 | the context verdict; the filter's decision on the packet stamped with its score, against the old rules; the response applied once to the shared store and the log; the rules file is rewritten exactly after a "block" |
| Integration.RepeatOffenderDenied | firewall_engine/integration.py:30-44 | starting from no rules, after a confidently malicious packet, an unflagged later packet from the same source is denied |
| Integration.RepeatOffenderScenario | firewall_engine/integration.py:47-59 | the same two packets processed through a fresh firewall: the second is denied |
| IncidentAnalyzer.LowerChar | incident_response/analyzer.py:33 | ASCII capitals map to lower case; every other character is kept |
| IncidentAnalyzer.Lower | incident_response/analyzer.py:33 | the text lower-cased character by character, of the same length |
| IncidentAnalyzer.ClassifySeverity | incident_response/analyzer.py:30-41 | critical exactly when the lower-cased text holds block_ip or malicious; high, medium and low exactly as the cascade falls through |
| IncidentAnalyzer.AlertRecord.constructor | incident_response/analyzer.py:44-47 | an alert dictionary not yet tagged |
| IncidentAnalyzer.AnalyzeAlerts | incident_response/analyzer.py:44-52 | the same alerts in the same order, each tagged in place with its severity; each alert object carries the clock reading of its last position in the list |
| IncidentAnalyzer.ContainsAt | incident_response/analyzer.py:34-38 | `key in text` holds exactly when the key occurs at some position |
| IncidentAnalyzer.ContainsInside | incident_response/analyzer.py:34-38 | a key placed inside a text is found in it |
| IncidentAnalyzer.LowerAppend | incident_response/analyzer.py:33 | lower-casing distributes over concatenation |
| IncidentAnalyzer.MaliciousAnywhereIsCritical | incident_response/analyzer.py:33-35 | "malicious" in any letter case anywhere makes the alert critical |
| IncidentAnalyzer.AllowedMaliciousPacketIsCritical | incident_response/analyzer.py:33-35 | a logged allow of a packet the ML stage called malicious is critical |
| IncidentAnalyzer.IsolateIsHigh | incident_response/analyzer.py:34-37 | an isolation record without critical keywords is high |
| IncidentResponder.SourceIp | incident_response/responder.py:25 | `ip` when truthy, otherwise `src_ip` |
| IncidentResponder.IncidentRules | incident_response/responder.py:27-31 | definition: the rules after a response; only a critical incident with a truthy source appends a block rule (properties in OnlyCriticalAddsRules) |
| IncidentResponder.IncidentEntries | incident_response/responder.py:27-39 | definition: the log records of a response, per severity (properties in OneAlertPerIncident and LowSeverityDoesNothing) |
| IncidentResponder.RespondToIncident | incident_response/responder.py:22-39 | critical blocks a truthy source and alerts; high isolates a truthy source and alerts; medium alerts; anything else does nothing; the file changes only when a rule is added |
| IncidentResponder.OnlyCriticalAddsRules | incident_response/responder.py:27-31 | only a critical incident adds a rule, at most one, at the end |
| IncidentResponder.OneAlertPerIncident | incident_response/responder.py:27-37 | critical, high and medium each log exactly one alert, as the last record |
| IncidentResponder.LowSeverityDoesNothing | incident_response/responder.py:38-39 | a low or unknown severity changes neither the rules nor the log |
| IncidentResponder.MissingSeverityIsLow | incident_response/responder.py:23 | a missing severity reads as "low" |
| IncidentResponder.EmptyIpFallsBack | incident_response/responder.py:25-30 | an empty `ip` falls back to `src_ip`, which is then blocked |
| IncidentResponder.CriticalSourceDenied | incident_response/responder.py:27-31 | after a critical incident, an otherwise unmatched packet from its source is denied |
| RuleUpdater.ThreatRules | threat_intelligence/rule_updater.py:22-24 | one threat rule per address, in order |
| RuleUpdater.FeedBatch | threat_intelligence/rule_updater.py:22 | the first min(n, 1000) addresses |
| RuleUpdater.UpdateFirewallRules | threat_intelligence/rule_updater.py:18-26 | the store gains one deny rule per batch address, in order, behind the existing rules; the count is the batch size; the file changes only if a rule is added |
| RuleUpdater.ThreatRulesAppend | threat_intelligence/rule_updater.py:22-24 | one more address adds its rule at the end |
| RuleUpdater.ThreatRuleMatchesItsAddress | threat_intelligence/rule_updater.py:23 | a threat rule matches every packet from its address; appended to a store, it denies such a packet unless an earlier rule already matches it |
| RuleUpdater.BatchSize | threat_intelligence/rule_updater.py:20-22 | a feed without "ips" adds nothing; a feed of 1000 or more adds exactly 1000 |
| SessionMonitor.Push | zero_trust_control/session_monitor.py:28 | the window is the newest (at most 500) events of the old window plus the event, ending with the event |
| SessionMonitor.Recent | zero_trust_control/session_monitor.py:74 | the newest (at most 50) events of the window |
| SessionMonitor.UniqueDestinations | zero_trust_control/session_monitor.py:74-75 | definition: the number of distinct truthy destinations among the newest 50 events (properties in DestinationsIn, UniqueDestinationsAtMostRecent and NewestDistinctCounted) |
| SessionMonitor.ByteCheck | zero_trust_control/session_monitor.py:69-72 | definition: above 100 MiB the session becomes suspicious and gains a transfer alert (properties in ApplyEvent and ByteAlertRepeats) |
| SessionMonitor.DestinationCheck | zero_trust_control/session_monitor.py:76-79 | definition: above 20 destinations the session becomes suspicious and gains a destinations alert (properties in ApplyEvent and ManyDestinationsFlag) |
| SessionMonitor.ApplyEvent | zero_trust_control/session_monitor.py:61-79 | last seen now; one more event; bytes added; one alert above 100 MiB and one above 20 distinct destinations, appended after the old alerts; suspicious exactly when an alert was added |
| SessionMonitor.Escalate | zero_trust_control/session_monitor.py:92-94 | quarantined exactly when two or more alerts exist or it already was; nothing else changes |
| SessionMonitor.EndRecord | zero_trust_control/session_monitor.py:99-101 | status ended and end time now; nothing else changes |
| SessionMonitor.RecordEvent | zero_trust_control/session_monitor.py:61-79 | the stepwise update yields ApplyEvent |
| SessionMonitor.SessionMonitor.constructor | zero_trust_control/session_monitor.py:27-28 | no sessions and no windows |
| SessionMonitor.SessionMonitor.CreateSession | zero_trust_control/session_monitor.py:31-46 | an active record with zero counters replaces any old record under the id; windows are unchanged |
| SessionMonitor.SessionMonitor.UpdateSession | zero_trust_control/session_monitor.py:49-80 | an unknown id is created with an empty context; the event is pushed on its window; the stored and returned record is ApplyEvent; no window exceeds 500 |
| SessionMonitor.SessionMonitor.CheckSession | zero_trust_control/session_monitor.py:83-95 | an unknown id gives not_found and creates nothing; a known session is escalated and stored |
| SessionMonitor.SessionMonitor.EndSession | zero_trust_control/session_monitor.py:98-102 | a known session ends now; an unknown id is ignored |
| SessionMonitor.DestinationsBound | zero_trust_control/session_monitor.py:75 | there are no more distinct destinations than events |
| SessionMonitor.DestinationsIn | zero_trust_control/session_monitor.py:75 | the destinations are exactly the truthy `dst_ip` values of the events |
| SessionMonitor.DistinctDestinations | zero_trust_control/session_monitor.py:75 | events with pairwise different truthy destinations count one each |
| SessionMonitor.ShortWindowNoDestinationAlert | zero_trust_control/session_monitor.py:74-76 | a window of at most 20 events never raises the destination alert |
| SessionMonitor.UniqueDestinationsAtMostRecent | zero_trust_control/session_monitor.py:74-75 | the destination count never exceeds 50 |
| SessionMonitor.NewestDistinctCounted | zero_trust_control/session_monitor.py:74-76 | 21 newest events with distinct destinations push the count above 20 |
| SessionMonitor.ManyDestinationsFlag | zero_trust_control/session_monitor.py:73-79 | such an update marks the session suspicious and ends its alerts with a many-destinations alert |
| SessionMonitor.BytesNeverDecrease | zero_trust_control/session_monitor.py:63-64 | non-negative traffic never lowers the byte counter |
| SessionMonitor.ByteAlertRepeats | zero_trust_control/session_monitor.py:69-71 | once above 100 MiB, every further update appends another transfer alert |
| SessionMonitor.QuietUpdateKeepsStatus | zero_trust_control/session_monitor.py:61-80 | an update below both thresholds keeps the status and the alerts |
| SessionMonitor.EscalateIdempotent | zero_trust_control/session_monitor.py:92-94 | a second check changes nothing further |
| SessionMonitor.EndTwice | zero_trust_control/session_monitor.py:98-101 | ending twice leaves the session ended, with the second end time |
| SessionMonitor.EndedSessionRequarantined | zero_trust_control/session_monitor.py:88-101 | an ended session with two alerts is quarantined by its next check |
| SessionMonitor.FeedSession | zero_trust_control/session_monitor.py:49-80 | n quiet 1 MiB events give n MiB; no alert up to 100; after that one transfer alert per event and suspicious |
| SessionMonitor.FeedOne | zero_trust_control/session_monitor.py:49-80 | one such update keeps the fed-session invariant for one more event |
| SessionMonitor.HighTransferScenario | zero_trust_control/session_monitor.py:31-102 | 102 events of 1 MiB give two transfer alerts; the check quarantines; ending twice leaves it ended |
| TrafficSummary.MinuteOf | dashboard/visualizations.py:100 | the start of the minute: a multiple of 60 at most t and within 60 of it, with Python's floored remainder |
| TrafficSummary.SourceOf | dashboard/visualizations.py:74 | definition: `src_ip`, else `id_orig_h`, else "unknown", by truthiness |
| TrafficSummary.TimeOf | dashboard/visualizations.py:78 | definition: `timestamp`, else `ts`, else `time`, else None, by truthiness (a zero time counts as missing) |
| TrafficSummary.LengthOf | dashboard/visualizations.py:87 | definition: `length`, else `orig_bytes`, else `resp_bytes`, else 0, by truthiness |
| TrafficSummary.Series | dashboard/visualizations.py:95-102 | definition: the series dictionary after the loop (properties in SeriesIsMinuteTotals) |
| TrafficSummary.MinuteTotal | dashboard/visualizations.py:95-102 | definition: the bytes of timed entries in a minute, the reference for Series and Axes |
| TrafficSummary.Sources | dashboard/visualizations.py:74 | each packet's `src_ip`, else `id_orig_h`, else "unknown", in order |
| TrafficSummary.Destinations | dashboard/visualizations.py:75 | each packet's `dst_ip`, else `id_resp_h`, else "unknown", in order |
| TrafficSummary.TimeSeries | dashboard/visualizations.py:78-88 | one (time, length) entry per packet, in order |
| TrafficSummary.Bump | dashboard/visualizations.py:76-77 | a counter grows by one entry exactly for a new key |
| TrafficSummary.MostCommon | dashboard/visualizations.py:91-92 | at most n entries, drawn from the counter |
| TrafficSummary.CountTraffic | dashboard/visualizations.py:73-88 | the loop builds both counters and the time series of all packets |
| TrafficSummary.BuildSeries | dashboard/visualizations.py:95-102 | the series dictionary and its key order; every key is in the order and vice versa |
| TrafficSummary.Axes | dashboard/visualizations.py:104-106 | minutes strictly increasing, each a multiple of 60; a minute appears exactly when traffic has a time in it; totals are that minute's bytes; the axes have equal length |
| TrafficSummary.SummarizeTraffic | dashboard/visualizations.py:62-108 | the top ten sources and destinations of the counters; the axes of the whole traffic as above |
| TrafficSummary.SeriesIsMinuteTotals | dashboard/visualizations.py:95-102 | the series has a key exactly for minutes with timed traffic, holding their byte total |
| TrafficSummary.NoMinuteNoBytes | dashboard/visualizations.py:96-102 | traffic outside a minute adds nothing to it |
| TrafficSummary.MinutesAreKeys | dashboard/visualizations.py:95-102 | the insertion order lists each minute with timed traffic exactly once |
| TrafficSummary.TallyCount | dashboard/visualizations.py:76-77 | each address is counted exactly as often as it occurs |
| TrafficSummary.TallyUnique | dashboard/visualizations.py:76-77 | the counter never holds two entries for one address |
| TrafficSummary.TopNonIncreasing | dashboard/visualizations.py:91-92 | the top list is ordered by count, highest first |
| TrafficSummary.TopIsTop | dashboard/visualizations.py:91-92 | no entry left out has a higher count than one listed |
| TrafficSummary.TopListsAllWhenFew | dashboard/visualizations.py:91-92 | with at most n keys, every entry is listed |
| TrafficSummary.TopTiesInFirstSeenOrder | dashboard/visualizations.py:91-92 | among equal counts the top list keeps first-seen order |
| TrafficSummary.TopCountsExact | dashboard/visualizations.py:76-92 | each listed count is the exact number of packets with that address |
| TrafficSummary.TwiceThenOnce | tests/test_visualizations.py:7-21 | an address seen twice and one seen once: both listed, the repeated one first |
| TrafficSummary.SourcesOfThree | tests/test_visualizations.py:7-11 | the sources of three packets, in order |
| TrafficSummary.TimedPacketPlotted | dashboard/visualizations.py:78-106 | a packet with a time puts its minute on the time axis |
| TrafficSummary.BasicSummaryScenario | tests/test_visualizations.py:5-21 | the basic dashboard test: non-empty axes and the repeated address first among sources with count 2 |

## Left out

- File I/O is not modelled: the rules file, the action log file, JSON (de)serialisation and
  `load_alerts` (incident_response/analyzer.py:19-27). Files are fields. `json.dumps` of an
  alert is an input string.
- Logging output is not modelled, and neither are the `__main__` demo's printing and the
  `os.makedirs` calls.
- Floating point is not modelled. Scores, confidences and thresholds are exact reals, so
  rounding at a threshold (0.5 - 0.2 + 0.1 + 0.2 vs 0.6) may differ from IEEE doubles.
- Clocks, date parsing and the SHA-256 token check are inputs: `now`, `utcHour`, a field's age
  in days or "unparsable", and whether a presented token was validated.
- IncidentAnalyzer.Lower: only ASCII letters are lower-cased. Python's Unicode `str.lower()`
  is not modelled.
- Concurrency and the in-memory stores' thread safety are not modelled.
- Clock readings inside one call are taken as one reading `now` in three places:
  - `create_session` and `update_session` read `time.time()` several times per call;
  - `respond_to_decision` stamps its block_ip and alert records separately;
  - `respond_to_incident` does the same for its records.
- AccessRules.LocalHour: the time-zone offset is an integer. A fractional offset such as +5.5,
  which the source accepts and which gives a fractional local hour, is not modelled.
- Dictionary aliasing is not modelled. The source mutates packets, contexts and alert
  dictionaries shared with callers. The model returns new values instead: `normalized` in
  EvaluateRequest, the stamped packet in ProcessPacket. Only the tagged alerts are objects
  updated in place.
- The module-level `_sessions` / `_session_events` globals become one `SessionMonitor` object.
  The session context is a `map<string, string>`.
- SessionMonitor.SessionMonitor.UpdateSession: Python stores a created record, then mutates
  it through the alias. The model computes the record and stores it once; the final state is
  the same. An event whose `bytes` value is explicitly None (a TypeError in the source) is
  not modelled; a missing `bytes` counts as 0.
- SessionMonitor.SessionMonitor.Valid: states only the 500-event window bound. It does not
  state that each record's `session_id` equals its key.
- A dictionary value of the wrong type, and any other TypeError path, is not modelled. Among
  these are a `device_assertion` key mapped to None and `blocked_countries` holding None.
- Python's cross-type equality (e.g. port 80 vs "80") is not modelled. A port is a number or a
  text, and only equal values match.
- Policy rules are not arbitrary closures. They are the four predicate builders of
  access_rules.py plus a predicate that raises.
- TrafficSummary: timestamps arrive as integer seconds. Float and ISO-8601 parsing
  (dashboard/visualizations.py:79-86) and the `int()` truncation of fractional seconds are not
  modelled. Lengths are integers.
