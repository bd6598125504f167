/**
  Trust scoring of device and user assertions and of a whole access context
  (zero_trust_control/identity_verification.py). Scores are exact reals; every check adds a
  fixed delta to a neutral 0.5, the sum is clamped to [0, 1] and compared with a threshold.
  Clock readings and the token hash check are inputs: a dated field arrives as its age in days
  (or as unparsable), a presented token arrives with the outcome of its validation.
*/
module IdentityVerification {
  import opened Common

  /** A dated assertion field after the clock has been consulted. */
  datatype DatedField =
    | Absent              // key missing or empty: no check, no reason
    | Age(days: real)     // parsed; (now - date) / 86400
    | Unparsable          // the date did not parse

  /** The `device_presented_token` field; `validated` is the outcome of the hash check. */
  datatype DeviceToken = NoToken | Presented(validated: bool)

  datatype DeviceAssertion = DeviceAssertion(
    deviceId: Option<string>,
    signedByMdm: bool,
    antivirus: Option<string>,
    patchLevel: DatedField,
    token: DeviceToken)

  datatype UserAssertion = UserAssertion(
    userId: Option<string>,
    authMethod: Option<string>,
    mfaOk: bool,
    userRole: Option<string>,
    lastAuth: DatedField)

  datatype Geo = Geo(country: Option<string>, isInternal: bool)

  /** `geo` is None when the key is missing or the dictionary is empty (falsy). */
  datatype Context = Context(
    device: DeviceAssertion,
    user: UserAssertion,
    geo: Option<Geo>,
    blockedCountries: seq<string>)

  datatype Verdict = Verdict(ok: bool, score: real, reasons: seq<string>)

  datatype ContextVerdict = ContextVerdict(allow: bool, score: real, reasons: seq<string>)

  /** The effect of one heuristic: a score delta and the reasons it records. */
  datatype Check = Check(delta: real, reasons: seq<string>)

  const DevicePass: real := 0.6
  const UserPass: real := 0.6
  const ContextPass: real := 0.65
  const BlockedCountryPenalty: real := 0.4

  /** An assertion with every key missing (`context.get("device_assertion", {})`). */
  const EmptyDevice := DeviceAssertion(None, false, None, Absent, NoToken)
  const EmptyUser := UserAssertion(None, None, false, None, Absent)

  /** `max(0.0, min(1.0, x))` */
  function Clamp(x: real): (r: real)
    ensures 0.0 <= r <= 1.0
    ensures 0.0 <= x <= 1.0 ==> r == x
    ensures x < 0.0 ==> r == 0.0
    ensures x > 1.0 ==> r == 1.0
  {
    if x < 0.0 then 0.0 else if x > 1.0 then 1.0 else x
  }

  // ---- device heuristics -------------------------------------------------

  function MdmCheck(signed: bool): (c: Check)
    ensures c.delta == (if signed then 0.3 else -0.2) && |c.reasons| == 1
  {
    if signed then Check(0.3, ["MDM signed"]) else Check(-0.2, ["No MDM signature"])
  }

  function AntivirusCheck(av: Option<string>): (c: Check)
    ensures c.delta == (if av == Some("up_to_date") then 0.1 else -0.1) && |c.reasons| == 1
  {
    if av == Some("up_to_date") then Check(0.1, ["AV up-to-date"])
    else Check(-0.1, ["AV outdated or missing"])
  }

  /** Patch recency: under 30 days +0.1, under 90 days 0, otherwise -0.15, unparsable -0.05. */
  function PatchCheck(p: DatedField): (c: Check)
    ensures p.Absent? <==> c.reasons == []
    ensures p.Absent? ==> c.delta == 0.0
    ensures p.Age? ==> c.delta == (if p.days < 30.0 then 0.1 else if p.days < 90.0 then 0.0 else -0.15)
    ensures p.Unparsable? ==> c.delta == -0.05
    ensures |c.reasons| <= 1
  {
    match p
    case Absent => Check(0.0, [])
    case Age(days) =>
      if days < 30.0 then Check(0.1, ["Patch recent"])
      else if days < 90.0 then Check(0.0, ["Patch moderately recent"])
      else Check(-0.15, ["Patch old"])
    case Unparsable => Check(-0.05, ["Patch date parse failed"])
  }

  /** Validated token +0.2, presented but not validated 0, absent -0.1. */
  function TokenCheck(t: DeviceToken): (c: Check)
    ensures c.delta == (match t case NoToken => -0.1 case Presented(v) => if v then 0.2 else 0.0)
    ensures |c.reasons| == 1
  {
    match t
    case Presented(valid) =>
      if valid then Check(0.2, ["Device token valid"])
      else Check(0.0, ["Device token present but not validated"])
    case NoToken => Check(-0.1, ["No device token presented"])
  }

  /** `verify_device`: clamp(0.5 + the four deltas); ok iff the score reaches 0.6. */
  function VerifyDevice(d: DeviceAssertion): (v: Verdict)
    ensures 0.0 <= v.score <= 1.0
    ensures v.ok <==> v.score >= DevicePass
    ensures v.score == Clamp(0.5 + MdmCheck(d.signedByMdm).delta + AntivirusCheck(d.antivirus).delta
                             + PatchCheck(d.patchLevel).delta + TokenCheck(d.token).delta)
    ensures |v.reasons| == (if d.patchLevel.Absent? then 3 else 4)
  {
    var mdm := MdmCheck(d.signedByMdm);
    var av := AntivirusCheck(d.antivirus);
    var patch := PatchCheck(d.patchLevel);
    var token := TokenCheck(d.token);
    var score := Clamp(0.5 + mdm.delta + av.delta + patch.delta + token.delta);
    Verdict(score >= DevicePass, score, mdm.reasons + av.reasons + patch.reasons + token.reasons)
  }

  // ---- user heuristics ---------------------------------------------------

  /** MFA (by method or by flag) +0.3 and takes precedence; SSO +0.15; anything else -0.2. */
  function AuthCheck(u: UserAssertion): (c: Check)
    ensures u.authMethod == Some("mfa") || u.mfaOk ==> c.delta == 0.3
    ensures !(u.authMethod == Some("mfa") || u.mfaOk) && u.authMethod == Some("sso") ==> c.delta == 0.15
    ensures !(u.authMethod == Some("mfa") || u.mfaOk || u.authMethod == Some("sso")) ==> c.delta == -0.2
    ensures |c.reasons| == 1
  {
    var authMethod := u.authMethod.GetOr("password");
    if authMethod == "mfa" || u.mfaOk then Check(0.3, ["MFA verified"])
    else if authMethod == "sso" then Check(0.15, ["SSO auth"])
    else Check(-0.2, ["Password-only or unknown auth"])
  }

  function RoleCheck(role: Option<string>): (c: Check)
    ensures c.delta == (if role == Some("admin") then -0.1 else 0.0)
    ensures |c.reasons| == (if role == Some("admin") then 1 else 0)
  {
    if role.GetOr("user") == "admin" then Check(-0.1, ["Admin role -> requires stricter checks"])
    else Check(0.0, [])
  }

  /** Authentication recency: under a day +0.1, over 30 days -0.1, otherwise 0; unparsable -0.05. */
  function RecencyCheck(last: DatedField): (c: Check)
    ensures last.Absent? ==> c == Check(0.0, [])
    ensures last.Age? ==> c.delta == (if last.days < 1.0 then 0.1 else if last.days > 30.0 then -0.1 else 0.0)
    ensures last.Unparsable? ==> c.delta == -0.05
    ensures |c.reasons| <= 1
  {
    match last
    case Absent => Check(0.0, [])
    case Age(days) =>
      if days < 1.0 then Check(0.1, ["Recent authentication"])
      else if days > 30.0 then Check(-0.1, ["Stale authentication"])
      else Check(0.0, [])
    case Unparsable => Check(-0.05, ["Could not parse last_auth_time"])
  }

  /** `verify_user`: clamp(0.5 + the three deltas); ok iff the score reaches 0.6. */
  function VerifyUser(u: UserAssertion): (v: Verdict)
    ensures 0.0 <= v.score <= 1.0
    ensures v.ok <==> v.score >= UserPass
    ensures v.score == Clamp(0.5 + AuthCheck(u).delta + RoleCheck(u.userRole).delta + RecencyCheck(u.lastAuth).delta)
    ensures 1 <= |v.reasons| <= 3
  {
    var auth := AuthCheck(u);
    var role := RoleCheck(u.userRole);
    var recency := RecencyCheck(u.lastAuth);
    var score := Clamp(0.5 + auth.delta + role.delta + recency.delta);
    Verdict(score >= UserPass, score, auth.reasons + role.reasons + recency.reasons)
  }

  // ---- context -----------------------------------------------------------

  /** The geo penalty applies when geo is present and its country is one of the blocked ones. */
  predicate CountryBlocked(c: Context) {
    c.geo.Some? && c.geo.value.country.Some? && c.geo.value.country.value in c.blockedCountries
  }

  /**
    `verify_context`: 0.6 * device score + 0.4 * user score, minus 0.4 for a blocked country,
    clamped; allow iff the result reaches 0.65. The reasons are the joined device reasons,
    the joined user reasons and, only when the penalty applied, a geo note.
  */
  function VerifyContext(c: Context): (v: ContextVerdict)
    ensures 0.0 <= v.score <= 1.0
    ensures v.allow <==> v.score >= ContextPass
    ensures v.score == Clamp(0.6 * VerifyDevice(c.device).score + 0.4 * VerifyUser(c.user).score
                             - (if CountryBlocked(c) then BlockedCountryPenalty else 0.0))
    ensures |v.reasons| == (if CountryBlocked(c) then 3 else 2)
    ensures v.reasons[0] == "device:" + Join(VerifyDevice(c.device).reasons, ";")
    ensures v.reasons[1] == "user:" + Join(VerifyUser(c.user).reasons, ";")
    ensures CountryBlocked(c) ==> v.reasons[2] == "geo:" + c.geo.value.country.value + " blocked"
  {
    var dres := VerifyDevice(c.device);
    var ures := VerifyUser(c.user);
    var combined := 0.6 * dres.score + 0.4 * ures.score;
    var reasons := ["device:" + Join(dres.reasons, ";"), "user:" + Join(ures.reasons, ";")];
    var blocked := CountryBlocked(c);
    var penalised := if blocked then combined - BlockedCountryPenalty else combined;
    var withGeo := if blocked then reasons + ["geo:" + c.geo.value.country.value + " blocked"] else reasons;
    var score := Clamp(penalised);
    ContextVerdict(score >= ContextPass, score, withGeo)
  }

  // ---- properties --------------------------------------------------------

  /** A blocked country can never be allowed: the best case is 0.6 + 0.4 - 0.4 = 0.6 < 0.65. */
  lemma {:induction false} BlockedCountryNeverAllowed(c: Context)
    requires CountryBlocked(c)
    ensures !VerifyContext(c).allow
    ensures VerifyContext(c).score <= 0.6
  {
  }

  /** A context whose device and user both fail their own checks is never allowed. */
  lemma {:induction false} FailingDeviceAndUserNeverAllowed(c: Context)
    requires !VerifyDevice(c.device).ok && !VerifyUser(c.user).ok
    ensures !VerifyContext(c).allow
  {
  }

  /** An unsigned device passes only with an up-to-date antivirus and a validated token. */
  lemma {:induction false} UnsignedDeviceNeedsAvAndToken(d: DeviceAssertion)
    requires !d.signedByMdm && VerifyDevice(d).ok
    ensures d.antivirus == Some("up_to_date") && d.token == Presented(true)
  {
  }

  /** A password-only (or unknown-method) user never passes: at best 0.5 - 0.2 + 0.1. */
  lemma {:induction false} PasswordOnlyUserFails(u: UserAssertion)
    requires !(u.authMethod == Some("mfa") || u.mfaOk || u.authMethod == Some("sso"))
    ensures !VerifyUser(u).ok
    ensures VerifyUser(u).score <= 0.4
  {
  }

  /** A missing auth method counts as "password". */
  lemma {:induction false} MissingMethodIsPassword(u: UserAssertion)
    ensures VerifyUser(u.(authMethod := None)) == VerifyUser(u.(authMethod := Some("password")))
  {
  }

  /** Signing a device with MDM raises its score by at most 0.5 and never lowers it. */
  lemma {:induction false} MdmSignatureMonotone(d: DeviceAssertion)
    ensures VerifyDevice(d.(signedByMdm := false)).score <= VerifyDevice(d.(signedByMdm := true)).score
    ensures VerifyDevice(d.(signedByMdm := true)).score <= VerifyDevice(d.(signedByMdm := false)).score + 0.5
  {
  }

  /** A fully compliant device from an MFA user with fresh authentication is allowed anywhere unblocked. */
  lemma {:induction false} CompliantContextAllowed(c: Context)
    requires c.device.signedByMdm && c.device.antivirus == Some("up_to_date")
    requires c.device.token.Presented? && c.device.patchLevel.Age? && c.device.patchLevel.days < 90.0
    requires c.user.mfaOk && c.user.userRole != Some("admin")
    requires c.user.lastAuth.Absent? || (c.user.lastAuth.Age? && c.user.lastAuth.days <= 30.0)
    requires !CountryBlocked(c)
    ensures VerifyContext(c).allow
  {
  }
}
