/** Policy evaluation: a signed bundle's allow and deny lists against a request's context. */
module PolicyEvaluator {
  import opened OrderedChecks
  import opened Text
  import opened Wrappers

  type RuleSet = Option<seq<string>>

  datatype Field = Missing | Str(text: string) | NotText

  datatype Context = Context(
    origin: Field, capability: Field, providerId: Field, modelId: Field, correlationId: Field)

  datatype Normalized = Normalized(
    origin: string, capability: string, providerId: Option<string>, modelId: Option<string>,
    correlationId: Option<string>)

  datatype Rules = Rules(
    deniedOrigins: RuleSet, deniedCapabilities: RuleSet, deniedProviders: RuleSet, deniedModels: RuleSet,
    allowedOrigins: RuleSet, allowedCapabilities: RuleSet, allowedProviders: RuleSet, allowedModels: RuleSet)

  /** A date in milliseconds; one that cannot be read compares false with everything. */
  datatype Time = Time(ms: int) | Unreadable

  datatype Bundle = Bundle(policyVersion: string, expiresAt: Option<Time>, rules: Rules)

  datatype Code =
    | Allow
    | EvaluationInputInvalid | PolicyMissing | PolicyExpired | KeyUnavailable | SignatureInvalid
    | OriginDenied | CapabilityDenied | ProviderDenied | ModelDenied
    | NoAllowRules
    | OriginNotAllowed | CapabilityNotAllowed | ProviderNotAllowed | ModelNotAllowed

  /** How the bundle's signature checks out; `NotGenuine` stands for every other failure. */
  datatype Signature = Verified | NoKeyResolver | KeyNotFound | InvalidPublicKey | NotGenuine

  datatype Decision = Decision(allow: bool, code: Code, policyVersion: string, correlationId: Option<string>)

  /** URL parsing with the scheme check, and the list of known capabilities. */
  datatype Environment = Environment(originOf: string -> Option<string>, isCapability: string -> bool)

  // ----- normalising the context --------------------------------------------

  function NormalizeIdentifier(value: Field): Option<string> {
    if !value.Str? || Trim(value.text) == "" then None else Some(Trim(value.text))
  }

  function NormalizeContext(context: Option<Context>, env: Environment): Option<Normalized> {
    if context.None? then None
    else
      var c := context.value;
      if !c.origin.Str? || env.originOf(c.origin.text).None? then None
      else if !c.capability.Str? || !env.isCapability(Trim(c.capability.text)) then None
      else Some(Normalized(env.originOf(c.origin.text).value, Trim(c.capability.text),
                           NormalizeIdentifier(c.providerId), NormalizeIdentifier(c.modelId),
                           NormalizeIdentifier(c.correlationId)))
  }

  // ----- matching -----------------------------------------------------------

  predicate MatchesRuleSet(rules: RuleSet, value: Option<string>) {
    if rules.None? || |rules.value| == 0 then false
    else if "*" in rules.value then true
    else if value.None? then false
    else value.value in rules.value
  }

  predicate IsAllowed(rules: RuleSet, value: Option<string>) {
    if rules.None? then true
    else if |rules.value| == 0 then false
    else MatchesRuleSet(rules, value)
  }

  predicate HasAnyAllowRule(rules: Rules) {
    rules.allowedOrigins.Some? || rules.allowedCapabilities.Some? || rules.allowedProviders.Some?
    || rules.allowedModels.Some?
  }

  predicate Expired(expiresAt: Option<Time>, now: Time) {
    expiresAt.Some? && expiresAt.value.Time? && now.Time? && now.ms > expiresAt.value.ms
  }

  // ----- the decision -------------------------------------------------------

  /** The code for a context that normalised and a bundle that is there, unexpired and verified. */
  function RulesCode(c: Normalized, rules: Rules): Code {
    if MatchesRuleSet(rules.deniedOrigins, Some(c.origin)) then OriginDenied
    else if MatchesRuleSet(rules.deniedCapabilities, Some(c.capability)) then CapabilityDenied
    else if MatchesRuleSet(rules.deniedProviders, c.providerId) then ProviderDenied
    else if MatchesRuleSet(rules.deniedModels, c.modelId) then ModelDenied
    else if !HasAnyAllowRule(rules) then NoAllowRules
    else if !IsAllowed(rules.allowedOrigins, Some(c.origin)) then OriginNotAllowed
    else if !IsAllowed(rules.allowedCapabilities, Some(c.capability)) then CapabilityNotAllowed
    else if !IsAllowed(rules.allowedProviders, c.providerId) then ProviderNotAllowed
    else if !IsAllowed(rules.allowedModels, c.modelId) then ModelNotAllowed
    else Allow
  }

  function Decide(code: Code, bundle: Option<Bundle>, context: Option<Normalized>): Decision {
    Decision(code == Allow, code, if bundle.Some? then bundle.value.policyVersion else "unknown",
             if context.Some? then context.value.correlationId else None)
  }

  function SignatureCode(signature: Signature): Code
    requires signature != Verified
  {
    if signature == NotGenuine then SignatureInvalid else KeyUnavailable
  }

  function EvaluateNormalized(context: Option<Normalized>, bundle: Option<Bundle>, now: Time, verify: bool,
                              signature: Signature): Decision
  {
    if context.None? then Decide(EvaluationInputInvalid, bundle, None)
    else if bundle.None? then Decide(PolicyMissing, None, context)
    else if Expired(bundle.value.expiresAt, now) then Decide(PolicyExpired, bundle, context)
    else if verify && signature != Verified then Decide(SignatureCode(signature), bundle, context)
    else Decide(RulesCode(context.value, bundle.value.rules), bundle, context)
  }

  function Evaluate(context: Option<Context>, bundle: Option<Bundle>, now: Time, verify: bool, signature: Signature,
                    env: Environment): Decision
  {
    EvaluateNormalized(NormalizeContext(context, env), bundle, now, verify, signature)
  }

  // ----- what it means ------------------------------------------------------

  /** The identifier that a field gives: its text without outer white space, unless the field is no text or blank. */
  ghost predicate Identifies(value: Field, id: Option<string>) {
    match id
    case Some(text) => value.Str? && text != "" && SpaceAround(value.text, text)
    case None => value.Str? ==> SpaceAround(value.text, "")
  }

  /** The context is acceptable and `n` says the same: the URL's origin, the trimmed capability and identifiers. */
  ghost predicate SaysTheSame(c: Context, n: Normalized, env: Environment) {
    && c.origin.Str? && env.originOf(c.origin.text) == Some(n.origin)
    && c.capability.Str? && SpaceAround(c.capability.text, n.capability) && env.isCapability(n.capability)
    && Identifies(c.providerId, n.providerId)
    && Identifies(c.modelId, n.modelId)
    && Identifies(c.correlationId, n.correlationId)
  }

  /** The list names the value or everything. */
  ghost predicate Names(rules: RuleSet, value: Option<string>) {
    rules.Some? && exists entry :: entry in rules.value && (entry == "*" || value == Some(entry))
  }

  ghost predicate DeniesNothing(c: Normalized, rules: Rules) {
    && !Names(rules.deniedOrigins, Some(c.origin)) && !Names(rules.deniedCapabilities, Some(c.capability))
    && !Names(rules.deniedProviders, c.providerId) && !Names(rules.deniedModels, c.modelId)
  }

  predicate SomeAllowList(rules: Rules) {
    !(rules.allowedOrigins == rules.allowedCapabilities == rules.allowedProviders == rules.allowedModels == None)
  }

  ghost predicate AllowsAll(c: Normalized, rules: Rules) {
    && (rules.allowedOrigins.Some? ==> Names(rules.allowedOrigins, Some(c.origin)))
    && (rules.allowedCapabilities.Some? ==> Names(rules.allowedCapabilities, Some(c.capability)))
    && (rules.allowedProviders.Some? ==> Names(rules.allowedProviders, c.providerId))
    && (rules.allowedModels.Some? ==> Names(rules.allowedModels, c.modelId))
  }

  ghost predicate Permitted(c: Normalized, rules: Rules) {
    DeniesNothing(c, rules) && SomeAllowList(rules) && AllowsAll(c, rules)
  }

  /** Both times can be read, and now is later. */
  predicate IsPast(expiresAt: Option<Time>, now: Time) {
    match (expiresAt, now)
    case (Some(Time(end)), Time(present)) => end < present
    case _ => false
  }

  lemma IdentifierMeans(value: Field, id: Option<string>)
    ensures NormalizeIdentifier(value) == id <==> Identifies(value, id)
  {
    if value.Str? {
      TrimIffSpaceAround(value.text, "");
      TrimIffSpaceAround(value.text, id.GetOr(""));
    }
  }

  lemma CapabilityMeans(text: string, capability: string)
    ensures Trim(text) == capability <==> SpaceAround(text, capability)
  {
    TrimIffSpaceAround(text, capability);
  }

  /** A context normalises exactly to what says the same. */
  lemma NormalizesIff(c: Context, n: Normalized, env: Environment)
    ensures NormalizeContext(Some(c), env) == Some(n) <==> SaysTheSame(c, n, env)
  {
    if c.capability.Str? { CapabilityMeans(c.capability.text, n.capability); }
    IdentifierMeans(c.providerId, n.providerId);
    IdentifierMeans(c.modelId, n.modelId);
    IdentifierMeans(c.correlationId, n.correlationId);
  }

  lemma MatchesIffNames(rules: RuleSet, value: Option<string>)
    ensures MatchesRuleSet(rules, value) <==> Names(rules, value)
    ensures IsAllowed(rules, value) <==> (rules.Some? ==> Names(rules, value))
  {
    if rules.Some? {
      if "*" in rules.value { assert Names(rules, value); }
      if value.Some? && value.value in rules.value { assert Names(rules, value); }
    }
  }

  /** The tests on the bundle as such, in order. */
  ghost function BundleChecks(bundle: Bundle, now: Time, verify: bool, signature: Signature): seq<Check<Code>> {
    [Check(PolicyExpired, !IsPast(bundle.expiresAt, now)),
     Check(KeyUnavailable, verify ==> signature !in {NoKeyResolver, KeyNotFound, InvalidPublicKey}),
     Check(SignatureInvalid, verify ==> signature != NotGenuine)]
  }

  /** The tests on the deny lists, in order. */
  ghost function DenyChecks(c: Normalized, rules: Rules): seq<Check<Code>> {
    [Check(OriginDenied, !Names(rules.deniedOrigins, Some(c.origin))),
     Check(CapabilityDenied, !Names(rules.deniedCapabilities, Some(c.capability))),
     Check(ProviderDenied, !Names(rules.deniedProviders, c.providerId)),
     Check(ModelDenied, !Names(rules.deniedModels, c.modelId))]
  }

  /** The tests on the allow lists, in order. */
  ghost function AllowChecks(c: Normalized, rules: Rules): seq<Check<Code>> {
    [Check(NoAllowRules, SomeAllowList(rules)),
     Check(OriginNotAllowed, rules.allowedOrigins.Some? ==> Names(rules.allowedOrigins, Some(c.origin))),
     Check(CapabilityNotAllowed,
           rules.allowedCapabilities.Some? ==> Names(rules.allowedCapabilities, Some(c.capability))),
     Check(ProviderNotAllowed, rules.allowedProviders.Some? ==> Names(rules.allowedProviders, c.providerId)),
     Check(ModelNotAllowed, rules.allowedModels.Some? ==> Names(rules.allowedModels, c.modelId))]
  }

  /** All tests are passed, or the code is that of the first that is not. */
  ghost predicate Gives(checks: seq<Check<Code>>, code: Code) {
    if AllPassed(checks) then code == Allow else FailsFirst(checks, code)
  }

  /** Further tests are asked only if the first ones are passed. */
  lemma GivesConcat(a: seq<Check<Code>>, b: seq<Check<Code>>, code: Code)
    requires if AllPassed(a) then Gives(b, code) else Gives(a, code)
    ensures Gives(a + b, code)
  {
    PassedConcat(a, b);
    if !AllPassed(a) { FailsInFirst(a, b, code); } else if !AllPassed(b) { FailsInSecond(a, b, code); }
  }

  lemma DenyPart(c: Normalized, rules: Rules)
    ensures var checks, code := DenyChecks(c, rules), RulesCode(c, rules);
      if AllPassed(checks) then code !in {OriginDenied, CapabilityDenied, ProviderDenied, ModelDenied}
      else Gives(checks, code)
  {
    MatchesIffNames(rules.deniedOrigins, Some(c.origin));
    MatchesIffNames(rules.deniedCapabilities, Some(c.capability));
    MatchesIffNames(rules.deniedProviders, c.providerId);
    MatchesIffNames(rules.deniedModels, c.modelId);
    var checks := DenyChecks(c, rules);
    if !checks[0].passed { FailsAt(checks, 0); }
    else if !checks[1].passed { FailsAt(checks, 1); }
    else if !checks[2].passed { FailsAt(checks, 2); }
    else if !checks[3].passed { FailsAt(checks, 3); }
  }

  lemma AllowPart(c: Normalized, rules: Rules)
    requires RulesCode(c, rules) !in {OriginDenied, CapabilityDenied, ProviderDenied, ModelDenied}
    ensures Gives(AllowChecks(c, rules), RulesCode(c, rules))
  {
    MatchesIffNames(rules.allowedOrigins, Some(c.origin));
    MatchesIffNames(rules.allowedCapabilities, Some(c.capability));
    MatchesIffNames(rules.allowedProviders, c.providerId);
    MatchesIffNames(rules.allowedModels, c.modelId);
    var checks := AllowChecks(c, rules);
    if !checks[0].passed { FailsAt(checks, 0); }
    else if !checks[1].passed { FailsAt(checks, 1); }
    else if !checks[2].passed { FailsAt(checks, 2); }
    else if !checks[3].passed { FailsAt(checks, 3); }
    else if !checks[4].passed { FailsAt(checks, 4); }
  }

  lemma RulesCodeMeans(c: Normalized, rules: Rules)
    ensures Gives(DenyChecks(c, rules) + AllowChecks(c, rules), RulesCode(c, rules))
  {
    DenyPart(c, rules);
    if AllPassed(DenyChecks(c, rules)) { AllowPart(c, rules); }
    GivesConcat(DenyChecks(c, rules), AllowChecks(c, rules), RulesCode(c, rules));
  }

  ghost function Checks(c: Normalized, bundle: Bundle, now: Time, verify: bool, signature: Signature)
    : seq<Check<Code>>
  {
    BundleChecks(bundle, now, verify, signature) + (DenyChecks(c, bundle.rules) + AllowChecks(c, bundle.rules))
  }

  lemma BundlePart(c: Normalized, bundle: Bundle, now: Time, verify: bool, signature: Signature)
    ensures var code := EvaluateNormalized(Some(c), Some(bundle), now, verify, signature).code;
      var checks := BundleChecks(bundle, now, verify, signature);
      if AllPassed(checks) then code == RulesCode(c, bundle.rules) else Gives(checks, code)
  {
    var checks := BundleChecks(bundle, now, verify, signature);
    if !checks[0].passed { FailsAt(checks, 0); }
    else if !checks[1].passed { FailsAt(checks, 1); }
    else if !checks[2].passed { FailsAt(checks, 2); }
  }

  lemma CodeMeans(c: Normalized, bundle: Bundle, now: Time, verify: bool, signature: Signature)
    ensures Gives(Checks(c, bundle, now, verify, signature),
                  EvaluateNormalized(Some(c), Some(bundle), now, verify, signature).code)
  {
    var code := EvaluateNormalized(Some(c), Some(bundle), now, verify, signature).code;
    var first := BundleChecks(bundle, now, verify, signature);
    BundlePart(c, bundle, now, verify, signature);
    RulesCodeMeans(c, bundle.rules);
    GivesConcat(first, DenyChecks(c, bundle.rules) + AllowChecks(c, bundle.rules), code);
  }

  lemma NormalFormMeans(context: Option<Context>, env: Environment)
    ensures match NormalizeContext(context, env)
      case Some(n) => Describes(context, n, env) && forall m :: Describes(context, m, env) ==> m == n
      case None => forall m :: !Describes(context, m, env)
  {
    if context.Some? {
      forall m ensures NormalizeContext(context, env) == Some(m) <==> SaysTheSame(context.value, m, env) {
        NormalizesIff(context.value, m, env);
      }
    }
  }

  ghost predicate Describes(context: Option<Context>, n: Normalized, env: Environment) {
    context.Some? && SaysTheSame(context.value, n, env)
  }

  /** What a decision says for an acceptable context. */
  ghost predicate DecidesFor(d: Decision, n: Normalized, bundle: Option<Bundle>, now: Time, verify: bool,
                             signature: Signature)
  {
    && d.correlationId == n.correlationId
    && match bundle
       case Some(b) => Gives(Checks(n, b, now, verify, signature), d.code)
       case None => d.code == PolicyMissing
  }

  /** Main result: a context that is not acceptable is refused as such; otherwise a missing bundle is, and with a bundle
      the code is that of the first test that fails, or says to allow if all are passed.  The decision names the
      bundle's version and the request's correlation id. */
  lemma DecisionMeans(context: Option<Context>, bundle: Option<Bundle>, now: Time, verify: bool, signature: Signature,
                      env: Environment)
    ensures var d := Evaluate(context, bundle, now, verify, signature, env);
      && (d.allow <==> d.code == Allow)
      && d.policyVersion == (if bundle == None then "unknown" else bundle.value.policyVersion)
      && (forall n :: Describes(context, n, env) ==> DecidesFor(d, n, bundle, now, verify, signature))
      && ((forall n :: !Describes(context, n, env)) ==> d.code == EvaluationInputInvalid && d.correlationId == None)
  {
    var normalized := NormalizeContext(context, env);
    NormalFormMeans(context, env);
    if normalized.Some? {
      NormalizedDecision(normalized.value, bundle, now, verify, signature);
    } else {
      assert Evaluate(context, bundle, now, verify, signature, env) == Decide(EvaluationInputInvalid, bundle, None);
    }
  }

  lemma NormalizedDecision(n: Normalized, bundle: Option<Bundle>, now: Time, verify: bool, signature: Signature)
    ensures var d := EvaluateNormalized(Some(n), bundle, now, verify, signature);
      && DecidesFor(d, n, bundle, now, verify, signature)
      && (d.allow <==> d.code == Allow)
      && d.policyVersion == (if bundle == None then "unknown" else bundle.value.policyVersion)
  {
    if bundle.Some? { CodeMeans(n, bundle.value, now, verify, signature); }
  }

  lemma AllPassedMeans(c: Normalized, bundle: Bundle, now: Time, verify: bool, signature: Signature)
    ensures AllPassed(Checks(c, bundle, now, verify, signature)) <==>
      !IsPast(bundle.expiresAt, now) && (verify ==> signature == Verified) && Permitted(c, bundle.rules)
  {
    var first, second, third :=
      BundleChecks(bundle, now, verify, signature), DenyChecks(c, bundle.rules), AllowChecks(c, bundle.rules);
    PassedConcat(second, third);
    PassedConcat(first, second + third);
    BundlePassed(bundle, now, verify, signature);
    RulesPassed(c, bundle.rules);
  }

  lemma BundlePassed(bundle: Bundle, now: Time, verify: bool, signature: Signature)
    ensures AllPassed(BundleChecks(bundle, now, verify, signature)) <==>
      !IsPast(bundle.expiresAt, now) && (verify ==> signature == Verified)
  {
    var checks := BundleChecks(bundle, now, verify, signature);
    assert AllPassed(checks) <==> checks[0].passed && checks[1].passed && checks[2].passed;
  }

  lemma RulesPassed(c: Normalized, rules: Rules)
    ensures AllPassed(DenyChecks(c, rules)) <==> DeniesNothing(c, rules)
    ensures AllPassed(AllowChecks(c, rules)) <==> SomeAllowList(rules) && AllowsAll(c, rules)
  {
    var d, a := DenyChecks(c, rules), AllowChecks(c, rules);
    assert AllPassed(d) <==> d[0].passed && d[1].passed && d[2].passed && d[3].passed;
    assert AllPassed(a) <==> a[0].passed && a[1].passed && a[2].passed && a[3].passed && a[4].passed;
  }

  lemma NoCheckAllows(checks: seq<Check<Code>>, code: Code)
    requires Gives(checks, code) && forall i :: 0 <= i < |checks| ==> checks[i].error != Allow
    ensures code == Allow <==> AllPassed(checks)
  {
  }

  /** The bundle may be applied, and lets the request through. */
  ghost predicate LetsThrough(bundle: Bundle, n: Normalized, now: Time, verify: bool, signature: Signature) {
    !IsPast(bundle.expiresAt, now) && (verify ==> signature == Verified) && Permitted(n, bundle.rules)
  }

  lemma AllowsIffLetThrough(d: Decision, n: Normalized, bundle: Bundle, now: Time, verify: bool, signature: Signature)
    requires DecidesFor(d, n, Some(bundle), now, verify, signature)
    ensures d.code == Allow <==> LetsThrough(bundle, n, now, verify, signature)
  {
    ChecksDeny(n, bundle, now, verify, signature);
    NoCheckAllows(Checks(n, bundle, now, verify, signature), d.code);
    AllPassedMeans(n, bundle, now, verify, signature);
  }

  lemma ChecksDeny(n: Normalized, bundle: Bundle, now: Time, verify: bool, signature: Signature)
    ensures var checks := Checks(n, bundle, now, verify, signature);
      forall i :: 0 <= i < |checks| ==> checks[i].error != Allow
  {
  }

  /** Main result: a request is allowed if and only if its context is acceptable, there is a bundle that has not expired
      and is verified when that is required, no deny list names the request, some allow list exists, and every allow
      list that exists names it. */
  lemma AllowIff(context: Option<Context>, bundle: Option<Bundle>, now: Time, verify: bool, signature: Signature,
                 env: Environment)
    ensures Evaluate(context, bundle, now, verify, signature, env).allow <==>
      bundle.Some? && exists n :: Describes(context, n, env) && LetsThrough(bundle.value, n, now, verify, signature)
  {
    DecisionMeans(context, bundle, now, verify, signature, env);
    if bundle.Some? {
      forall n | Describes(context, n, env)
        ensures Evaluate(context, bundle, now, verify, signature, env).allow
          <==> LetsThrough(bundle.value, n, now, verify, signature)
      {
        AllowsIffLetThrough(Evaluate(context, bundle, now, verify, signature, env), n, bundle.value, now, verify,
                            signature);
      }
    }
  }

  // ----- extending lists ----------------------------------------------------

  /** The longer list exists if the shorter does, and has all of its entries. */
  ghost predicate Extends(more: RuleSet, less: RuleSet) {
    less.Some? ==> more.Some? && forall entry :: entry in less.value ==> entry in more.value
  }

  ghost predicate DenyLists(more: Rules, less: Rules) {
    && Extends(more.deniedOrigins, less.deniedOrigins) && Extends(more.deniedCapabilities, less.deniedCapabilities)
    && Extends(more.deniedProviders, less.deniedProviders) && Extends(more.deniedModels, less.deniedModels)
  }

  /** Existing allow lists extended, and none added. */
  ghost predicate AllowLists(more: Rules, less: Rules) {
    && Extends(more.allowedOrigins, less.allowedOrigins) && Extends(more.allowedCapabilities, less.allowedCapabilities)
    && Extends(more.allowedProviders, less.allowedProviders) && Extends(more.allowedModels, less.allowedModels)
    && (more.allowedOrigins.Some? <==> less.allowedOrigins.Some?)
    && (more.allowedCapabilities.Some? <==> less.allowedCapabilities.Some?)
    && (more.allowedProviders.Some? <==> less.allowedProviders.Some?)
    && (more.allowedModels.Some? <==> less.allowedModels.Some?)
  }

  lemma NamesGrows(more: RuleSet, less: RuleSet, value: Option<string>)
    requires Extends(more, less) && Names(less, value)
    ensures Names(more, value)
  {
    var entry :| entry in less.value && (entry == "*" || value == Some(entry));
    assert entry in more.value;
  }

  /** Main result: shorter deny lists and longer allow lists, none added or dropped, never take a permission away;
      so extending a deny list never turns deny into allow, and extending an existing allow list never turns allow
      into deny. */
  lemma PermissionIsMonotone(c: Normalized, strict: Rules, lax: Rules)
    requires DenyLists(strict, lax) && AllowLists(lax, strict) && Permitted(c, strict)
    ensures Permitted(c, lax)
  {
    if Names(lax.deniedOrigins, Some(c.origin)) { NamesGrows(strict.deniedOrigins, lax.deniedOrigins, Some(c.origin)); }
    if Names(lax.deniedCapabilities, Some(c.capability)) {
      NamesGrows(strict.deniedCapabilities, lax.deniedCapabilities, Some(c.capability));
    }
    if Names(lax.deniedProviders, c.providerId) {
      NamesGrows(strict.deniedProviders, lax.deniedProviders, c.providerId);
    }
    if Names(lax.deniedModels, c.modelId) { NamesGrows(strict.deniedModels, lax.deniedModels, c.modelId); }
    if lax.allowedOrigins.Some? { NamesGrows(lax.allowedOrigins, strict.allowedOrigins, Some(c.origin)); }
    if lax.allowedCapabilities.Some? {
      NamesGrows(lax.allowedCapabilities, strict.allowedCapabilities, Some(c.capability));
    }
    if lax.allowedProviders.Some? { NamesGrows(lax.allowedProviders, strict.allowedProviders, c.providerId); }
    if lax.allowedModels.Some? { NamesGrows(lax.allowedModels, strict.allowedModels, c.modelId); }
  }

  /** The same for the evaluator as a whole. */
  lemma EvaluationIsMonotone(context: Option<Context>, strict: Bundle, lax: Bundle, now: Time, verify: bool,
                             signature: Signature, env: Environment)
    requires DenyLists(strict.rules, lax.rules) && AllowLists(lax.rules, strict.rules)
    requires lax.expiresAt == strict.expiresAt
    ensures Evaluate(context, Some(strict), now, verify, signature, env).allow ==>
      Evaluate(context, Some(lax), now, verify, signature, env).allow
  {
    AllowIff(context, Some(strict), now, verify, signature, env);
    AllowIff(context, Some(lax), now, verify, signature, env);
    if n :| Describes(context, n, env) && LetsThrough(strict, n, now, verify, signature) {
      PermissionIsMonotone(n, strict.rules, lax.rules);
    }
  }

  const NO_RULES: Rules := Rules(None, None, None, None, None, None, None, None)

  /** Adding an allow list where there was none can go either way: it makes the policy say something, or narrows it. */
  lemma AddedAllowListGoesEitherWay(c: Normalized, other: string)
    requires other != "*" && other != c.origin
    ensures !Permitted(c, NO_RULES)
    ensures Permitted(c, NO_RULES.(allowedCapabilities := Some(["*"])))
    ensures !Permitted(c, NO_RULES.(allowedCapabilities := Some(["*"]), allowedOrigins := Some([other])))
  {
    assert "*" in ["*"];
    var rules := NO_RULES.(allowedCapabilities := Some(["*"]));
    assert Names(rules.allowedCapabilities, Some(c.capability));
  }
}
