/** The decision the evaluator takes, as a function of what it observes during one
    evaluation, together with an independent statement of the same policy as an
    ordered table of rules (first match wins) and the properties the policy promises. */
module EvaluatorRules {
  import opened Applications

  const AutoReferralMaxAge: int := 20
  const HighIncomeThreshold: int := 100_000
  const LowIncomeThreshold: int := 20_000
  /** Applicants of this age or older are validated in detailed mode. */
  const DetailedValidationMinAge: int := 30
  /** The licence key that marks the validator's licence as expired. */
  const ExpiredLicenseKey: string := "EXPIRED"

  /** Everything one evaluation looks at: the fraud lookup's answer (false when no
      lookup is configured), the application's income and age, the validator's
      licence key, and what the validity check produces if it is called. */
  datatype Facts = Facts(
    fraudRisk: bool,
    income: int,
    age: int,
    licenseKey: string,
    validity: ValidityOutcome)

  /** The mode the evaluator sets on the validator for an applicant of this age. */
  function ModeFor(age: int): ValidationMode
  {
    if age >= DetailedValidationMinAge then Detailed else Quick
  }

  /** True when no earlier rule returns, so that the evaluator goes on to set the
      validation mode and to call the validity check. */
  predicate ReachesValidation(fraudRisk: bool, income: int, licenseKey: string)
  {
    !fraudRisk && income < HighIncomeThreshold && licenseKey != ExpiredLicenseKey
  }

  /** The decision, rule by rule in the evaluator's order. */
  function Decide(f: Facts): Decision
  {
    if f.fraudRisk then ReferredToHumanFraudRisk
    else if f.income >= HighIncomeThreshold then AutoAccepted
    else if f.licenseKey == ExpiredLicenseKey then ReferredToHuman
    else match f.validity
      case Failed => ReferredToHuman
      case Returned(valid) =>
        if !valid then ReferredToHuman
        else if f.age <= AutoReferralMaxAge then ReferredToHuman
        else if f.income < LowIncomeThreshold then AutoDeclined
        else ReferredToHuman
  }

  /** Detailed mode exactly for applicants aged 30 or more, quick mode otherwise. */
  lemma ModeForDetailedExactlyFromThirty(age: int)
    ensures ModeFor(age) == Detailed <==> age >= 30
    ensures ModeFor(age) == Quick <==> age < 30
  {
  }

  /** A flagged application is referred as a fraud risk whatever its income, its
      age, the licence or the validity outcome; no other application is. */
  lemma FraudRiskTakesPrecedence(f: Facts)
    ensures Decide(f) == ReferredToHumanFraudRisk <==> f.fraudRisk
  {
  }

  /** Without a fraud flag, an income of 100,000 or more (the bound included) is
      accepted, and only such an income is. */
  lemma HighIncomeAccepted(f: Facts)
    ensures Decide(f) == AutoAccepted <==> !f.fraudRisk && f.income >= 100_000
  {
  }

  /** When no earlier rule returns before the validity check, the decision does
      not depend on what the check would produce: the evaluator does not need it. */
  lemma DecidedBeforeValidation(f: Facts, other: ValidityOutcome)
    requires !ReachesValidation(f.fraudRisk, f.income, f.licenseKey)
    ensures Decide(f) == Decide(f.(validity := other))
  {
  }

  /** Without a fraud flag and below the high-income threshold, the licence key
      "EXPIRED" (and only that exact key) leads to a referral before validation. */
  lemma ExpiredLicenseReferred(f: Facts)
    requires !f.fraudRisk && f.income < HighIncomeThreshold && f.licenseKey == "EXPIRED"
    ensures Decide(f) == ReferredToHuman
    ensures !ReachesValidation(f.fraudRisk, f.income, f.licenseKey)
  {
  }

  /** A validity check that fails, or that returns false, leads to a referral. */
  lemma InvalidOrFailedNumberReferred(f: Facts)
    requires ReachesValidation(f.fraudRisk, f.income, f.licenseKey)
    requires f.validity == Failed || f.validity == Returned(false)
    ensures Decide(f) == ReferredToHuman
  {
  }

  /** Once the number is valid: 20 or younger is referred; otherwise an income
      below 20,000 is declined and any other income is referred. */
  lemma ValidNumberDecision(f: Facts)
    requires ReachesValidation(f.fraudRisk, f.income, f.licenseKey)
    requires f.validity == Returned(true)
    ensures f.age <= 20 ==> Decide(f) == ReferredToHuman
    ensures f.age > 20 && f.income < 20_000 ==> Decide(f) == AutoDeclined
    ensures f.age > 20 && f.income >= 20_000 ==> Decide(f) == ReferredToHuman
  {
  }

  /** An application is declined exactly when it is not flagged, its income is
      below 20,000, the licence is not "EXPIRED", the validity check returned
      true and the applicant is older than 20. */
  lemma AutoDeclinedExactly(f: Facts)
    ensures Decide(f) == AutoDeclined <==>
      !f.fraudRisk && f.income < 20_000 && f.licenseKey != "EXPIRED"
      && f.validity == Returned(true) && f.age > 20
  {
  }

  // ---------------------------------------------------------------------------
  // The same policy as a table of rules

  /** A rule: when `applies` holds of the facts, the decision is `decision`. */
  datatype Rule = Rule(applies: Facts -> bool, decision: Decision)

  /** The decision of the first rule that applies, or None when none does. */
  function FirstMatch(rules: seq<Rule>, f: Facts): (r: Option<Decision>)
    ensures r.None? <==> forall i :: 0 <= i < |rules| ==> !rules[i].applies(f)
    ensures r.Some? ==> exists i :: 0 <= i < |rules| && rules[i].applies(f)
                                   && rules[i].decision == r.value
                                   && forall j :: 0 <= j < i ==> !rules[j].applies(f)
  {
    if rules == [] then None
    else if rules[0].applies(f) then Some(rules[0].decision)
    else FirstMatch(rules[1..], f)
  }

  /** The evaluator's rules, top to bottom. */
  function RuleTable(): seq<Rule>
  {
    [ Rule((f: Facts) => f.fraudRisk, ReferredToHumanFraudRisk),
      Rule((f: Facts) => f.income >= HighIncomeThreshold, AutoAccepted),
      Rule((f: Facts) => f.licenseKey == ExpiredLicenseKey, ReferredToHuman),
      Rule((f: Facts) => f.validity.Failed?, ReferredToHuman),
      Rule((f: Facts) => f.validity == Returned(false), ReferredToHuman),
      Rule((f: Facts) => f.age <= AutoReferralMaxAge, ReferredToHuman),
      Rule((f: Facts) => f.income < LowIncomeThreshold, AutoDeclined),
      Rule((f: Facts) => true, ReferredToHuman) ]
  }

  /** The first rule that applies decides: if rule `i` applies and no earlier one
      does, the table yields rule `i`'s decision. (It follows from the contract of
      `FirstMatch`, since two first applicable rules are the same rule.) */
  lemma FirstMatchAt(rules: seq<Rule>, f: Facts, i: nat)
    requires i < |rules| && rules[i].applies(f)
    requires forall j :: 0 <= j < i ==> !rules[j].applies(f)
    ensures FirstMatch(rules, f) == Some(rules[i].decision)
  {
  }

  /** The decision is the one of the first rule in the table that applies, and
      some rule always applies. */
  lemma DecideFollowsRuleTable(f: Facts)
    ensures FirstMatch(RuleTable(), f) == Some(Decide(f))
  {
    var t := RuleTable();
    var i :=
      if f.fraudRisk then 0
      else if f.income >= HighIncomeThreshold then 1
      else if f.licenseKey == ExpiredLicenseKey then 2
      else if f.validity.Failed? then 3
      else if f.validity == Returned(false) then 4
      else if f.age <= AutoReferralMaxAge then 5
      else if f.income < LowIncomeThreshold then 6
      else 7;
    FirstMatchAt(t, f, i);
  }
}
