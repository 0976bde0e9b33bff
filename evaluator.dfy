/** The credit-card application evaluator and the frequent-flyer number validator
    it is given. The validator is an abstract collaborator: its validity check
    answers from a script of outcomes, one per call, and, once the script is used
    up, from a fixed answer per validation mode and number, so that an outcome can
    depend on the mode in force when the check runs; every number it is asked
    about is logged. */
module Evaluator {
  import opened Applications
  import opened FraudLookups
  import opened EvaluatorRules

  class FrequentFlyerNumberValidator {
    /** The mode field the evaluator sets. */
    var validationMode: ValidationMode
    /** The key reached through the validator's service information and licence. */
    const licenseKey: string
    /** Outcomes still scripted for the next calls of `IsValid`, next first. */
    var script: seq<ValidityOutcome>
    /** The outcome for a number, in a mode, once the script is used up. */
    const answer: (ValidationMode, string) -> ValidityOutcome
    /** The numbers `IsValid` has been called with, oldest first. */
    var checkedNumbers: seq<string>

    constructor (licenseKey: string, script: seq<ValidityOutcome>,
                 answer: (ValidationMode, string) -> ValidityOutcome, initialMode: ValidationMode)
      ensures this.licenseKey == licenseKey && this.script == script
      ensures this.answer == answer && validationMode == initialMode
      ensures checkedNumbers == []
    {
      this.licenseKey := licenseKey;
      this.script := script;
      this.answer := answer;
      validationMode := initialMode;
      checkedNumbers := [];
    }

    /** What the next call of `IsValid` with this number produces when the mode
        in force is `mode`. */
    function NextOutcome(mode: ValidationMode, number: string): ValidityOutcome
      reads this
    {
      if script != [] then script[0] else answer(mode, number)
    }

    /** The validity check, run in the current mode: consumes one scripted
        outcome, if any is left, and records the call; the mode is left as it is. */
    method IsValid(number: string) returns (outcome: ValidityOutcome)
      modifies this`script, this`checkedNumbers
      ensures outcome == old(NextOutcome(validationMode, number))
      ensures script == if old(script) == [] then [] else old(script)[1..]
      ensures checkedNumbers == old(checkedNumbers) + [number]
    {
      if script != [] {
        outcome := script[0];
        script := script[1..];
      } else {
        outcome := answer(validationMode, number);
      }
      checkedNumbers := checkedNumbers + [number];
    }
  }

  class CreditCardApplicationEvaluator {
    const numberValidator: FrequentFlyerNumberValidator
    const fraudLookup: Option<FraudLookup>

    /** The validator is required (a null one is refused); the fraud lookup is optional. */
    constructor (numberValidator: FrequentFlyerNumberValidator?, fraudLookup: Option<FraudLookup> := None)
      requires numberValidator != null
      ensures this.numberValidator == numberValidator && this.fraudLookup == fraudLookup
    {
      this.numberValidator := numberValidator;
      this.fraudLookup := fraudLookup;
    }

    /** The fraud rule's verdict on an application: false when no lookup is configured. */
    predicate FlaggedAsFraud(application: Application)
    {
      fraudLookup.Some? && fraudLookup.value.IsFraudRisk(application)
    }

    /** Evaluates one application. The decision is the policy `Decide` applied to
        what this call observes. When the call gets past the fraud, income and
        licence rules, it sets the validator's mode by age and calls the validity
        check exactly once, on the application's number; otherwise it leaves the
        validator untouched. The check runs in the mode just set, so its outcome
        is the one for the applicant's age. A failing check is turned into a referral. */
    method Evaluate(application: Application) returns (decision: Decision)
      modifies numberValidator
      ensures decision == Decide(Facts(FlaggedAsFraud(application),
                                       application.grossAnnualIncome,
                                       application.age,
                                       numberValidator.licenseKey,
                                       old(numberValidator.NextOutcome(ModeFor(application.age),
                                                                       application.frequentFlyerNumber))))
      ensures ReachesValidation(FlaggedAsFraud(application), application.grossAnnualIncome,
                                numberValidator.licenseKey) ==>
        && numberValidator.validationMode == ModeFor(application.age)
        && numberValidator.script == (if old(numberValidator.script) == [] then []
                                      else old(numberValidator.script)[1..])
        && numberValidator.checkedNumbers == old(numberValidator.checkedNumbers) + [application.frequentFlyerNumber]
      ensures !ReachesValidation(FlaggedAsFraud(application), application.grossAnnualIncome,
                                 numberValidator.licenseKey) ==>
        unchanged(numberValidator)
    {
      if fraudLookup.Some? && fraudLookup.value.IsFraudRisk(application) {
        return ReferredToHumanFraudRisk;
      }
      if application.grossAnnualIncome >= HighIncomeThreshold {
        return AutoAccepted;
      }
      if numberValidator.licenseKey == ExpiredLicenseKey {
        return ReferredToHuman;
      }
      numberValidator.validationMode := if application.age >= 30 then Detailed else Quick;
      var outcome := numberValidator.IsValid(application.frequentFlyerNumber);
      if outcome.Failed? {
        return ReferredToHuman;
      }
      if !outcome.valid {
        return ReferredToHuman;
      }
      if application.age <= AutoReferralMaxAge {
        return ReferredToHuman;
      }
      if application.grossAnnualIncome < LowIncomeThreshold {
        return AutoDeclined;
      }
      return ReferredToHuman;
    }
  }
}
