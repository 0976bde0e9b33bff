/** Client code: the evaluator's test scenarios, each on a fresh validator
    configured as the test configures its stand-in, with what each must observe
    proved from the contracts of `Evaluate` and `IsValid` alone. */
module Scenarios {
  import opened Applications
  import opened FraudLookups
  import opened EvaluatorRules
  import opened Evaluator

  /** The answer of a validity check that accepts every number in either mode. */
  function AcceptAll(mode: ValidationMode, number: string): ValidityOutcome { Returned(true) }

  /** The answer of a validity check that accepts a number only in detailed mode. */
  function AcceptDetailedOnly(mode: ValidationMode, number: string): ValidityOutcome
  {
    Returned(mode == Detailed)
  }

  method AcceptHighIncomeApplications() returns (decision: Decision)
    ensures decision == AutoAccepted
  {
    var validator := new FrequentFlyerNumberValidator("OK", [], AcceptAll, Quick);
    var evaluator := new CreditCardApplicationEvaluator(validator);
    decision := evaluator.Evaluate(BlankApplication().(grossAnnualIncome := 100_000));
  }

  method ReferYoungApplications() returns (decision: Decision)
    ensures decision == ReferredToHuman
  {
    var validator := new FrequentFlyerNumberValidator("OK", [], AcceptAll, Quick);
    var evaluator := new CreditCardApplicationEvaluator(validator);
    decision := evaluator.Evaluate(BlankApplication().(age := 19));
  }

  method DeclineLowIncomeApplications() returns (decision: Decision)
    ensures decision == AutoDeclined
  {
    var validator := new FrequentFlyerNumberValidator("OK", [], AcceptAll, Quick);
    var evaluator := new CreditCardApplicationEvaluator(validator);
    var application := BlankApplication().(grossAnnualIncome := 19_999, age := 42, frequentFlyerNumber := "s");
    decision := evaluator.Evaluate(application);
  }

  /** An expired licence refers the application without calling the validity
      check and without touching the mode. */
  method ReferWhenLicenseKeyExpired(initialMode: ValidationMode)
    returns (decision: Decision, mode: ValidationMode, checked: seq<string>)
    ensures decision == ReferredToHuman
    ensures mode == initialMode && checked == []
  {
    var validator := new FrequentFlyerNumberValidator("EXPIRED", [], AcceptAll, initialMode);
    var evaluator := new CreditCardApplicationEvaluator(validator);
    decision := evaluator.Evaluate(BlankApplication().(age := 42));
    mode, checked := validator.validationMode, validator.checkedNumbers;
  }

  /** With a valid licence, an applicant of 30 gets detailed validation and one of
      25 quick validation, whatever the mode was before. */
  method UseDetailedLookupForOlderApplications(initialMode: ValidationMode)
    returns (modeAt30: ValidationMode, modeAt25: ValidationMode)
    ensures modeAt30 == Detailed && modeAt25 == Quick
  {
    var validator := new FrequentFlyerNumberValidator("OK", [], AcceptAll, initialMode);
    var evaluator := new CreditCardApplicationEvaluator(validator);
    var _ := evaluator.Evaluate(BlankApplication().(age := 30));
    modeAt30 := validator.validationMode;
    var _ := evaluator.Evaluate(BlankApplication().(age := 25));
    modeAt25 := validator.validationMode;
  }

  /** The validity check is called with the application's number itself. */
  method ShouldValidateFrequentFlyerNumberForLowIncomeApplications()
    returns (checked: seq<string>)
    ensures checked == ["q1"] && "q" !in checked
  {
    var validator := new FrequentFlyerNumberValidator("OK", [], AcceptAll, Quick);
    var evaluator := new CreditCardApplicationEvaluator(validator);
    var _ := evaluator.Evaluate(BlankApplication().(frequentFlyerNumber := "q1"));
    checked := validator.checkedNumbers;
  }

  /** A check that fails on every number: the failure becomes a referral. */
  method ReferWhenFrequentFlyerValidationError() returns (decision: Decision)
    ensures decision == ReferredToHuman
  {
    var validator := new FrequentFlyerNumberValidator("OK", [], (_, _) => Failed, Quick);
    var evaluator := new CreditCardApplicationEvaluator(validator);
    decision := evaluator.Evaluate(BlankApplication().(age := 42));
  }

  /** A check scripted to return false and then true: the same application is
      first referred and then declined, since the evaluator keeps no state. */
  method ReferInvalidFrequentFlyerApplicationsSequence()
    returns (first: Decision, second: Decision)
    ensures first == ReferredToHuman && second == AutoDeclined
  {
    var validator := new FrequentFlyerNumberValidator("OK", [Returned(false), Returned(true)], AcceptAll, Quick);
    var evaluator := new CreditCardApplicationEvaluator(validator);
    var application := BlankApplication().(age := 25);
    first := evaluator.Evaluate(application);
    second := evaluator.Evaluate(application);
  }

  /** A lookup whose hook flags everything: the fraud rule wins although the
      validator would have had the application referred, and the validator is
      not consulted. */
  method ReferFraudRisk() returns (decision: Decision, checked: seq<string>)
    ensures decision == ReferredToHumanFraudRisk && checked == []
  {
    var validator := new FrequentFlyerNumberValidator("OK", [Returned(false), Returned(true)], AcceptAll, Quick);
    var evaluator := new CreditCardApplicationEvaluator(validator, Some(Overridden(_ => true)));
    decision := evaluator.Evaluate(BlankApplication());
    checked := validator.checkedNumbers;
  }

  /** A validator that accepts every number and an applicant of 25 with no income:
      the application is declined. */
  method LinqToMocks() returns (decision: Decision)
    ensures decision == AutoDeclined
  {
    var validator := new FrequentFlyerNumberValidator("OK", [], AcceptAll, Quick);
    var evaluator := new CreditCardApplicationEvaluator(validator);
    decision := evaluator.Evaluate(BlankApplication().(age := 25));
  }

  /** The standard lookup refers an applicant named "Smith" and no other. */
  method StandardLookupScreensSmith(lastName: string) returns (decision: Decision)
    ensures decision == ReferredToHumanFraudRisk <==> lastName == "Smith"
  {
    var validator := new FrequentFlyerNumberValidator("OK", [], AcceptAll, Quick);
    var evaluator := new CreditCardApplicationEvaluator(validator, Some(Standard));
    decision := evaluator.Evaluate(BlankApplication().(lastName := lastName, age := 25));
  }

  /** An evaluator whose lookup has a replaced hook refers an application as a
      fraud risk exactly when that hook flags it, whatever the hook is. */
  method OverriddenLookupScreensByHook(hook: Application -> bool, application: Application)
    returns (decision: Decision)
    ensures decision == ReferredToHumanFraudRisk <==> hook(application)
  {
    var validator := new FrequentFlyerNumberValidator("OK", [], AcceptAll, Quick);
    var evaluator := new CreditCardApplicationEvaluator(validator, Some(Overridden(hook)));
    decision := evaluator.Evaluate(application);
  }

  /** The mode is set before the check runs: a check that accepts numbers only in
      detailed mode accepts the number of a 42-year-old, whose application is then
      declined, even though the validator started in quick mode. */
  method ModeIsSetBeforeTheCheck() returns (decision: Decision, mode: ValidationMode)
    ensures decision == AutoDeclined && mode == Detailed
  {
    var validator := new FrequentFlyerNumberValidator("OK", [], AcceptDetailedOnly, Quick);
    var evaluator := new CreditCardApplicationEvaluator(validator);
    decision := evaluator.Evaluate(BlankApplication().(age := 42));
    mode := validator.validationMode;
  }

  /** With a validator that has no scripted outcomes left, evaluating the same
      application twice gives the same decision and leaves the same mode. */
  method EvaluateTwice(evaluator: CreditCardApplicationEvaluator, application: Application)
    returns (first: Decision, second: Decision, firstMode: ValidationMode, secondMode: ValidationMode)
    requires evaluator.numberValidator.script == []
    modifies evaluator.numberValidator
    ensures first == second && firstMode == secondMode
    ensures evaluator.numberValidator.script == []
  {
    first := evaluator.Evaluate(application);
    firstMode := evaluator.numberValidator.validationMode;
    second := evaluator.Evaluate(application);
    secondMode := evaluator.numberValidator.validationMode;
  }
}
