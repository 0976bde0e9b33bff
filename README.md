# Credit-card application evaluator

A Dafny model of the decision logic of the `CreditCardApplications` library: the
evaluator that turns a credit-card application into one of four decisions
(`AutoAccepted`, `AutoDeclined`, `ReferredToHuman`, `ReferredToHumanFraudRisk`), the
optional fraud lookup it consults first, and the frequent-flyer number validator it
is given, whose validation mode it sets and whose validity check it calls.

Files and modules:

- `applications.dfy` (`Applications`): the application record, the decision and
  validation-mode enumerations, and `ValidityOutcome = Returned(bool) | Failed`,
  the result of one call of the validity check (`Failed` stands for an exception).
- `fraud_lookup.dfy` (`FraudLookups`): the fraud lookup as a strategy value.
  `Standard` is the default lookup, whose hook `CheckApplication` flags the last
  name "Smith". `Overridden(hook)` is a lookup whose hook has been replaced.
  `IsFraudRisk` delegates to the hook.
- `evaluator_rules.dfy` (`EvaluatorRules`): the thresholds, and the decision as a pure
  function `Decide` of what one evaluation observes (`Facts`: fraud flag, income, age,
  licence key, validity outcome). The lemmas state what the policy promises. It also
  holds an independent reference: the rules as an ordered table with first-match-wins
  semantics (`RuleTable`, `FirstMatch`), with a proof that `Decide` agrees with it
  on every input.
- `evaluator.dfy` (`Evaluator`): the classes. In `FrequentFlyerNumberValidator`,
  `validationMode` is the mutable mode field, `licenseKey` is the key reached through
  the service information and licence, and `IsValid` takes its outcome from a script
  of outcomes, one per call, then from a fixed answer per mode and number, so the
  outcome can depend on the mode in force when the check runs. The validator also
  logs every number it is asked about. `CreditCardApplicationEvaluator` holds the
  validator and the optional lookup as read-only fields, and its `Evaluate` method
  writes the validator's mode and calls its check. `Evaluate` is proved against `Decide`.
- `scenarios.dfy` (`Scenarios`): the test scenarios as client methods on fresh
  objects. Each decision, mode and call log it observes is proved from the contracts.

## Model

| member | source | states |
|---|---|---|
| `Evaluator.CreditCardApplicationEvaluator.constructor` | CreditCardApplications/CreditCardApplicationEvaluator.cs:8-13 | the validator is required (a null validator is refused by the precondition); the fraud lookup is optional and defaults to none; both are stored as given |
| `Evaluator.CreditCardApplicationEvaluator.Evaluate` | CreditCardApplications/CreditCardApplicationEvaluator.cs:20-71 | the decision is `Decide` of the fraud flag (false when no lookup is configured), the income, the age, the licence key and the outcome the validator's next call gives in mode `ModeFor(age)`, so the mode is written before the check runs. Past the fraud, income and licence rules, the mode is `ModeFor(age)`, one scripted outcome is consumed and the number is logged once. Otherwise the validator is unchanged: mode kept, check never called. A failing check gives a decision and is never propagated |
| `Evaluator.FrequentFlyerNumberValidator.IsValid` | CreditCardApplications/CreditCardApplicationEvaluator.cs:46-49 | the outcome is the next scripted one, or, once the script is used up, the fixed answer for the number in the current mode; that scripted outcome is consumed, the number is logged, and the mode is untouched |
| `Evaluator.FrequentFlyerNumberValidator.constructor` | CreditCardApplications.Test/CreditCardApplicationEvaluatorShould.cs:15-20 | a validator with the given licence key, script, fallback answer and initial mode, and an empty call log |
| `EvaluatorRules.FirstMatch` | CreditCardApplications/CreditCardApplicationEvaluator.cs:20-71 | none of the rules applies exactly when the result is None; otherwise the result is the decision of a rule that applies and that no earlier rule precedes |
| `EvaluatorRules.FirstMatchAt` | CreditCardApplications/CreditCardApplicationEvaluator.cs:20-71 | if rule i applies and no earlier rule does, the table yields rule i's decision |
| `EvaluatorRules.DecideFollowsRuleTable` | CreditCardApplications/CreditCardApplicationEvaluator.cs:23-70 | on every input, `Decide` gives the decision of the first applicable rule of the eight-rule table, in source order: fraud, high income, expired licence, failed check, invalid number, young applicant, low income, default. Some rule always applies |
| `EvaluatorRules.FraudRiskTakesPrecedence` | CreditCardApplications/CreditCardApplicationEvaluator.cs:23-26 | the decision is `ReferredToHumanFraudRisk` if and only if the application is flagged, whatever the income, age, licence or validity outcome |
| `EvaluatorRules.HighIncomeAccepted` | CreditCardApplications/CreditCardApplicationEvaluator.cs:28-31 | the decision is `AutoAccepted` if and only if the application is not flagged and its income is at least 100,000 (bound included) |
| `EvaluatorRules.DecidedBeforeValidation` | CreditCardApplications/CreditCardApplicationEvaluator.cs:23-37 | when the fraud, income or licence rule returns, the decision is the same for every validity outcome: the check is not needed |
| `EvaluatorRules.ExpiredLicenseReferred` | CreditCardApplications/CreditCardApplicationEvaluator.cs:34-37 | not flagged, income below 100,000 and licence key exactly "EXPIRED": referred, and validation is not reached |
| `EvaluatorRules.ModeForDetailedExactlyFromThirty` | CreditCardApplications/CreditCardApplicationEvaluator.cs:40-42 | the mode is `Detailed` if and only if the age is at least 30, and `Quick` if and only if it is below 30 |
| `EvaluatorRules.InvalidOrFailedNumberReferred` | CreditCardApplications/CreditCardApplicationEvaluator.cs:46-58 | once validation is reached, a failed check or a check returning false gives `ReferredToHuman` |
| `EvaluatorRules.ValidNumberDecision` | CreditCardApplications/CreditCardApplicationEvaluator.cs:60-70 | once the number is valid: age 20 or less is referred; older with income below 20,000 is declined; older with income of at least 20,000 is referred |
| `EvaluatorRules.AutoDeclinedExactly` | CreditCardApplications/CreditCardApplicationEvaluator.cs:23-68 | `AutoDeclined` if and only if not flagged, income below 20,000, licence not "EXPIRED", the check returned true and age above 20 |
| `FraudLookups.StandardFlagsExactlySmith` | CreditCardApplications/FraudLookup.cs:10-18 | the standard lookup flags an application if and only if its last name is "Smith" |
| `FraudLookups.StandardIgnoresNearMisses` | CreditCardApplications/FraudLookup.cs:12 | case variants, padded or truncated names and the empty name are not flagged: the match is exact |
| `FraudLookups.OverrideDeterminesRisk` | CreditCardApplications/FraudLookup.cs:7-10 | with a replaced hook, `IsFraudRisk` is exactly that hook |
| `FraudLookups.AlwaysTrueHookFlagsEverything` | CreditCardApplications/FraudLookup.cs:7-10 | a hook that always answers true flags every application |
| `Scenarios.AcceptHighIncomeApplications` | CreditCardApplications.Test/CreditCardApplicationEvaluatorShould.cs:26-37 | income exactly 100,000 is `AutoAccepted` |
| `Scenarios.ReferYoungApplications` | CreditCardApplications.Test/CreditCardApplicationEvaluatorShould.cs:40-51 | age 19 with a valid number is `ReferredToHuman` |
| `Scenarios.DeclineLowIncomeApplications` | CreditCardApplications.Test/CreditCardApplicationEvaluatorShould.cs:53-83 | income 19,999, age 42, number "s" accepted by the check: `AutoDeclined` |
| `Scenarios.ReferWhenLicenseKeyExpired` | CreditCardApplications.Test/CreditCardApplicationEvaluatorShould.cs:85-99 | an expired licence gives `ReferredToHuman`, the mode keeps its initial value and the check is never called |
| `Scenarios.UseDetailedLookupForOlderApplications` | CreditCardApplications/CreditCardApplicationEvaluator.cs:40-42 | with a valid licence, the mode after evaluating an applicant of 30 is `Detailed`, and after one of 25 it is `Quick`, whatever it was before |
| `Scenarios.ShouldValidateFrequentFlyerNumberForLowIncomeApplications` | CreditCardApplications.Test/CreditCardApplicationEvaluatorShould.cs:116-128 | the check is called once, with the number "q1" itself, and never with "q" |
| `Scenarios.ReferWhenFrequentFlyerValidationError` | CreditCardApplications.Test/CreditCardApplicationEvaluatorShould.cs:131-151 | a check that fails on every number gives `ReferredToHuman` for age 42 |
| `Scenarios.ReferInvalidFrequentFlyerApplicationsSequence` | CreditCardApplications.Test/CreditCardApplicationEvaluatorShould.cs:154-171 | with a check scripted false then true, the same age-25 application is first `ReferredToHuman`, then `AutoDeclined` |
| `Scenarios.ReferFraudRisk` | CreditCardApplications.Test/CreditCardApplicationEvaluatorShould.cs:173-195 | a lookup whose hook always answers true gives `ReferredToHumanFraudRisk`, and the validator's check is not called |
| `Scenarios.LinqToMocks` | CreditCardApplications.Test/CreditCardApplicationEvaluatorShould.cs:197-216 | licence "OK" and a check accepting every number: an applicant of 25 with no income is `AutoDeclined` |
| `Scenarios.StandardLookupScreensSmith` | CreditCardApplications/FraudLookup.cs:10-18 | an evaluator with the standard lookup gives `ReferredToHumanFraudRisk` if and only if the last name is "Smith" |
| `Scenarios.OverriddenLookupScreensByHook` | CreditCardApplications/FraudLookup.cs:5-10 | for every hook and application, an evaluator whose lookup has that hook gives `ReferredToHumanFraudRisk` if and only if the hook flags the application |
| `Scenarios.ModeIsSetBeforeTheCheck` | CreditCardApplications/CreditCardApplicationEvaluator.cs:40-48 | a check that accepts only in detailed mode, on a validator that starts in quick mode, accepts for an applicant of 42, who is then `AutoDeclined`; the mode afterwards is `Detailed` |
| `Scenarios.EvaluateTwice` | CreditCardApplications/CreditCardApplicationEvaluator.cs:5-6 | with a validator that has no scripted outcomes, evaluating an application twice gives the same decision and leaves the same mode: the evaluator keeps no state of its own |

`Decide`, `ModeFor`, `ReachesValidation`, `FraudLookup.CheckApplication` and
`FraudLookup.IsFraudRisk` are the specification functions. They have no contracts of
their own; the lemmas above state what they mean.

- The evaluator never checks the sign of the income, so `grossAnnualIncome` is any `int`.
- The licence key is compared with C# `==`, under which a null key is not `"EXPIRED"`;
  Dafny strings cannot be null.

## Left out

- The mocking library (`Mock`, `SetupSequence`, `Protected()`, `Verify`, `Mock.Of`). Its
  stand-ins are replaced by the scripted validator and the `Overridden` lookup. `Verify`
  becomes the validator's call log.
- The test at CreditCardApplications.Test/CreditCardApplicationEvaluatorShould.cs:102-114
  sets the licence to "EXPIRED" and expects `Detailed` afterwards. On that path the
  evaluator never writes the mode. Whether the test passes depends on the mode's
  initial value, which comes from an enumeration declaration that is not part of this
  model. The model takes the initial mode as a parameter. `ReferWhenLicenseKeyExpired`
  proves the mode is left as it was. `UseDetailedLookupForOlderApplications` proves the
  age rule on a valid licence instead.
- Exceptions: the validator's failure is the `Failed` outcome. The constructor's
  `ArgumentNullException` is the precondition `numberValidator != null`.
- An exception from the fraud lookup's hook is not modelled: the hook is a total
  function. In the source only the validity check is inside the try/catch, so such an
  exception propagates out of `Evaluate`.
- What real validators do. The `IFrequentFlyerNumberValidator` interface, the service
  information and the licence types are not part of this model. The validator is an
  abstract collaborator with a script of outcomes and a fixed per-number answer.
- Decimal income: income is modelled as an integer, and every threshold is an integer.
- Concurrent use of one validator by several evaluations.
- C# null strings in the application record: a field left unset is the empty string.
