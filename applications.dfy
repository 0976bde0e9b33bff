/** The records and enumerations the evaluator works on. The source does not show
    their declarations; they are given the shape the evaluator and its tests use. */
module Applications {

  /** The conventional optional value, used for the optional fraud lookup. */
  datatype Option<+T> = None | Some(value: T)

  /** A credit-card application. Income is a whole number of currency units:
      every threshold the evaluator compares it with is a whole number. */
  datatype Application = Application(
    lastName: string,
    grossAnnualIncome: int,
    age: int,
    frequentFlyerNumber: string)

  /** The application a test builds with an object initialiser before it sets
      any field: numbers are 0, and the strings (null there) are empty here. */
  function BlankApplication(): Application
  {
    Application("", 0, 0, "")
  }

  datatype Decision =
    | AutoAccepted
    | AutoDeclined
    | ReferredToHuman
    | ReferredToHumanFraudRisk

  /** The hint the evaluator gives the frequent-flyer number validator. */
  datatype ValidationMode = Quick | Detailed

  /** What one call of the validator's validity check produces: a Boolean, or
      a failure (a thrown exception of any kind). */
  datatype ValidityOutcome = Returned(valid: bool) | Failed
}
