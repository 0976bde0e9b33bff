/** The fraud-screening policy the evaluator consults. The public check
    `IsFraudRisk` only delegates to the overridable hook `CheckApplication`;
    a lookup is either the standard one, whose hook flags the last name
    "Smith", or one whose hook has been replaced. */
module FraudLookups {
  import opened Applications

  /** The last name the standard hook treats as a fraud risk. */
  const FlaggedLastName: string := "Smith"

  datatype FraudLookup =
    | Standard
    | Overridden(hook: Application -> bool)
  {
    /** The overridable hook. */
    predicate CheckApplication(application: Application)
    {
      match this
      case Standard => application.lastName == FlaggedLastName
      case Overridden(hook) => hook(application)
    }

    /** The check the evaluator calls. */
    predicate IsFraudRisk(application: Application)
    {
      CheckApplication(application)
    }
  }

  /** The standard lookup flags an application exactly when its last name is "Smith". */
  lemma StandardFlagsExactlySmith(application: Application)
    ensures Standard.IsFraudRisk(application) <==> application.lastName == "Smith"
  {
  }

  /** The comparison is exact: case variants, a padded name and the empty name
      are not fraud risks under the standard lookup. */
  lemma StandardIgnoresNearMisses(application: Application)
    requires application.lastName in ["smith", "SMITH", "Smith ", " Smith", "Smit", ""]
    ensures !Standard.IsFraudRisk(application)
  {
  }

  /** Replacing the hook fully determines `IsFraudRisk`. */
  lemma OverrideDeterminesRisk(hook: Application -> bool, application: Application)
    ensures Overridden(hook).IsFraudRisk(application) == hook(application)
  {
  }

  /** A hook that always answers true makes every application a fraud risk. */
  lemma AlwaysTrueHookFlagsEverything(application: Application)
    ensures Overridden(_ => true).IsFraudRisk(application)
  {
  }
}
