/** The authentication error page: the message for an error key, with a default for the rest. */
module AuthError {
  import opened Wrappers

  const ConfigurationMessage := "There is a problem with the server configuration."
  const AccessDeniedMessage := "Access denied. You do not have permission to sign in."
  const VerificationMessage := "The verification token has expired or has already been used."
  const DefaultMessage := "An error occurred during authentication."

  /** The `errors` table. */
  const Errors: map<string, string> := map[
    "Configuration" := ConfigurationMessage,
    "AccessDenied" := AccessDeniedMessage,
    "Verification" := VerificationMessage,
    "Default" := DefaultMessage
  ]

  /** `getServerSideProps`: the query's `error`, or null when it is missing or empty. */
  function ErrorProp(query: Option<string>): (r: Option<string>)
    ensures r.Some? <==> Truthy(query)
    ensures r.Some? ==> r == query
  {
    if Truthy(query) then query else None
  }

  /**
   * `errors[error || 'Default'] || errors.Default`: a known key selects its own
   * message, anything else (missing, empty or unknown) the default; the result
   * is always one of the table's messages.
   */
  function ErrorMessage(error: Option<string>): (m: string)
    ensures m in Errors.Values
    ensures !Truthy(error) ==> m == DefaultMessage
    ensures Truthy(error) && error.value in Errors ==> m == Errors[error.value]
    ensures Truthy(error) && error.value !in Errors ==> m == DefaultMessage
  {
    var errorType := if Truthy(error) then error.value else "Default";
    var found := if errorType in Errors then Errors[errorType] else "";
    assert Errors["Default"] == DefaultMessage;
    if found != "" then found else Errors["Default"]
  }

  /** The page shows the same message whether it reads the raw query or the prop built from it. */
  lemma PropPreservesMessage(query: Option<string>)
    ensures ErrorMessage(ErrorProp(query)) == ErrorMessage(query)
  {
  }

  /** The four messages are pairwise different, so each key is told apart by its message. */
  lemma KnownKeysAreNotDefault()
    ensures forall k :: k in Errors && k != "Default" ==> Errors[k] != DefaultMessage
    ensures ConfigurationMessage != AccessDeniedMessage && AccessDeniedMessage != VerificationMessage && VerificationMessage != ConfigurationMessage
  {
    assert |ConfigurationMessage| == 49 && |AccessDeniedMessage| == 53;
    assert |VerificationMessage| == 60 && |DefaultMessage| == 40;
  }
}
