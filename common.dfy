/** Failure values shared by the engine model: the exceptions that
    `alloydb_engine.py` raises, and the Option/Result wrappers that carry them. */
module Common {

  datatype Option<+T> = None | Some(value: T)

  /** The errors the engine raises before touching the network or the database. */
  datatype Error =
    | CredentialsMismatch     // only one of user / password given
    | UnknownIpType           // ip_type string is neither public nor private
    | NoPrincipalEmail        // token info carried no `email` field
    | EngineInitializedAsync  // run_as_sync on an engine built without a loop

  datatype Result<+T> = Ok(value: T) | Err(error: Error)

  /** The message text each error is raised with. */
  function ErrorMessage(e: Error): string
  {
    match e
    case CredentialsMismatch =>
      "Only one of 'user' or 'password' were specified. Either "
      + "both should be specified to use basic user/password "
      + "authentication or neither for IAM DB authentication."
    case UnknownIpType => "ip_type is not one of: public, private."
    case NoPrincipalEmail =>
      "Failed to automatically obtain authenticated IAM principal's "
      + "email address using environment's ADC credentials!"
    case EngineInitializedAsync => "Engine was initialized async."
  }
}
