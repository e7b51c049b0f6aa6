/** Optional values and the outcome of an operation that may throw. */
module Wrappers {

  datatype Option<+T> = None | Some(value: T)

  /** The exceptions the walkthrough can end with. None of them is caught by the
      walkthrough itself: each one aborts it and reaches its caller. */
  datatype Failure =
    | PromptFailed        // the ask collaborator had no answer to give (or threw)
    | TypeError           // a property or method used on a value that lacks it
    | SyntaxError         // JSON.parse given text it cannot read
    | CollaboratorFailed  // the trigger-provisioning collaborator threw

  datatype Result<+T> = Ok(value: T) | Err(error: Failure) {
    predicate IsFailure() { Err? }

    function PropagateFailure<U>(): Result<U>
      requires Err?
    {
      Err(error)
    }

    function Extract(): T
      requires Ok?
    {
      value
    }
  }
}
