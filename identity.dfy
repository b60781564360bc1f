/**
 * The external identity provider, reduced to what the application relies
 * on: each call either succeeds or fails with an optional message, and the
 * provider records which calls it received. The provider's answer is a
 * parameter of each call, since its behaviour is not part of this system.
 */
module Identity {
  import opened Wrappers

  /** An authenticated identity as mirrored from the provider. */
  datatype User = User(uid: string, email: string)

  /** A rejection from the provider; `message` is absent when it gave none. */
  datatype AuthError = AuthError(message: Option<string>)

  /** What an awaited provider call settles to: resolved, or rejected with an error. */
  datatype Outcome = Ok | Fail(error: AuthError)

  /** A request the application sent to the provider. */
  datatype Call =
    | SignInCall(email: string, password: string)
    | SignUpCall(email: string, password: string)
    | SignOutCall

  class IdentityProvider {
    /** Every request received so far, oldest first. */
    var calls: seq<Call>

    constructor ()
      ensures calls == []
    {
      calls := [];
    }

    method SignInWithEmailAndPassword(email: string, password: string, answer: Outcome) returns (r: Outcome)
      modifies this
      ensures calls == old(calls) + [SignInCall(email, password)]
      ensures r == answer
    {
      calls := calls + [SignInCall(email, password)];
      r := answer;
    }

    method CreateUserWithEmailAndPassword(email: string, password: string, answer: Outcome) returns (r: Outcome)
      modifies this
      ensures calls == old(calls) + [SignUpCall(email, password)]
      ensures r == answer
    {
      calls := calls + [SignUpCall(email, password)];
      r := answer;
    }

    method SignOut(answer: Outcome) returns (r: Outcome)
      modifies this
      ensures calls == old(calls) + [SignOutCall]
      ensures r == answer
    {
      calls := calls + [SignOutCall];
      r := answer;
    }
  }
}
