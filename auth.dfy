/**
 * The signed-in identity as the components see it. The identity provider
 * itself (sign-in, sign-up, sign-out, resending the confirmation mail) is
 * outside the model; its answers reach the components as parameters.
 */
module Auth {
  import opened Wrappers
  import opened Text

  type UserId = string

  /** A signed-in account: its id, its email and the time its email was confirmed, if it was. */
  datatype User = User(id: UserId, email: string, emailConfirmedAt: Option<string>)

  /** `isConfirmed`: a user is present and its `email_confirmed_at` is set. */
  predicate IsConfirmed(user: Option<User>)
  {
    user.Some? && Truthy(user.value.emailConfirmedAt)
  }

  /** A user is present whose email is not confirmed yet. */
  predicate IsUnconfirmed(user: Option<User>)
  {
    user.Some? && !IsConfirmed(user)
  }
}
