/**
 * The identity the authentication middleware attaches to a request. The middleware
 * itself (token verification) is outside the model: a request either carries a
 * trusted caller or none at all.
 */
module Auth {

  type UserId = nat

  /** The two roles a user account can hold. */
  datatype Role = Employee | Admin

  datatype Caller = Caller(id: UserId, role: Role)
}
