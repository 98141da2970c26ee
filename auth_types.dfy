/** The records exchanged with the backend's authentication endpoints. */
module AuthTypes {

  /** The two roles an account can have. */
  datatype UserRole = Admin | Student

  /** The signed-in user as the backend describes it. */
  datatype AuthUser = AuthUser(id: int, fullName: string, email: string, role: UserRole)

  /** The body of a successful login or registration: a bearer token and its user. */
  datatype AuthResponse = AuthResponse(token: string, user: AuthUser)
}
