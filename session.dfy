/** The signed-in user as the routes see it: the result of `auth()`. */
module Sessions {

  /** The roles a user may have. */
  datatype Role = Candidate | Employer | Admin

  /** `session.user`: the user's id and role. */
  datatype Session = Session(userId: string, role: Role)
}
