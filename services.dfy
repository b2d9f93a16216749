/** The collaborators the handlers call but whose code is not part of this model:
    the email and date-time validators of the schema library, password hashing and
    comparison, and token signing and verification. They are passed to the handlers
    as one value instead of being reached through a shared application object. */
module Services {
  import opened Wrappers
  import opened UserModel

  /** The claims of a token, and the identity attached to an authenticated request:
      exactly `{userId, role}`. */
  datatype Identity = Identity(userId: Id, role: Role)

  datatype Env = Env(
    /** `z.string().email()` on a string. */
    isEmail: string -> bool,
    /** `z.string().datetime()` followed by `new Date(...)`: the instant, or None when
        the string is not an ISO date-time. */
    parseDateTime: string -> Option<int>,
    /** `bcrypt.hash(password, 10)`. */
    hash: string -> string,
    /** `bcrypt.compare(password, passwordHash)`. */
    matches: (string, string) -> bool,
    /** `signToken(payload)`: a token carrying the payload. */
    sign: Identity -> string,
    /** Token verification: the payload, or None where verification throws. */
    verify: string -> Option<Identity>)

  /** What password hashing promises: a password matches its own hash. */
  ghost predicate HashSound(env: Env) {
    forall p :: env.matches(p, env.hash(p))
  }

  /** What token signing promises while a token is valid: verifying a token
      gives back the payload it was signed for. */
  ghost predicate TokensSound(env: Env) {
    forall id :: env.verify(env.sign(id)) == Some(id)
  }
}
