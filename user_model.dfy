/**
 * The user record of the voting server: its fields, the rules the schema enforces when a
 * record is created or saved (required fields, the role enum, defaults), the pre-save hook
 * that hashes the password, and `comparePassword`.
 *
 * bcrypt stays abstract: `hash` is a function the caller supplies, and a stored password
 * matches a candidate password when hashing the candidate gives the stored value.
 */
module UserModel {
  import opened Wrappers

  type UserId = nat

  /** The values the `role` enum admits, and its default. */
  const VoterRole := "voter"
  const AdminRole := "admin"

  predicate IsRole(r: string) { r == VoterRole || r == AdminRole }

  /** A stored user document. `password` holds the hash once the record has been saved. */
  datatype User = User(
    name: string,
    age: int,
    email: Option<string>,
    mobile: Option<string>,
    address: string,
    aadharCardNumber: int,
    password: string,
    role: string,
    isVoted: bool)

  /**
   * The request body a new user document is built from. `None` is a field the body does
   * not carry (or, for a Number field, one that cannot be cast to a number).
   */
  datatype UserDraft = UserDraft(
    name: Option<string>,
    age: Option<int>,
    email: Option<string>,
    mobile: Option<string>,
    address: Option<string>,
    aadharCardNumber: Option<int>,
    password: Option<string>,
    role: Option<string>,
    isVoted: Option<bool>)

  /** A required String path rejects a missing value and the empty string. */
  predicate RequiredString(s: Option<string>) { s.Some? && s.value != "" }

  /** The schema's validation of a new document: required paths present, role in the enum. */
  predicate Validates(d: UserDraft)
  {
    && RequiredString(d.name)
    && d.age.Some?
    && RequiredString(d.address)
    && d.aadharCardNumber.Some?
    && RequiredString(d.password)
    && (d.role.None? || IsRole(d.role.value))
  }

  /** The document `new user(d)` builds: the body's fields, with the schema defaults filled in. */
  function FromDraft(d: UserDraft): (u: User)
    requires Validates(d)
    ensures IsRole(u.role)
  {
    User(d.name.value, d.age.value, d.email, d.mobile, d.address.value,
         d.aadharCardNumber.value, d.password.value,
         d.role.GetOr(VoterRole), d.isVoted.GetOr(false))
  }

  /**
   * The `pre('save')` hook: when the password path was modified (which a new document's
   * always is), replace the plain password by its hash; otherwise leave the record alone.
   */
  function PreSave(u: User, passwordModified: bool, hash: string -> string): (r: User)
  {
    if passwordModified then u.(password := hash(u.password)) else u
  }

  /** `comparePassword(candidate)`: bcrypt's comparison of a plain password with the stored hash. */
  predicate ComparePassword(u: User, candidate: string, hash: string -> string)
  {
    hash(candidate) == u.password
  }

  /**
   * Saving a new document: validation first, then the pre-save hook. `None` is the
   * validation error the save rejects with.
   */
  function CreateUser(d: UserDraft, hash: string -> string): (r: Option<User>)
    ensures r.Some? <==> Validates(d)
    ensures r.Some? ==> IsRole(r.value.role)
  {
    if Validates(d) then Some(PreSave(FromDraft(d), true, hash)) else None
  }

  /**
   * What a created user holds: every field from the body, the stored password the hash of
   * the plain one, `role` defaulting to voter and `isVoted` to false.
   */
  lemma CreatedUser(d: UserDraft, hash: string -> string)
    requires Validates(d)
    ensures CreateUser(d, hash).Some?
    ensures var u := CreateUser(d, hash).value;
      && u.name == d.name.value && u.age == d.age.value && u.email == d.email
      && u.mobile == d.mobile && u.address == d.address.value
      && u.aadharCardNumber == d.aadharCardNumber.value
      && u.password == hash(d.password.value)
      && (d.role.None? ==> u.role == VoterRole) && (d.role.Some? ==> u.role == d.role.value)
      && u.isVoted == (d.isVoted == Some(true))
  {
  }

  /** A body that lacks a required field, or names a role outside the enum, creates nothing. */
  lemma CreateRejects(d: UserDraft, hash: string -> string)
    requires || !RequiredString(d.name) || d.age.None? || !RequiredString(d.address)
             || d.aadharCardNumber.None? || !RequiredString(d.password)
             || (d.role.Some? && d.role.value != VoterRole && d.role.value != AdminRole)
    ensures CreateUser(d, hash).None?
  {
  }

  /** The plain password a user signed up with matches the record that was stored. */
  lemma CreatedUserAcceptsItsPassword(d: UserDraft, hash: string -> string)
    requires Validates(d)
    ensures CreateUser(d, hash).Some?
    ensures ComparePassword(CreateUser(d, hash).value, d.password.value, hash)
  {
  }

  /**
   * Saving a record whose password was not modified (the `isVoted` save of the vote handler)
   * keeps the stored hash, so a password that matched before still matches: no double hashing.
   */
  lemma SaveWithoutPasswordChange(u: User, p: string, hash: string -> string)
    ensures PreSave(u, false, hash) == u
    ensures ComparePassword(u, p, hash) ==> ComparePassword(PreSave(u, false, hash), p, hash)
  {
  }

  /**
   * Assigning a new plain password and saving stores its hash; the new password then
   * matches, and every other field is what it was.
   */
  lemma SaveWithNewPassword(u: User, p: string, hash: string -> string)
    ensures var r := PreSave(u.(password := p), true, hash);
      && r.password == hash(p) && ComparePassword(r, p, hash)
      && r.(password := u.password) == u
  {
  }
}
