/**
 * The user routes of the voting server as functions from the database before a request to
 * the reply and the database after it: signup, login, profile and change-password. The
 * bearer-token middleware is not part of this model: the protected routes receive the id
 * the token carries.
 *
 * Login, profile and change-password each declare a local `const user` that shadows the
 * imported model, and read that local inside its own initialiser. JavaScript throws a
 * ReferenceError there, so as written those three handlers always answer from their
 * `catch` block. The `...AsWritten` functions state that behaviour; the unsuffixed ones
 * state the decision logic the handlers spell out, which the store runs.
 */
module UserRoutes {
  import opened Wrappers
  import opened UserModel
  import opened Sums
  import opened Database

  const InvalidCredentials := Reply(401, Error("Invalid username or password"))

  /**
   * `findOne({ aadharCardNumber: a })` over the ids from `k` up to `n`: the lowest id whose
   * user has that Aadhaar number, if any.
   */
  function FindFrom(users: map<UserId, User>, a: int, k: nat, n: nat): (r: Option<UserId>)
    decreases n - k
    ensures r.Some? ==> k <= r.value < n && r.value in users && users[r.value].aadharCardNumber == a
    ensures r.Some? ==> forall j :: k <= j < r.value && j in users ==> users[j].aadharCardNumber != a
    ensures r.None? <==> forall j :: k <= j < n && j in users ==> users[j].aadharCardNumber != a
  {
    if k >= n then None
    else if k in users && users[k].aadharCardNumber == a then Some(k)
    else FindFrom(users, a, k + 1, n)
  }

  function FindByAadhaar(db: Db, a: int): (r: Option<UserId>)
    ensures r.Some? ==> r.value in db.users && db.users[r.value].aadharCardNumber == a
    ensures r.None? <==> forall j :: j < db.nextUser && j in db.users ==> db.users[j].aadharCardNumber != a
  {
    FindFrom(db.users, a, 0, db.nextUser)
  }

  /**
   * POST `/signup`: build the user from the body and save it; the reply carries the stored
   * user and a token whose payload is the new id alone. A validation error, or a duplicate
   * Aadhaar number caught by the unique index, answers 500 and stores nothing.
   */
  function Signup(db: Db, d: UserDraft, hash: string -> string): (r: Outcome)
    ensures r.reply.status in {201, 500}
    ensures r.reply.status != 201 ==> r.db == db
    ensures r.db.candidates == db.candidates
  {
    match CreateUser(d, hash)
    case None => Outcome(Reply(500, Error("internal server error")), db)
    case Some(u) =>
      if FindByAadhaar(db, u.aadharCardNumber).Some? then
        Outcome(Reply(500, Error("internal server error")), db)
      else
        Outcome(Reply(201, SignupBody(u, Token(db.nextUser))),
                db.(users := db.users[db.nextUser := u], nextUser := db.nextUser + 1))
  }

  /** POST `/login`: one refusal for an unknown Aadhaar number and for a wrong password alike. */
  function Login(db: Db, a: int, password: string, hash: string -> string): (r: Outcome)
    ensures r.db == db
    ensures r.reply.status == 200 || r.reply == InvalidCredentials
  {
    match FindByAadhaar(db, a)
    case None => Outcome(InvalidCredentials, db)
    case Some(id) =>
      if !ComparePassword(db.users[id], password, hash) then Outcome(InvalidCredentials, db)
      else Outcome(Reply(200, TokenBody(Token(id))), db)
  }

  /** GET `/profile`: the user the token names, or `null` when there is none. */
  function Profile(db: Db, id: UserId): (r: Outcome)
    ensures r.db == db && r.reply.status == 200 && r.reply.body.ProfileBody?
    ensures r.reply.body.profile.Some? <==> id in db.users
  {
    Outcome(Reply(200, ProfileBody(if id in db.users then Some(db.users[id]) else None)), db)
  }

  /**
   * PUT `/profile/password`: check the current password, assign the new one and save. A
   * missing user makes `user.comparePassword` throw (500); an empty new password fails the
   * required rule on save (500). The save hashes the new password when it differs from the
   * value stored, which is when the path counts as modified.
   */
  function ChangePassword(db: Db, id: UserId, current: string, newPassword: string, hash: string -> string): (r: Outcome)
    ensures r.reply.status in {200, 401, 500}
    ensures r.reply.status != 200 ==> r.db == db
    ensures r.db.candidates == db.candidates && r.db.users.Keys == db.users.Keys
  {
    if id !in db.users then Outcome(Reply(500, Error("internal server error")), db)
    else
      var u := db.users[id];
      if !ComparePassword(u, current, hash) then Outcome(InvalidCredentials, db)
      else if newPassword == "" then Outcome(Reply(500, Error("internal server error")), db)
      else
        Outcome(Reply(200, Message("password updated")),
                db.(users := db.users[id := PreSave(u.(password := newPassword), newPassword != u.password, hash)]))
  }

  /** Login as written: reading the shadowing `user` before its initialisation throws. */
  function LoginAsWritten(db: Db, a: int, password: string, hash: string -> string): Outcome
  {
    Outcome(Reply(500, Error("internal serval error")), db)
  }

  /** Profile as written: the same ReferenceError, answered from its `catch`. */
  function ProfileAsWritten(db: Db, id: UserId): Outcome
  {
    Outcome(Reply(500, Error("internal serval error")), db)
  }

  /** Change-password as written: the same ReferenceError, answered from its `catch`. */
  function ChangePasswordAsWritten(db: Db, id: UserId, current: string, newPassword: string, hash: string -> string): Outcome
  {
    Outcome(Reply(500, Error("internal server error")), db)
  }

  // ---------------------------------------------------------------------------

  /** In a well-formed database the user `findOne` returns is the only one with that number. */
  lemma FoundUserIsUnique(db: Db, a: int)
    requires WellFormed(db)
    ensures FindByAadhaar(db, a).None? <==> forall id :: id in db.users ==> db.users[id].aadharCardNumber != a
    ensures FindByAadhaar(db, a).Some? ==>
      forall id :: id in db.users && db.users[id].aadharCardNumber == a ==> id == FindByAadhaar(db, a).value
  {
  }

  /**
   * Signup succeeds exactly when the body validates and its Aadhaar number is new; it then
   * inserts one user (the one the body describes) under a fresh id, the token carries that
   * id, and nothing else changes. Otherwise it answers 500 and stores nothing.
   */
  lemma SignupInsertsOne(db: Db, d: UserDraft, hash: string -> string)
    requires WellFormed(db)
    ensures var o := Signup(db, d, hash);
      && (o.reply.status == 201 <==>
            UserModel.Validates(d)
            && forall id :: id in db.users ==> db.users[id].aadharCardNumber != d.aadharCardNumber.value)
      && (o.reply.status != 201 ==> o == Outcome(Reply(500, Error("internal server error")), db))
      && (o.reply.status == 201 ==>
            && db.nextUser !in db.users
            && o.reply.body == SignupBody(CreateUser(d, hash).value, Token(db.nextUser))
            && o.db == db.(users := db.users[db.nextUser := CreateUser(d, hash).value],
                           nextUser := db.nextUser + 1))
  {
  }

  lemma SignupKeepsWellFormed(db: Db, d: UserDraft, hash: string -> string)
    requires WellFormed(db)
    ensures WellFormed(Signup(db, d, hash).db)
  {
  }

  /**
   * The body of a signup may set `isVoted`: a new user who arrives already marked as having
   * voted breaks the ballot, every other signup keeps it consistent.
   */
  lemma SignupConsistency(db: Db, d: UserDraft, hash: string -> string)
    requires Consistent(db)
    requires Signup(db, d, hash).reply.status == 201
    ensures Consistent(Signup(db, d, hash).db) <==> d.isVoted != Some(true)
  {
    var u := CreateUser(d, hash).value;
    var db' := Signup(db, d, hash).db;
    var k := db.nextUser;
    assert db'.users == db.users[k := u];
    TotalUpdate(db.users, k, k, u, VotedFlag);
    assert VotedUsers(db') == VotedUsers(db) + VotedFlag(u);
    if d.isVoted != Some(true) {
      forall uid: UserId ensures Ballots(db', uid) == if uid in db'.users && db'.users[uid].isVoted then 1 else 0 {
        assert Ballots(db', uid) == Ballots(db, uid);
      }
    } else {
      assert db'.users[k].isVoted;
    }
  }

  /**
   * Login never changes the database, succeeds exactly when some user has the Aadhaar
   * number and the password matches, and gives the same 401 for an unknown number and for
   * a wrong password.
   */
  lemma LoginSameRefusal(db: Db, a: int, password: string, hash: string -> string)
    requires WellFormed(db)
    ensures var o := Login(db, a, password, hash);
      && o.db == db
      && (o.reply.status == 200 <==>
            exists id :: id in db.users && db.users[id].aadharCardNumber == a
                         && ComparePassword(db.users[id], password, hash))
      && (o.reply.status != 200 ==> o.reply == InvalidCredentials)
  {
    var o := Login(db, a, password, hash);
    if o.reply.status != 200 {
      FoundUserIsUnique(db, a);
    }
  }

  /** The token login issues names the user with that Aadhaar number, and carries nothing else. */
  lemma LoginToken(db: Db, a: int, password: string, hash: string -> string)
    requires Login(db, a, password, hash).reply.status == 200
    ensures var id := Login(db, a, password, hash).reply.body.token.id;
      id in db.users && db.users[id].aadharCardNumber == a && ComparePassword(db.users[id], password, hash)
  {
  }

  /** A wrong current password is refused with 401 and the stored hash stays as it was. */
  lemma ChangePasswordWrongCurrent(db: Db, id: UserId, current: string, newPassword: string, hash: string -> string)
    requires id in db.users && !ComparePassword(db.users[id], current, hash)
    ensures ChangePassword(db, id, current, newPassword, hash) == Outcome(InvalidCredentials, db)
  {
  }

  /**
   * A successful change stores the hash of the new password, which then matches; the old
   * one no longer does unless it hashes to the same value. No other field and no other
   * user changes.
   */
  lemma ChangePasswordEffect(db: Db, id: UserId, current: string, newPassword: string, hash: string -> string)
    requires ChangePassword(db, id, current, newPassword, hash).reply.status == 200
    requires newPassword != db.users[id].password
    ensures var db' := ChangePassword(db, id, current, newPassword, hash).db;
      && db'.users.Keys == db.users.Keys
      && db'.users[id].password == hash(newPassword)
      && ComparePassword(db'.users[id], newPassword, hash)
      && (ComparePassword(db'.users[id], current, hash) <==> hash(current) == hash(newPassword))
      && db'.users[id].(password := db.users[id].password) == db.users[id]
      && (forall j :: j in db.users && j != id ==> db'.users[j] == db.users[j])
      && db'.candidates == db.candidates
  {
  }

  lemma ChangePasswordKeepsConsistency(db: Db, id: UserId, current: string, newPassword: string, hash: string -> string)
    requires Consistent(db)
    ensures Consistent(ChangePassword(db, id, current, newPassword, hash).db)
  {
    var o := ChangePassword(db, id, current, newPassword, hash);
    if o.reply.status == 200 {
      var u' := o.db.users[id];
      TotalUpdate(db.users, db.nextUser, id, u', VotedFlag);
    }
  }

  /**
   * As written, the handlers that shadow the model answer 500 to every request, the ones the
   * intended logic accepts included, and change nothing.
   */
  lemma ShadowingRefusesEverything(db: Db, a: int, id: UserId, current: string, newPassword: string, hash: string -> string)
    ensures Login(db, a, current, hash).reply.status == 200 ==>
      LoginAsWritten(db, a, current, hash) == Outcome(Reply(500, Error("internal serval error")), db)
    ensures Profile(db, id).reply.status == 200 && ProfileAsWritten(db, id).reply.status == 500
    ensures ChangePassword(db, id, current, newPassword, hash).reply.status == 200 ==>
      ChangePasswordAsWritten(db, id, current, newPassword, hash).reply.status == 500
      && ChangePasswordAsWritten(db, id, current, newPassword, hash).db == db
  {
  }

  /** A concrete request the shadowing breaks: a user logging in with the password they signed up with. */
  lemma ShadowingBreaksLogin(hash: string -> string)
    ensures var u := User("V", 30, None, None, "A", 111122223333, hash("secret"), VoterRole, false);
      var db := Db(map[0 := u], map[], 1, 0);
      && Login(db, 111122223333, "secret", hash) == Outcome(Reply(200, TokenBody(Token(0))), db)
      && LoginAsWritten(db, 111122223333, "secret", hash).reply.status == 500
  {
  }
}
