/**
 * The server as a store object: the users and candidates collections, the id counters and
 * the password hash, with one method per route. Each method changes the collections step
 * by step, as the route handler does to its documents, and is proved to leave the store
 * and answer exactly as the route's function in CandidateRoutes or UserRoutes says.
 */
module Server {
  import opened Wrappers
  import opened UserModel
  import opened CandidateModel
  import opened Database
  import CandidateRoutes
  import UserRoutes
  import Sums

  class VotingStore {
    /** bcrypt, abstracted to a function from a plain password to the stored value. */
    const hash: string -> string
    var users: map<UserId, User>
    var candidates: map<CandidateId, Candidate>
    var nextUser: nat
    var nextCandidate: nat

    function State(): Db
      reads this
    {
      Db(users, candidates, nextUser, nextCandidate)
    }

    ghost predicate Valid()
      reads this
    {
      WellFormed(State())
    }

    constructor(hash: string -> string)
      ensures this.hash == hash && State() == EmptyDb && Valid()
    {
      this.hash := hash;
      users := map[];
      candidates := map[];
      nextUser := 0;
      nextCandidate := 0;
    }

    /** `checkAdminRole(id)`: true exactly for a stored user whose role is admin. */
    method CheckAdminRole(id: UserId) returns (isAdmin: bool)
      ensures isAdmin == CandidateRoutes.CheckAdminRole(State(), id)
      ensures isAdmin <==> id in users && users[id].role == AdminRole
    {
      isAdmin := false;
      if id in users {
        var user := users[id];
        if user.role == AdminRole {
          isAdmin := true;
        }
      }
    }

    /** POST `/candidate/`: an admin's valid body is saved under the next id. */
    method AddCandidate(caller: UserId, d: CandidateDraft) returns (reply: Reply)
      requires Valid()
      modifies this
      ensures Valid()
      ensures Outcome(reply, State()) == CandidateRoutes.AddCandidate(old(State()), caller, d)
    {
      CandidateRoutes.ManagementKeepsWellFormed(State(), caller, 0, d);
      var isAdmin := CheckAdminRole(caller);
      if !isAdmin {
        return CandidateRoutes.NotAdmin;
      }
      var created := CreateCandidate(d);
      if created.None? {
        return CandidateRoutes.InternalError;
      }
      var response := created.value;
      candidates := candidates[nextCandidate := response];
      nextCandidate := nextCandidate + 1;
      reply := Reply(201, CandidateBody(response));
    }

    /** PUT `/candidate/:candidateID`: validators, then the lookup, then the replacement. */
    method UpdateCandidate(caller: UserId, cid: CandidateId, d: CandidateDraft) returns (reply: Reply)
      requires Valid()
      modifies this
      ensures Valid()
      ensures Outcome(reply, State()) == CandidateRoutes.UpdateCandidate(old(State()), caller, cid, d)
    {
      CandidateRoutes.ManagementKeepsWellFormed(State(), caller, cid, d);
      var isAdmin := CheckAdminRole(caller);
      if !isAdmin {
        return CandidateRoutes.NotAdmin;
      }
      if !UpdateValidates(d) {
        return CandidateRoutes.InternalError;
      }
      if cid !in candidates {
        return CandidateRoutes.CandidateNotFound;
      }
      var response := ApplyUpdate(candidates[cid], d);
      candidates := candidates[cid := response];
      reply := Reply(200, CandidateBody(response));
    }

    /** DELETE `/candidate/:candidateID`: the document goes, with its vote records. */
    method DeleteCandidate(caller: UserId, cid: CandidateId) returns (reply: Reply)
      requires Valid()
      modifies this
      ensures Valid()
      ensures Outcome(reply, State()) == CandidateRoutes.DeleteCandidate(old(State()), caller, cid)
    {
      CandidateRoutes.ManagementKeepsWellFormed(State(), caller, cid, CandidateDraft(None, None, None, None));
      var isAdmin := CheckAdminRole(caller);
      if !isAdmin {
        return CandidateRoutes.NotAdmin;
      }
      if cid !in candidates {
        return CandidateRoutes.CandidateNotFound;
      }
      var response := candidates[cid];
      candidates := candidates - {cid};
      reply := Reply(200, CandidateBody(response));
    }

    /**
     * POST `/candidate/vote/:candidateID`, as written: four checks, then push one record
     * and increment the count on the candidate document and save it, then set `isVoted` on
     * the user document and save it (its password is not modified, so the pre-save hook
     * leaves the stored hash alone). A consistent ballot stays consistent.
     */
    method Vote(cid: CandidateId, uid: UserId, now: Time) returns (reply: Reply)
      requires Valid()
      modifies this
      ensures Valid()
      ensures Outcome(reply, State()) == CandidateRoutes.CastVote(old(State()), cid, uid, now)
      ensures old(Consistent(State())) ==> Consistent(State())
    {
      ghost var before := State();
      CandidateRoutes.VoteKeepsWellFormed(before, cid, uid, now, CandidateRoutes.RefusedRoleAsWritten);
      if Consistent(before) {
        CandidateRoutes.VotePreservesConsistency(before, cid, uid, now, CandidateRoutes.RefusedRoleAsWritten);
      }
      if cid !in candidates {
        return Reply(404, Message("Candidate not found"));
      }
      var candidateDoc := candidates[cid];
      if uid !in users {
        return Reply(404, Message("User  not found"));
      }
      var userDoc := users[uid];
      if userDoc.isVoted {
        return Reply(400, Message("You have already voted"));
      }
      if userDoc.role == CandidateRoutes.RefusedRoleAsWritten {
        return Reply(403, Message("Admin is not allowed"));
      }
      candidateDoc := candidateDoc.(vote := candidateDoc.vote + [NewVoteRecord(uid, now)]);
      candidateDoc := candidateDoc.(voteCount := candidateDoc.voteCount + 1);
      candidates := candidates[cid := candidateDoc];
      userDoc := userDoc.(isVoted := true);
      users := users[uid := PreSave(userDoc, false, hash)];
      reply := Reply(200, Message("Vote recorded successfully"));
    }

    /** GET `/candidate/vote/count`: reads the store, changes nothing. */
    method VoteCount() returns (reply: Reply)
      ensures reply.status == 200 && reply.body.TallyBody?
      ensures CandidateRoutes.NonIncreasing(reply.body.entries)
      ensures reply == Reply(200, TallyBody(CandidateRoutes.Tally(State())))
    {
      CandidateRoutes.TallyIsSortedProjection(State());
      var sorted := CandidateRoutes.SortByCount(CandidateRoutes.CandidateList(State()));
      reply := Reply(200, TallyBody(CandidateRoutes.Project(sorted)));
    }

    /** GET `/candidate/candidate`: every candidate document, in insertion order. */
    method ListCandidates() returns (reply: Reply)
      ensures reply == Reply(200, CandidatesBody(CandidateRoutes.CandidateList(State())))
      ensures forall id :: id in candidates && id < nextCandidate ==> candidates[id] in reply.body.candidates
    {
      reply := Reply(200, CandidatesBody(Sums.Listing(candidates, nextCandidate)));
      forall id | id in candidates && id < nextCandidate
        ensures candidates[id] in reply.body.candidates
      {
        Sums.ListingContains(candidates, nextCandidate, id);
      }
    }

    /** POST `/user/signup`: build, validate, hash, check the unique index, insert. */
    method Signup(d: UserDraft) returns (reply: Reply)
      requires Valid()
      modifies this
      ensures Valid()
      ensures Outcome(reply, State()) == UserRoutes.Signup(old(State()), d, hash)
    {
      UserRoutes.SignupKeepsWellFormed(State(), d, hash);
      var newUser := CreateUser(d, hash);
      if newUser.None? {
        return Reply(500, Error("internal server error"));
      }
      var response := newUser.value;
      var clash := UserRoutes.FindByAadhaar(State(), response.aadharCardNumber);
      if clash.Some? {
        return Reply(500, Error("internal server error"));
      }
      var id := nextUser;
      users := users[id := response];
      nextUser := nextUser + 1;
      reply := Reply(201, SignupBody(response, Token(id)));
    }

    /**
     * POST `/user/login`, with the decision logic the handler spells out (as written the
     * handler always fails; see `UserRoutes.LoginAsWritten`). Changes nothing.
     */
    method Login(a: int, password: string) returns (reply: Reply)
      ensures Outcome(reply, State()) == UserRoutes.Login(State(), a, password, hash)
      ensures reply.status == 200 || reply == UserRoutes.InvalidCredentials
    {
      var found := UserRoutes.FindByAadhaar(State(), a);
      if found.None? || !ComparePassword(users[found.value], password, hash) {
        return UserRoutes.InvalidCredentials;
      }
      reply := Reply(200, TokenBody(Token(found.value)));
    }

    /** GET `/user/profile` for the id the token carries. Changes nothing. */
    method Profile(id: UserId) returns (reply: Reply)
      ensures reply == UserRoutes.Profile(State(), id).reply
      ensures reply.body.profile.Some? <==> id in users
    {
      if id in users {
        reply := Reply(200, ProfileBody(Some(users[id])));
      } else {
        reply := Reply(200, ProfileBody(None));
      }
    }

    /** PUT `/user/profile/password`: compare, assign the new password, save through the hook. */
    method ChangePassword(id: UserId, current: string, newPassword: string) returns (reply: Reply)
      requires Valid()
      modifies this
      ensures Valid()
      ensures Outcome(reply, State()) == UserRoutes.ChangePassword(old(State()), id, current, newPassword, hash)
      ensures old(Consistent(State())) ==> Consistent(State())
    {
      if Consistent(State()) {
        UserRoutes.ChangePasswordKeepsConsistency(State(), id, current, newPassword, hash);
      }
      if id !in users {
        return Reply(500, Error("internal server error"));
      }
      var user := users[id];
      if !ComparePassword(user, current, hash) {
        return UserRoutes.InvalidCredentials;
      }
      var modified := newPassword != user.password;
      user := user.(password := newPassword);
      if user.password == "" {
        return Reply(500, Error("internal server error"));
      }
      user := PreSave(user, modified, hash);
      users := users[id := user];
      reply := Reply(200, Message("password updated"));
    }
  }
}
