/**
 * The candidate routes of the voting server as functions from the database before a
 * request to the reply and the database after it: the admin check, adding, updating and
 * deleting candidates, casting a vote, the tally and the candidate list.
 *
 * The lemmas state what the routes promise: who may change the roster, the order of the
 * vote handler's checks and exactly what a vote changes, that a vote keeps the ballot
 * consistent while deleting a candidate that has votes breaks it, and that the tally is
 * the candidates' counts in non-increasing order.
 */
module CandidateRoutes {
  import opened Wrappers
  import opened UserModel
  import opened CandidateModel
  import opened Sums
  import opened Database

  const NotAdmin := Reply(403, Message("User  does not have admin role"))
  const CandidateNotFound := Reply(404, Error("Candidate not found"))
  const InternalError := Reply(500, Error("Internal server error"))

  /** The role the vote handler refuses, spelled as the handler spells it. */
  const RefusedRoleAsWritten := "Admin"

  /** `checkAdminRole(id)`: look the user up; only a user found with role admin passes. */
  function CheckAdminRole(db: Db, id: UserId): (isAdmin: bool)
    ensures isAdmin <==> id in db.users && db.users[id].role == AdminRole
  {
    match if id in db.users then Some(db.users[id]) else None
    case None => false
    case Some(u) => u.role == AdminRole
  }

  /** POST `/`: an admin adds the candidate the body describes. */
  function AddCandidate(db: Db, caller: UserId, d: CandidateDraft): (r: Outcome)
    ensures r.reply.status in {201, 403, 500}
    ensures r.reply.status != 201 ==> r.db == db
    ensures r.db.users == db.users
  {
    if !CheckAdminRole(db, caller) then Outcome(NotAdmin, db)
    else
      match CreateCandidate(d)
      case None => Outcome(InternalError, db)
      case Some(c) =>
        Outcome(Reply(201, CandidateBody(c)),
                db.(candidates := db.candidates[db.nextCandidate := c],
                    nextCandidate := db.nextCandidate + 1))
  }

  /**
   * PUT `/:candidateID`: an admin updates a candidate. The update's validators run before
   * the document is looked up, so an invalid body fails with 500 even for an unknown id.
   */
  function UpdateCandidate(db: Db, caller: UserId, cid: CandidateId, d: CandidateDraft): (r: Outcome)
    ensures r.reply.status in {200, 403, 404, 500}
    ensures r.reply.status != 200 ==> r.db == db
    ensures r.db.users == db.users && r.db.candidates.Keys == db.candidates.Keys
  {
    if !CheckAdminRole(db, caller) then Outcome(NotAdmin, db)
    else if !UpdateValidates(d) then Outcome(InternalError, db)
    else if cid !in db.candidates then Outcome(CandidateNotFound, db)
    else
      var c := ApplyUpdate(db.candidates[cid], d);
      Outcome(Reply(200, CandidateBody(c)), db.(candidates := db.candidates[cid := c]))
  }

  /** DELETE `/:candidateID`: an admin deletes a candidate, votes and all. */
  function DeleteCandidate(db: Db, caller: UserId, cid: CandidateId): (r: Outcome)
    ensures r.reply.status in {200, 403, 404}
    ensures r.reply.status != 200 ==> r.db == db
    ensures r.reply.status == 200 ==> r.db.candidates.Keys == db.candidates.Keys - {cid} && cid in db.candidates
    ensures r.db.users == db.users
  {
    if !CheckAdminRole(db, caller) then Outcome(NotAdmin, db)
    else if cid !in db.candidates then Outcome(CandidateNotFound, db)
    else Outcome(Reply(200, CandidateBody(db.candidates[cid])),
                 db.(candidates := db.candidates - {cid}))
  }

  /**
   * The vote handler with the role it refuses as a parameter: candidate lookup, user
   * lookup, the `isVoted` check and the role check, in that order, then one vote record
   * and one increment for the candidate and `isVoted` set for the user.
   */
  function VoteHandler(db: Db, cid: CandidateId, uid: UserId, now: Time, refusedRole: string): (r: Outcome)
    ensures r.reply.status in {200, 400, 403, 404}
    ensures r.reply.status != 200 ==> r.db == db
  {
    if cid !in db.candidates then Outcome(Reply(404, Message("Candidate not found")), db)
    else if uid !in db.users then Outcome(Reply(404, Message("User  not found")), db)
    else if db.users[uid].isVoted then Outcome(Reply(400, Message("You have already voted")), db)
    else if db.users[uid].role == refusedRole then Outcome(Reply(403, Message("Admin is not allowed")), db)
    else Outcome(Reply(200, Message("Vote recorded successfully")), RecordVote(db, cid, uid, now))
  }

  /** The two documents a successful vote saves. */
  function RecordVote(db: Db, cid: CandidateId, uid: UserId, now: Time): (r: Db)
    requires cid in db.candidates && uid in db.users
    ensures r.candidates.Keys == db.candidates.Keys && r.users.Keys == db.users.Keys
    ensures r.nextUser == db.nextUser && r.nextCandidate == db.nextCandidate
  {
    var c := db.candidates[cid];
    var u := db.users[uid];
    db.(candidates := db.candidates[cid := c.(vote := c.vote + [NewVoteRecord(uid, now)],
                                              voteCount := c.voteCount + 1)],
        users := db.users[uid := u.(isVoted := true)])
  }

  /** POST `/vote/:candidateID` as written: the role check compares with `'Admin'`. */
  function CastVote(db: Db, cid: CandidateId, uid: UserId, now: Time): Outcome
  {
    VoteHandler(db, cid, uid, now, RefusedRoleAsWritten)
  }

  /** The vote handler as evidently intended: the role check compares with the enum's `'admin'`. */
  function CastVoteIntended(db: Db, cid: CandidateId, uid: UserId, now: Time): Outcome
  {
    VoteHandler(db, cid, uid, now, AdminRole)
  }

  /** GET `/candidate`: every candidate, in insertion order. */
  function CandidateList(db: Db): seq<Candidate>
  {
    Listing(db.candidates, db.nextCandidate)
  }

  function Entry(c: Candidate): TallyEntry { TallyEntry(c.party, c.voteCount) }

  /** `candidates.map(data => ({ party, count }))`. */
  function Project(s: seq<Candidate>): (r: seq<TallyEntry>)
    ensures |r| == |s|
    ensures forall i :: 0 <= i < |s| ==> r[i] == Entry(s[i])
  {
    if s == [] then [] else [Entry(s[0])] + Project(s[1..])
  }

  predicate SortedByCount(s: seq<Candidate>)
  {
    forall i, j :: 0 <= i < j < |s| ==> s[i].voteCount >= s[j].voteCount
  }

  predicate NonIncreasing(s: seq<TallyEntry>)
  {
    forall i, j :: 0 <= i < j < |s| ==> s[i].count >= s[j].count
  }

  /** Insert `c` into a list sorted by descending count, ahead of those with an equal count. */
  function InsertByCount(c: Candidate, s: seq<Candidate>): (r: seq<Candidate>)
    requires SortedByCount(s)
    ensures SortedByCount(r)
    ensures multiset(r) == multiset(s) + multiset{c}
    ensures |r| == |s| + 1 && (r[0] == c || (|s| > 0 && r[0] == s[0]))
  {
    if s == [] || c.voteCount >= s[0].voteCount then [c] + s
    else
      assert s == [s[0]] + s[1..];
      var rest := InsertByCount(c, s[1..]);
      assert s[0].voteCount >= rest[0].voteCount;
      [s[0]] + rest
  }

  /** `sort({ voteCount: 'desc' })`. */
  function SortByCount(s: seq<Candidate>): (r: seq<Candidate>)
    ensures SortedByCount(r)
    ensures multiset(r) == multiset(s)
  {
    if s == [] then []
    else
      assert s == [s[0]] + s[1..];
      InsertByCount(s[0], SortByCount(s[1..]))
  }

  /** GET `/vote/count`: the candidates sorted by count, each projected to party and count. */
  function Tally(db: Db): (r: seq<TallyEntry>)
    ensures |r| == |CandidateList(db)|
    ensures NonIncreasing(r)
  {
    var sorted := SortByCount(CandidateList(db));
    assert |sorted| == |CandidateList(db)| by {
      assert |multiset(sorted)| == |multiset(CandidateList(db))|;
    }
    Project(sorted)
  }

  // ---------------------------------------------------------------------------
  // Managing candidates

  /** A caller who is not an admin is refused with 403 by add, update and delete, and nothing changes. */
  lemma NonAdminRefused(db: Db, caller: UserId, cid: CandidateId, d: CandidateDraft)
    requires caller !in db.users || db.users[caller].role != AdminRole
    ensures AddCandidate(db, caller, d) == Outcome(NotAdmin, db)
    ensures UpdateCandidate(db, caller, cid, d) == Outcome(NotAdmin, db)
    ensures DeleteCandidate(db, caller, cid) == Outcome(NotAdmin, db)
  {
  }

  /** Updating or deleting an id that names no candidate answers 404 and changes nothing. */
  lemma UnknownCandidateNotFound(db: Db, caller: UserId, cid: CandidateId, d: CandidateDraft)
    requires CheckAdminRole(db, caller) && cid !in db.candidates
    ensures UpdateValidates(d) ==> UpdateCandidate(db, caller, cid, d) == Outcome(CandidateNotFound, db)
    ensures DeleteCandidate(db, caller, cid) == Outcome(CandidateNotFound, db)
  {
  }

  /** An admin's valid add stores exactly one new candidate, under a fresh id, with no votes. */
  lemma AddStoresOneCandidate(db: Db, caller: UserId, d: CandidateDraft)
    requires WellFormed(db) && CheckAdminRole(db, caller) && CandidateModel.Validates(d)
    ensures var o := AddCandidate(db, caller, d);
      && o.reply.status == 201
      && db.nextCandidate !in db.candidates
      && o.db.candidates.Keys == db.candidates.Keys + {db.nextCandidate}
      && o.db.candidates[db.nextCandidate] == CreateCandidate(d).value
      && o.db.candidates[db.nextCandidate].vote == []
      && (forall id :: id in db.candidates ==> o.db.candidates[id] == db.candidates[id])
      && o.db.users == db.users
  {
  }

  /**
   * Adding keeps the ballot consistent exactly when the body leaves `voteCount` at its
   * default (or sets it to 0): a body that sets another count breaks it.
   */
  lemma AddConsistency(db: Db, caller: UserId, d: CandidateDraft)
    requires Consistent(db) && CheckAdminRole(db, caller) && CandidateModel.Validates(d)
    ensures Consistent(AddCandidate(db, caller, d).db) <==> d.voteCount.GetOr(0) == 0
  {
    var c := CreateCandidate(d).value;
    var db' := AddCandidate(db, caller, d).db;
    var k := db.nextCandidate;
    assert db'.candidates == db.candidates[k := c];
    TotalUpdate(db.candidates, db.nextCandidate, k, c, VoteCountOf);
    assert Total(db.candidates, k + 1, VoteCountOf) == Total(db.candidates, k, VoteCountOf);
    forall uid: UserId ensures Ballots(db', uid) == Ballots(db, uid) {
      TotalUpdate(db.candidates, db.nextCandidate, k, c, BallotsOf(uid));
      assert Total(db.candidates, k + 1, BallotsOf(uid)) == Total(db.candidates, k, BallotsOf(uid));
    }
    if d.voteCount.GetOr(0) != 0 {
      assert db'.candidates[k].voteCount != |db'.candidates[k].vote|;
    }
  }

  /**
   * A successful update keeps the ballot consistent exactly when the body does not change
   * the candidate's `voteCount`.
   */
  lemma UpdateConsistency(db: Db, caller: UserId, cid: CandidateId, d: CandidateDraft)
    requires Consistent(db) && CheckAdminRole(db, caller) && UpdateValidates(d) && cid in db.candidates
    ensures Consistent(UpdateCandidate(db, caller, cid, d).db)
        <==> d.voteCount.GetOr(db.candidates[cid].voteCount) == db.candidates[cid].voteCount
  {
    var c := ApplyUpdate(db.candidates[cid], d);
    var db' := UpdateCandidate(db, caller, cid, d).db;
    assert db'.candidates == db.candidates[cid := c];
    TotalUpdate(db.candidates, db.nextCandidate, cid, c, VoteCountOf);
    forall uid: UserId ensures Ballots(db', uid) == Ballots(db, uid) {
      TotalUpdate(db.candidates, db.nextCandidate, cid, c, BallotsOf(uid));
    }
    if c.voteCount != db.candidates[cid].voteCount {
      assert db'.candidates[cid].voteCount != |db'.candidates[cid].vote|;
    }
  }

  /**
   * A successful update replaces the one candidate by the document `findByIdAndUpdate`
   * returns (the paths the body sets, the vote list kept), answers with that document, and
   * leaves every other candidate and every user alone.
   */
  lemma UpdateEffect(db: Db, caller: UserId, cid: CandidateId, d: CandidateDraft)
    requires UpdateCandidate(db, caller, cid, d).reply.status == 200
    ensures var o := UpdateCandidate(db, caller, cid, d);
      && CheckAdminRole(db, caller) && UpdateValidates(d) && cid in db.candidates
      && o.reply == Reply(200, CandidateBody(ApplyUpdate(db.candidates[cid], d)))
      && o.db.candidates[cid] == ApplyUpdate(db.candidates[cid], d)
      && o.db.candidates[cid].vote == db.candidates[cid].vote
      && (forall id :: id in db.candidates && id != cid ==> o.db.candidates[id] == db.candidates[id])
      && o.db.users == db.users
      && o.db.nextUser == db.nextUser && o.db.nextCandidate == db.nextCandidate
  {
  }

  /**
   * Deleting a candidate removes its count from the total while every voter keeps
   * `isVoted`: the ballot stays consistent exactly when the deleted candidate had no votes.
   */
  lemma DeleteConsistency(db: Db, caller: UserId, cid: CandidateId)
    requires Consistent(db) && CheckAdminRole(db, caller) && cid in db.candidates
    ensures var db' := DeleteCandidate(db, caller, cid).db;
      && TotalVoteCount(db') == TotalVoteCount(db) - db.candidates[cid].voteCount
      && VotedUsers(db') == VotedUsers(db)
      && (Consistent(db') <==> db.candidates[cid].voteCount == 0)
  {
    var c := db.candidates[cid];
    var db' := DeleteCandidate(db, caller, cid).db;
    assert db'.candidates == db.candidates - {cid};
    TotalRemove(db.candidates, db.nextCandidate, cid, VoteCountOf);
    if c.voteCount == 0 {
      forall uid: UserId ensures Ballots(db', uid) == Ballots(db, uid) {
        TotalRemove(db.candidates, db.nextCandidate, cid, BallotsOf(uid));
        assert c.vote == [];
      }
    }
  }

  /**
   * The deletion that breaks the ballot: one voter, one candidate holding that voter's
   * record, and the admin deletes the candidate. Afterwards no count is left while the
   * voter stays marked as having voted.
   */
  lemma DeleteOrphansVote()
    ensures var voter := User("V", 30, None, None, "A", 111122223333, "h", VoterRole, true);
      var admin := User("B", 40, None, None, "A", 444455556666, "h", AdminRole, false);
      var c := Candidate("C", "P", None, [VoteRecord(0, 0)], 1);
      var db := Db(map[0 := voter, 1 := admin], map[0 := c], 2, 1);
      && Consistent(db)
      && DeleteCandidate(db, 1, 0).reply.status == 200
      && !Consistent(DeleteCandidate(db, 1, 0).db)
  {
    var voter := User("V", 30, None, None, "A", 111122223333, "h", VoterRole, true);
    var admin := User("B", 40, None, None, "A", 444455556666, "h", AdminRole, false);
    var c := Candidate("C", "P", None, [VoteRecord(0, 0)], 1);
    var db := Db(map[0 := voter, 1 := admin], map[0 := c], 2, 1);
    assert c.vote[..0] == [];
    assert Total(db.candidates, 1, VoteCountOf) == Total(db.candidates, 0, VoteCountOf) + 1;
    assert Total(db.users, 1, VotedFlag) == Total(db.users, 0, VotedFlag) + 1;
    assert Total(db.users, 2, VotedFlag) == Total(db.users, 1, VotedFlag) + 0;
    forall uid: UserId ensures Ballots(db, uid) == if uid in db.users && db.users[uid].isVoted then 1 else 0 {
      assert Total(db.candidates, 1, BallotsOf(uid)) == Total(db.candidates, 0, BallotsOf(uid)) + Occurrences(c.vote, uid);
    }
    DeleteConsistency(db, 1, 0);
  }

  lemma ManagementKeepsWellFormed(db: Db, caller: UserId, cid: CandidateId, d: CandidateDraft)
    requires WellFormed(db)
    ensures WellFormed(AddCandidate(db, caller, d).db)
    ensures WellFormed(UpdateCandidate(db, caller, cid, d).db)
    ensures WellFormed(DeleteCandidate(db, caller, cid).db)
  {
  }

  // ---------------------------------------------------------------------------
  // Casting a vote

  /**
   * The vote handler's checks, in order: unknown candidate 404, unknown user 404, already
   * voted 400, role equal to the refused one 403. A refused vote changes nothing; the vote
   * succeeds exactly when every check passes.
   */
  lemma VoteChecksInOrder(db: Db, cid: CandidateId, uid: UserId, now: Time, refusedRole: string)
    ensures var o := VoteHandler(db, cid, uid, now, refusedRole);
      && (cid !in db.candidates ==> o.reply == Reply(404, Message("Candidate not found")))
      && (cid in db.candidates && uid !in db.users ==> o.reply == Reply(404, Message("User  not found")))
      && (cid in db.candidates && uid in db.users && db.users[uid].isVoted ==>
            o.reply == Reply(400, Message("You have already voted")))
      && ((cid in db.candidates && uid in db.users && !db.users[uid].isVoted
           && db.users[uid].role == refusedRole) ==> o.reply == Reply(403, Message("Admin is not allowed")))
      && (o.reply.status != 200 ==> o.db == db)
      && (o.reply.status == 200 <==>
            cid in db.candidates && uid in db.users && !db.users[uid].isVoted
            && db.users[uid].role != refusedRole)
  {
  }

  /**
   * A successful vote does three things and nothing else: it appends one record naming the
   * voter to the chosen candidate's `vote` list, adds one to that candidate's `voteCount`,
   * and sets the voter's `isVoted`. Every other candidate, every other user, every other
   * field and both id counters are unchanged.
   */
  lemma VoteEffect(db: Db, cid: CandidateId, uid: UserId, now: Time, refusedRole: string)
    requires VoteHandler(db, cid, uid, now, refusedRole).reply.status == 200
    ensures var db' := VoteHandler(db, cid, uid, now, refusedRole).db;
      var c := db.candidates[cid];
      var u := db.users[uid];
      && db'.nextUser == db.nextUser && db'.nextCandidate == db.nextCandidate
      && db'.candidates.Keys == db.candidates.Keys && db'.users.Keys == db.users.Keys
      && db'.candidates[cid].vote == c.vote + [VoteRecord(uid, now)]
      && db'.candidates[cid].voteCount == c.voteCount + 1
      && db'.candidates[cid].(vote := c.vote, voteCount := c.voteCount) == c
      && !u.isVoted && db'.users[uid] == u.(isVoted := true)
      && (forall id :: id in db.candidates && id != cid ==> db'.candidates[id] == db.candidates[id])
      && (forall id :: id in db.users && id != uid ==> db'.users[id] == db.users[id])
  {
  }

  /** A successful vote raises the total count by one and the number of voters by one. */
  lemma VoteCountsOne(db: Db, cid: CandidateId, uid: UserId, now: Time, refusedRole: string)
    requires WellFormed(db)
    requires VoteHandler(db, cid, uid, now, refusedRole).reply.status == 200
    ensures var db' := VoteHandler(db, cid, uid, now, refusedRole).db;
      TotalVoteCount(db') == TotalVoteCount(db) + 1 && VotedUsers(db') == VotedUsers(db) + 1
  {
    var c := db.candidates[cid];
    var u := db.users[uid];
    var db' := RecordVote(db, cid, uid, now);
    TotalUpdate(db.candidates, db.nextCandidate, cid, db'.candidates[cid], VoteCountOf);
    TotalUpdate(db.users, db.nextUser, uid, db'.users[uid], VotedFlag);
  }

  /** Casting a vote, accepted or refused, keeps the ballot consistent. */
  lemma VotePreservesConsistency(db: Db, cid: CandidateId, uid: UserId, now: Time, refusedRole: string)
    requires Consistent(db)
    ensures Consistent(VoteHandler(db, cid, uid, now, refusedRole).db)
  {
    var o := VoteHandler(db, cid, uid, now, refusedRole);
    if o.reply.status == 200 {
      var c := db.candidates[cid];
      var r := NewVoteRecord(uid, now);
      var c' := c.(vote := c.vote + [r], voteCount := c.voteCount + 1);
      var db' := o.db;
      assert db'.candidates == db.candidates[cid := c'];
      VoteCountsOne(db, cid, uid, now, refusedRole);
      forall x: UserId
        ensures Ballots(db', x) == if x in db'.users && db'.users[x].isVoted then 1 else 0
      {
        TotalUpdate(db.candidates, db.nextCandidate, cid, c', BallotsOf(x));
        OccurrencesAppend(c.vote, r, x);
      }
    }
  }

  /**
   * Voting twice: the first vote succeeds, the second (for any candidate) is refused with
   * 400 and changes nothing; in all the total count rose by exactly one and the voter is
   * named by exactly one vote record.
   */
  lemma VoteTwice(db: Db, cid: CandidateId, cid2: CandidateId, uid: UserId, now: Time, now2: Time)
    requires Consistent(db)
    requires CastVote(db, cid, uid, now).reply.status == 200
    ensures var db1 := CastVote(db, cid, uid, now).db;
      && CastVote(db1, cid2, uid, now2).reply.status == (if cid2 in db1.candidates then 400 else 404)
      && CastVote(db1, cid2, uid, now2).db == db1
      && TotalVoteCount(db1) == TotalVoteCount(db) + 1
      && Ballots(db1, uid) == 1
  {
    VoteCountsOne(db, cid, uid, now, RefusedRoleAsWritten);
    VotePreservesConsistency(db, cid, uid, now, RefusedRoleAsWritten);
  }

  /**
   * The stored roles are `'voter'` and `'admin'`, never `'Admin'`: for any database the
   * schema admits, the handler's 403 branch cannot be reached.
   */
  lemma AdminCheckNeverFires(db: Db, cid: CandidateId, uid: UserId, now: Time)
    requires WellFormed(db)
    ensures CastVote(db, cid, uid, now).reply.status != 403
  {
  }

  /** So an admin who has not voted yet gets their vote recorded. */
  lemma AdminVoteAccepted(db: Db, cid: CandidateId, uid: UserId, now: Time)
    requires cid in db.candidates && uid in db.users
    requires db.users[uid].role == AdminRole && !db.users[uid].isVoted
    ensures CastVote(db, cid, uid, now).reply == Reply(200, Message("Vote recorded successfully"))
    ensures CastVote(db, cid, uid, now).db.users[uid].isVoted
  {
  }

  /**
   * The intended handler refuses every admin with 403 and changes nothing, and treats
   * every other user exactly as the handler as written does.
   */
  lemma IntendedVoteRefusesAdmins(db: Db, cid: CandidateId, uid: UserId, now: Time)
    requires WellFormed(db)
    ensures uid in db.users && db.users[uid].role == AdminRole ==>
      CastVoteIntended(db, cid, uid, now).reply.status != 200
      && CastVoteIntended(db, cid, uid, now).db == db
    ensures cid in db.candidates && uid in db.users && db.users[uid].role == AdminRole
            && !db.users[uid].isVoted ==>
      CastVoteIntended(db, cid, uid, now) == Outcome(Reply(403, Message("Admin is not allowed")), db)
    ensures uid in db.users && db.users[uid].role != AdminRole ==>
      CastVoteIntended(db, cid, uid, now) == CastVote(db, cid, uid, now)
  {
  }

  lemma VoteKeepsWellFormed(db: Db, cid: CandidateId, uid: UserId, now: Time, refusedRole: string)
    requires WellFormed(db)
    ensures WellFormed(VoteHandler(db, cid, uid, now, refusedRole).db)
  {
    var o := VoteHandler(db, cid, uid, now, refusedRole);
    if o.reply.status == 200 {
      assert o.db.users.Keys == db.users.Keys;
    }
  }

  // ---------------------------------------------------------------------------
  // The tally

  /**
   * The tally is the candidates reordered (a permutation of the list, so one entry per
   * candidate), each projected to its party and `voteCount`, in non-increasing count order.
   */
  lemma TallyIsSortedProjection(db: Db)
    ensures var s := SortByCount(CandidateList(db));
      && Tally(db) == Project(s)
      && multiset(s) == multiset(CandidateList(db))
      && NonIncreasing(Tally(db))
    ensures forall id :: id in db.candidates && id < db.nextCandidate ==>
      Entry(db.candidates[id]) in Tally(db)
  {
    var s := SortByCount(CandidateList(db));
    forall id | id in db.candidates && id < db.nextCandidate
      ensures Entry(db.candidates[id]) in Tally(db)
    {
      var c := db.candidates[id];
      ListingContains(db.candidates, db.nextCandidate, id);
      assert c in multiset(s);
      var i :| 0 <= i < |s| && s[i] == c;
      assert Tally(db)[i] == Entry(c);
    }
  }
}
