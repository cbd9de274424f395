/**
 * The two collections the server keeps (users and candidates, each a map from id to
 * document), the replies its routes send, and the bookkeeping the ballot relies on:
 * sums over a collection in id order, and the consistency conditions between the
 * candidates' vote lists, their cached counts and the users' `isVoted` flags.
 */
module Database {
  import opened Wrappers
  import opened UserModel
  import opened CandidateModel
  import opened Sums

  /** The bearer token issued at signup and login: the only claim it carries is the user id. */
  datatype Token = Token(id: UserId)

  /** One element of the `/vote/count` reply. */
  datatype TallyEntry = TallyEntry(party: string, count: int)

  /** The JSON body of a reply, by the key it is sent under. */
  datatype Body =
    | Message(text: string)
    | Error(text: string)
    | CandidateBody(candidate: Candidate)
    | SignupBody(user: User, token: Token)
    | TokenBody(token: Token)
    | ProfileBody(profile: Option<User>)
    | TallyBody(entries: seq<TallyEntry>)
    | CandidatesBody(candidates: seq<Candidate>)

  datatype Reply = Reply(status: int, body: Body)

  /**
   * The database. Ids are handed out in increasing order, so every key of `users` is
   * below `nextUser` and every key of `candidates` below `nextCandidate`; iterating the
   * ids upwards visits documents in insertion order.
   */
  datatype Db = Db(
    users: map<UserId, User>,
    candidates: map<CandidateId, Candidate>,
    nextUser: nat,
    nextCandidate: nat)

  const EmptyDb := Db(map[], map[], 0, 0)

  /** What a route answers and the database it leaves behind. */
  datatype Outcome = Outcome(reply: Reply, db: Db)

  /** What the schema guarantees of every stored document, with the id discipline. */
  predicate WellFormed(db: Db)
  {
    && KeysBelow(db.users, db.nextUser)
    && KeysBelow(db.candidates, db.nextCandidate)
    && (forall id :: id in db.users ==> IsRole(db.users[id].role))
    && (forall i, j :: i in db.users && j in db.users && i != j ==>
          db.users[i].aadharCardNumber != db.users[j].aadharCardNumber)
  }

  function VoteCountOf(c: Candidate): int { c.voteCount }

  function VotedFlag(u: User): int { if u.isVoted then 1 else 0 }

  /** How many records of a `vote` list name `uid`. */
  function Occurrences(votes: seq<VoteRecord>, uid: UserId): nat
  {
    if votes == [] then 0
    else Occurrences(votes[..|votes| - 1], uid) + (if votes[|votes| - 1].user == uid then 1 else 0)
  }

  function BallotsOf(uid: UserId): Candidate -> int
  {
    (c: Candidate) => Occurrences(c.vote, uid)
  }

  /** The sum of all candidates' `voteCount`. */
  function TotalVoteCount(db: Db): int { Total(db.candidates, db.nextCandidate, VoteCountOf) }

  /** The number of users whose `isVoted` is set. */
  function VotedUsers(db: Db): int { Total(db.users, db.nextUser, VotedFlag) }

  /** The number of vote records, across all candidates, that name `uid`. */
  function Ballots(db: Db, uid: UserId): int { Total(db.candidates, db.nextCandidate, BallotsOf(uid)) }

  /** Every candidate's cached `voteCount` equals the length of its `vote` list. */
  predicate CountsMatchVotes(db: Db)
  {
    forall id :: id in db.candidates ==> db.candidates[id].voteCount == |db.candidates[id].vote|
  }

  /**
   * The ballot is consistent: counts match vote lists, the counts add up to the number of
   * users who have voted, and each user is named by exactly one vote record if they have
   * voted and by none otherwise.
   */
  ghost predicate Consistent(db: Db)
  {
    && WellFormed(db)
    && CountsMatchVotes(db)
    && TotalVoteCount(db) == VotedUsers(db)
    && (forall uid: UserId :: Ballots(db, uid) == if uid in db.users && db.users[uid].isVoted then 1 else 0)
  }

  lemma EmptyIsConsistent()
    ensures Consistent(EmptyDb)
  {
  }

  /** Appending a record adds one occurrence exactly for the user it names. */
  lemma OccurrencesAppend(votes: seq<VoteRecord>, r: VoteRecord, uid: UserId)
    ensures Occurrences(votes + [r], uid) == Occurrences(votes, uid) + (if r.user == uid then 1 else 0)
  {
    assert (votes + [r])[..|votes|] == votes;
  }

  /** In a consistent ballot no user is named by more than one vote record. */
  lemma AtMostOneBallot(db: Db, uid: UserId)
    requires Consistent(db)
    ensures Ballots(db, uid) <= 1
    ensures Ballots(db, uid) == 1 <==> uid in db.users && db.users[uid].isVoted
  {
  }
}
