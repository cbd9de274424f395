/**
 * The candidates page: the guard its vote handler applies before sending a vote, the
 * rule that shows or disables the vote button, and the handler itself, which marks the
 * shared user object as having voted once the server accepts the vote.
 */
module CandidatesPage {
  import opened Wrappers
  import opened Ui
  import UserModel
  import Database
  import CandidateRoutes

  /** The user object the authentication context holds and shares with every page. */
  class ClientUser {
    var isVoted: bool
    var role: string

    constructor(isVoted: bool, role: string)
      ensures this.isVoted == isVoted && this.role == role
    {
      this.isVoted := isVoted;
      this.role := role;
    }
  }

  const AlreadyVoted := Message("warning", "You have already voted!")
  const AdminsMayNotVote := Message("error", "Admins are not allowed to vote!")
  const VoteCast := Message("success", "Vote cast successfully!")
  const VoteFailed := "Failed to cast vote"

  /**
   * The checks `handleVote` makes before any request: `user?.isVoted` first (false when
   * no one is signed in), then `isAdmin`. `None` lets the request go.
   */
  function VoteGuard(userVoted: bool, isAdmin: bool): (r: Option<Message>)
    ensures r.None? <==> !userVoted && !isAdmin
    ensures userVoted ==> r == Some(AlreadyVoted)
    ensures !userVoted && isAdmin ==> r == Some(AdminsMayNotVote)
  {
    if userVoted then Some(AlreadyVoted)
    else if isAdmin then Some(AdminsMayNotVote)
    else None
  }

  datatype VoteButton = Absent | Shown(disabled: bool, caption: string)

  /** The vote button of a candidate card: absent for admins, disabled after voting or while a vote is sent. */
  function Button(isAdmin: bool, userVoted: bool, voting: bool): (b: VoteButton)
    ensures b.Absent? <==> isAdmin
    ensures b.Shown? ==> (b.disabled <==> userVoted || voting)
  {
    if isAdmin then Absent
    else Shown(userVoted || voting,
               if voting then "Voting..." else if userVoted then "Already Voted" else "Vote for this Candidate")
  }

  /** A button that can be clicked leads to a handler whose guard lets the vote through. */
  lemma EnabledButtonPassesGuard(isAdmin: bool, userVoted: bool, voting: bool)
    requires Button(isAdmin, userVoted, voting).Shown? && !Button(isAdmin, userVoted, voting).disabled
    ensures VoteGuard(userVoted, isAdmin).None?
  {
  }

  /**
   * How the vote request settles: accepted, or rejected with the `message` of the error
   * body ("" when the body has none, which the handler treats like a missing one).
   */
  datatype VoteResponse = Accepted | Rejected(serverMessage: string)

  /** `error.response?.data?.message || 'Failed to cast vote'`. */
  function FailureText(serverMessage: string): (t: string)
    ensures t != ""
    ensures serverMessage != "" ==> t == serverMessage
    ensures serverMessage == "" ==> t == VoteFailed
  {
    if serverMessage != "" then serverMessage else VoteFailed
  }

  /** The vote request as the page sees the server's reply: any 2xx status is success. */
  function ResponseOf(reply: Database.Reply): VoteResponse
  {
    if 200 <= reply.status < 300 then Accepted
    else Rejected(if reply.body.Message? then reply.body.text else "")
  }

  class CandidatesView {
    var user: ClientUser?
    const isAdmin: bool
    var voting: bool
    var message: Message

    constructor(user: ClientUser?, isAdmin: bool)
      ensures this.user == user && this.isAdmin == isAdmin && !voting && message == NoMessage
    {
      this.user := user;
      this.isAdmin := isAdmin;
      voting := false;
      message := NoMessage;
    }

    /**
     * `handleVote`: the guard, then the request; on success the message and
     * `user.isVoted = true`. With no user signed in that assignment throws, and the
     * handler ends in its `catch` with the fallback error. `sent` says whether the request
     * was made; `post` is how it settles.
     */
    method HandleVote(post: VoteResponse) returns (sent: bool)
      modifies this, user
      ensures user == old(user)
      ensures user != null ==> user.role == old(user.role)
      ensures sent <==> VoteGuard(old(user != null && user.isVoted), isAdmin).None?
      ensures !sent ==>
        && message == VoteGuard(old(user != null && user.isVoted), isAdmin).value
        && voting == old(voting)
        && (user != null ==> user.isVoted == old(user.isVoted))
      ensures sent ==> !voting
      ensures sent && post.Accepted? && user != null ==> user.isVoted && message == VoteCast
      ensures sent && post.Accepted? && user == null ==> message == ErrorMessage(VoteFailed)
      ensures sent && post.Rejected? ==>
        && message == ErrorMessage(FailureText(post.serverMessage))
        && (user != null ==> user.isVoted == old(user.isVoted))
    {
      if user != null && user.isVoted {
        message := AlreadyVoted;
        return false;
      }
      if isAdmin {
        message := AdminsMayNotVote;
        return false;
      }
      sent := true;
      voting := true;
      match post {
        case Accepted =>
          message := VoteCast;
          if user != null {
            user.isVoted := true;
          } else {
            message := ErrorMessage(FailureText(""));
          }
        case Rejected(serverMessage) =>
          message := ErrorMessage(FailureText(serverMessage));
      }
      voting := false;
    }
  }

  /**
   * The page is where admins are stopped: an admin who has not voted is refused by the
   * guard, while the server as written would record the vote.
   */
  lemma OnlyThePageStopsAdmins(db: Database.Db, cid: nat, uid: nat, now: int)
    requires cid in db.candidates && uid in db.users
    requires db.users[uid].role == UserModel.AdminRole && !db.users[uid].isVoted
    ensures VoteGuard(db.users[uid].isVoted, db.users[uid].role == UserModel.AdminRole) == Some(AdminsMayNotVote)
    ensures ResponseOf(CandidateRoutes.CastVote(db, cid, uid, now).reply) == Accepted
  {
    CandidateRoutes.AdminVoteAccepted(db, cid, uid, now);
  }

  /**
   * A page whose user object is stale (the server has the vote, the page does not) sends
   * the request, and shows the server's own refusal.
   */
  lemma StaleUserSeesServerRefusal(db: Database.Db, cid: nat, uid: nat, now: int)
    requires cid in db.candidates && uid in db.users && db.users[uid].isVoted
    ensures VoteGuard(false, false).None?
    ensures ResponseOf(CandidateRoutes.CastVote(db, cid, uid, now).reply) == Rejected("You have already voted")
    ensures FailureText("You have already voted") == "You have already voted"
  {
  }
}
