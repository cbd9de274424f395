/**
 * The candidate record of the voting server: descriptive fields, the list of vote records
 * and the cached `voteCount`, with the schema's required paths and defaults.
 */
module CandidateModel {
  import opened Wrappers
  import opened UserModel

  type CandidateId = nat

  /** A moment in time, as the milliseconds `Date.now` returns. */
  type Time = int

  /** One entry of a candidate's `vote` list. The `user` reference is required. */
  datatype VoteRecord = VoteRecord(user: UserId, votedAt: Time)

  datatype Candidate = Candidate(
    name: string,
    party: string,
    age: Option<int>,
    vote: seq<VoteRecord>,
    voteCount: int)

  /**
   * The request body of an add or update. `voteCount` is a path of the schema, so a body
   * may set it like any other field.
   */
  datatype CandidateDraft = CandidateDraft(
    name: Option<string>,
    party: Option<string>,
    age: Option<int>,
    voteCount: Option<int>)

  predicate Validates(d: CandidateDraft)
  {
    RequiredString(d.name) && RequiredString(d.party)
  }

  /** `{ user }` pushed onto a `vote` list: `votedAt` takes its default, the current time. */
  function NewVoteRecord(user: UserId, now: Time): VoteRecord
  {
    VoteRecord(user, now)
  }

  /**
   * Saving `new Candidate(d)`: `None` when validation rejects the body. A new candidate
   * has no vote records, and `voteCount` is 0 unless the body sets it.
   */
  function CreateCandidate(d: CandidateDraft): (r: Option<Candidate>)
    ensures r.Some? <==> Validates(d)
    ensures r.Some? ==> (r.value.vote == [] && r.value.name == d.name.value
                         && r.value.party == d.party.value && r.value.age == d.age)
    ensures r.Some? && d.voteCount.None? ==> r.value.voteCount == |r.value.vote| == 0
  {
    if Validates(d) then Some(Candidate(d.name.value, d.party.value, d.age, [], d.voteCount.GetOr(0)))
    else None
  }

  /**
   * The validators an update runs on the paths it sets: a required path may not be set to
   * the empty string.
   */
  predicate UpdateValidates(d: CandidateDraft)
  {
    (d.name.None? || d.name.value != "") && (d.party.None? || d.party.value != "")
  }

  /** The document after `findByIdAndUpdate`: each path the body carries is replaced. */
  function ApplyUpdate(c: Candidate, d: CandidateDraft): (r: Candidate)
    ensures r.vote == c.vote
    ensures d.name.Some? ==> r.name == d.name.value
    ensures d.name.None? ==> r.name == c.name
    ensures d.party.Some? ==> r.party == d.party.value
    ensures d.party.None? ==> r.party == c.party
    ensures d.age.Some? ==> r.age == d.age
    ensures d.age.None? ==> r.age == c.age
    ensures d.voteCount.Some? ==> r.voteCount == d.voteCount.value
    ensures d.voteCount.None? ==> r.voteCount == c.voteCount
    ensures d == CandidateDraft(None, None, None, None) ==> r == c
  {
    Candidate(d.name.GetOr(c.name), d.party.GetOr(c.party),
              if d.age.Some? then d.age else c.age,
              c.vote, d.voteCount.GetOr(c.voteCount))
  }
}
