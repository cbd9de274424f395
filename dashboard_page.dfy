/**
 * The dashboard page: the statistics it derives from the candidate list and the tally,
 * and the quick actions it offers. The sum of the tally's counts is related back to the
 * server: it is the total of the candidates' `voteCount`, which on a consistent ballot is
 * the number of users who have voted.
 */
module DashboardPage {
  import opened Wrappers
  import opened Sums
  import opened CandidateModel
  import opened Database
  import opened CandidateRoutes

  /** `results.reduce((sum, candidate) => sum + candidate.count, 0)`, a fold from the left. */
  function TotalVotes(entries: seq<TallyEntry>): int
  {
    if entries == [] then 0
    else TotalVotes(entries[..|entries| - 1]) + entries[|entries| - 1].count
  }

  datatype Stats = Stats(totalCandidates: nat, totalVotes: int, userVoted: bool)

  /** The `stats` object: list length, summed counts, and `user?.isVoted || false`. */
  function StatsOf(candidates: seq<Candidate>, results: seq<TallyEntry>, userVoted: Option<bool>): (s: Stats)
    ensures s.totalCandidates == |candidates|
    ensures s.userVoted <==> userVoted == Some(true)
  {
    Stats(|candidates|, TotalVotes(results), userVoted.GetOr(false))
  }

  lemma {:induction false} TotalVotesAppend(a: seq<TallyEntry>, b: seq<TallyEntry>)
    ensures TotalVotes(a + b) == TotalVotes(a) + TotalVotes(b)
  {
    if b == [] {
      assert a + b == a;
    } else {
      var b' := b[..|b| - 1];
      TotalVotesAppend(a, b');
      assert (a + b)[..|a + b| - 1] == a + b';
      assert (a + b)[|a + b| - 1] == b[|b| - 1];
    }
  }

  lemma ProjectAppend(a: seq<Candidate>, b: seq<Candidate>)
    ensures Project(a + b) == Project(a) + Project(b)
  {
    assert |Project(a + b)| == |Project(a) + Project(b)|;
    forall i | 0 <= i < |a| + |b|
      ensures Project(a + b)[i] == (Project(a) + Project(b))[i]
    {
      if i < |a| {
        assert (a + b)[i] == a[i];
      } else {
        assert (a + b)[i] == b[i - |a|];
      }
    }
  }

  lemma TotalVotesCons(c: Candidate, s: seq<Candidate>)
    ensures TotalVotes(Project([c] + s)) == c.voteCount + TotalVotes(Project(s))
  {
    ProjectAppend([c], s);
    TotalVotesSingle(c);
    TotalVotesAppend(Project([c]), Project(s));
  }

  lemma InsertHead(c: Candidate, s: seq<Candidate>)
    requires SortedByCount(s) && (s == [] || c.voteCount >= s[0].voteCount)
    ensures TotalVotes(Project(InsertByCount(c, s))) == c.voteCount + TotalVotes(Project(s))
  {
    assert InsertByCount(c, s) == [c] + s;
    TotalVotesCons(c, s);
  }

  lemma InsertStep(c: Candidate, s: seq<Candidate>)
    requires SortedByCount(s) && s != [] && c.voteCount < s[0].voteCount
    ensures SortedByCount(s[1..])
    ensures InsertByCount(c, s) == [s[0]] + InsertByCount(c, s[1..])
  {
  }

  lemma TotalVotesUncons(s: seq<Candidate>)
    requires s != []
    ensures TotalVotes(Project(s)) == s[0].voteCount + TotalVotes(Project(s[1..]))
  {
    assert s == [s[0]] + s[1..];
    TotalVotesCons(s[0], s[1..]);
  }

  /** Inserting a candidate into the sorted list adds its count to the sum. */
  lemma {:induction false} TotalVotesInsert(c: Candidate, s: seq<Candidate>)
    requires SortedByCount(s)
    ensures TotalVotes(Project(InsertByCount(c, s))) == c.voteCount + TotalVotes(Project(s))
  {
    if s == [] || c.voteCount >= s[0].voteCount {
      InsertHead(c, s);
    } else {
      InsertStep(c, s);
      TotalVotesInsert(c, s[1..]);
      TotalVotesCons(s[0], InsertByCount(c, s[1..]));
      TotalVotesUncons(s);
    }
  }

  /** Sorting by count leaves the sum of the counts unchanged. */
  lemma {:induction false} TotalVotesSort(s: seq<Candidate>)
    ensures TotalVotes(Project(SortByCount(s))) == TotalVotes(Project(s))
  {
    if s != [] {
      TotalVotesSort(s[1..]);
      TotalVotesInsert(s[0], SortByCount(s[1..]));
      TotalVotesUncons(s);
    }
  }

  lemma TotalVotesSingle(c: Candidate)
    ensures TotalVotes(Project([c])) == c.voteCount
  {
    assert Project([c]) == [Entry(c)];
  }

  /** Summing the counts of the listed candidates gives the total of `voteCount`. */
  lemma {:induction false} TotalVotesListing(m: map<CandidateId, Candidate>, n: nat)
    ensures TotalVotes(Project(Listing(m, n))) == Total(m, n, VoteCountOf)
  {
    if n > 0 {
      TotalVotesListing(m, n - 1);
      var prefix := Listing(m, n - 1);
      if n - 1 in m {
        assert Listing(m, n) == prefix + [m[n - 1]];
        ProjectAppend(prefix, [m[n - 1]]);
        TotalVotesAppend(Project(prefix), Project([m[n - 1]]));
        TotalVotesSingle(m[n - 1]);
      } else {
        assert Listing(m, n) == prefix + [];
        assert prefix + [] == prefix;
      }
    }
  }

  /**
   * The dashboard's total votes, computed from the tally the server sends, is the sum of
   * every candidate's `voteCount`; on a consistent ballot it is the number of users who
   * have voted. Its candidate count is the number of tally entries.
   */
  lemma DashboardTotals(db: Db, userVoted: Option<bool>)
    ensures var s := StatsOf(CandidateList(db), Tally(db), userVoted);
      && s.totalVotes == TotalVoteCount(db)
      && s.totalCandidates == |Tally(db)|
      && (Consistent(db) ==> s.totalVotes == VotedUsers(db))
  {
    TotalVotesSort(CandidateList(db));
    TotalVotesListing(db.candidates, db.nextCandidate);
    var sorted := SortByCount(CandidateList(db));
    assert |sorted| == |CandidateList(db)| by {
      assert |multiset(sorted)| == |multiset(CandidateList(db))|;
    }
  }

  /** One card of the quick-actions grid (its icon left out). */
  datatype Action = Action(title: string, description: string, link: string, color: string, disabled: bool)

  /**
   * `quickActions`: three fixed actions, 'Cast Vote' disabled once the user has voted,
   * and 'Admin Panel' pushed at the end for admins. A click on the 'Cast Vote' card goes
   * nowhere once the user has voted; every other card goes to its link.
   */
  method QuickActions(userVoted: bool, isAdmin: bool) returns (actions: seq<Action>)
    ensures |actions| == if isAdmin then 4 else 3
    ensures actions[0].title == "View Candidates" && actions[1].title == "Cast Vote"
    ensures actions[2].title == "View Results"
    ensures isAdmin ==> actions[3] == Action("Admin Panel", "Manage candidates and system", "/admin", "bg-red-500", false)
    ensures forall i :: 0 <= i < |actions| ==> (actions[i].disabled <==> i == 1 && userVoted)
    ensures actions[1].link == "/candidates" && actions[2].link == "/results"
    ensures ClickTarget(actions[1]) == if userVoted then None else Some("/candidates")
    ensures forall i :: 0 <= i < |actions| && i != 1 ==> ClickTarget(actions[i]) == Some(actions[i].link)
  {
    actions := [
      Action("View Candidates", "Browse all registered candidates", "/candidates", "bg-blue-500", false),
      Action("Cast Vote",
             if userVoted then "You have already voted" else "Vote for your preferred candidate",
             "/candidates",
             if userVoted then "bg-gray-400" else "bg-green-500",
             userVoted),
      Action("View Results", "Check live voting results", "/results", "bg-purple-500", false)
    ];
    if isAdmin {
      actions := actions + [Action("Admin Panel", "Manage candidates and system", "/admin", "bg-red-500", false)];
    }
  }

  /** Clicking an action card: a disabled card prevents the navigation, any other goes to its link. */
  function ClickTarget(a: Action): (target: Option<string>)
    ensures target.None? <==> a.disabled
    ensures target.Some? ==> target.value == a.link
  {
    if a.disabled then None else Some(a.link)
  }
}
