/**
 * Vote bookkeeping of a suggestion: each user gets one vote, up or down;
 * a second press by the same user is refused and changes nothing.
 */
module Suggestions {

  datatype Vote = Up(user: int) | Down(user: int)

  /** The three counters of a view. */
  datatype Tally = Tally(upvotes: nat, downvotes: nat, votedUsers: set<int>)

  /** The effect of one button press. */
  function Cast(t: Tally, v: Vote): Tally {
    if v.user in t.votedUsers then t
    else match v
      case Up(u) => t.(upvotes := t.upvotes + 1, votedUsers := t.votedUsers + {u})
      case Down(u) => t.(downvotes := t.downvotes + 1, votedUsers := t.votedUsers + {u})
  }

  /** The counters after a sequence of presses on a new view. */
  function CastAll(votes: seq<Vote>): Tally {
    if votes == [] then Tally(0, 0, {})
    else Cast(CastAll(votes[..|votes| - 1]), votes[|votes| - 1])
  }

  /** The users who pressed a button at least once. */
  function Voters(votes: seq<Vote>): set<int> {
    if votes == [] then {} else Voters(votes[..|votes| - 1]) + {votes[|votes| - 1].user}
  }

  /**
   * After any sequence of presses the voters are exactly the users who
   * pressed, and the two counters add up to their number.
   */
  lemma {:induction false} CastAllCounts(votes: seq<Vote>)
    ensures CastAll(votes).votedUsers == Voters(votes)
    ensures CastAll(votes).upvotes + CastAll(votes).downvotes == |CastAll(votes).votedUsers|
    ensures |CastAll(votes).votedUsers| <= |votes|
  {
    if votes != [] {
      CastAllCounts(votes[..|votes| - 1]);
    }
  }

  /** Only a user's first press counts: a press by a user who already voted changes nothing. */
  lemma RepeatVoteIgnored(votes: seq<Vote>, v: Vote)
    requires v.user in Voters(votes)
    ensures CastAll(votes + [v]) == CastAll(votes)
  {
    CastAllCounts(votes);
    assert (votes + [v])[..|votes + [v]| - 1] == votes;
  }

  class SuggestionView {
    const suggestionText: string
    const authorId: int
    var upvotes: nat
    var downvotes: nat
    var votedUsers: set<int>

    ghost predicate Valid()
      reads this
    {
      upvotes + downvotes == |votedUsers|
    }

    function Counts(): Tally
      reads this
    {
      Tally(upvotes, downvotes, votedUsers)
    }

    constructor (suggestionText: string, authorId: int)
      ensures Valid()
      ensures this.suggestionText == suggestionText && this.authorId == authorId
      ensures upvotes == 0 && downvotes == 0 && votedUsers == {}
      ensures Counts() == CastAll([])
    {
      this.suggestionText := suggestionText;
      this.authorId := authorId;
      upvotes, downvotes, votedUsers := 0, 0, {};
    }

    /** Counts an up-vote unless the user has voted already; reports whether it counted. */
    method Upvote(userId: int) returns (counted: bool)
      requires Valid()
      modifies this
      ensures Valid()
      ensures counted == (userId !in old(votedUsers))
      ensures counted ==>
        upvotes == old(upvotes) + 1 && downvotes == old(downvotes) && votedUsers == old(votedUsers) + {userId}
      ensures !counted ==> upvotes == old(upvotes) && downvotes == old(downvotes) && votedUsers == old(votedUsers)
      ensures Counts() == Cast(old(Counts()), Up(userId))
    {
      if userId in votedUsers {
        return false;
      }
      upvotes := upvotes + 1;
      votedUsers := votedUsers + {userId};
      counted := true;
    }

    /** Counts a down-vote unless the user has voted already; reports whether it counted. */
    method Downvote(userId: int) returns (counted: bool)
      requires Valid()
      modifies this
      ensures Valid()
      ensures counted == (userId !in old(votedUsers))
      ensures counted ==>
        downvotes == old(downvotes) + 1 && upvotes == old(upvotes) && votedUsers == old(votedUsers) + {userId}
      ensures !counted ==> upvotes == old(upvotes) && downvotes == old(downvotes) && votedUsers == old(votedUsers)
      ensures Counts() == Cast(old(Counts()), Down(userId))
    {
      if userId in votedUsers {
        return false;
      }
      downvotes := downvotes + 1;
      votedUsers := votedUsers + {userId};
      counted := true;
    }
  }
}
