/** The question card (src/components/Cards/QueryCard.tsx): the author lookup, the vote
    record the card keeps (one key space shared by the question and its answers), the
    highlighted vote arrows, and the show/hide answers toggle. */
module QueryCardView {
  import opened Types
  import MockData

  /** users[i] carries the id and no user before it does. */
  ghost predicate FirstWithId(users: seq<User>, id: string, i: int)
  {
    0 <= i < |users| && users[i].id == id && forall k :: 0 <= k < i ==> users[k].id != id
  }

  /** `users.find(u => u.id === id)`: the first user with the id, if any. */
  function FindUser(users: seq<User>, id: string): (r: Option<User>)
    ensures r.None? <==> forall u :: u in users ==> u.id != id
    ensures r.Some? ==> exists i :: FirstWithId(users, id, i) && users[i] == r.value
  {
    if users == [] then None
    else if users[0].id == id then
      assert FirstWithId(users, id, 0);
      Some(users[0])
    else
      var r := FindUser(users[1..], id);
      assert forall u :: u in users ==> u == users[0] || u in users[1..];
      assert r.Some? ==> exists i :: FirstWithId(users, id, i) && users[i] == r.value by {
        if r.Some? {
          var i :| FirstWithId(users[1..], id, i) && users[1..][i] == r.value;
          assert FirstWithId(users, id, i + 1);
        }
      }
      r
  }

  /** When ids are unique, looking up a user's id finds that very user. */
  lemma FindUniqueUser(users: seq<User>, u: User)
    requires u in users
    requires forall i, j :: 0 <= i < j < |users| ==> users[i].id != users[j].id
    ensures FindUser(users, u.id) == Some(u)
  {
    var r := FindUser(users, u.id);
    var i :| FirstWithId(users, u.id, i) && users[i] == r.value;
    var j :| 0 <= j < |users| && users[j] == u;
    assert i == j;
  }

  /** `{ ...prev, [key]: isUpvote }` */
  function Vote(votes: map<string, bool>, key: string, isUpvote: bool): (r: map<string, bool>)
    ensures key in r && r[key] == isUpvote
    ensures forall k :: k != key ==> (k in r <==> k in votes)
    ensures forall k :: k != key && k in votes ==> r[k] == votes[k]
  {
    votes[key := isUpvote]
  }

  /** A later vote on the same key replaces the earlier one. */
  lemma LastVoteWins(votes: map<string, bool>, key: string, first: bool, second: bool)
    ensures Vote(Vote(votes, key, first), key, second) == Vote(votes, key, second)
  {
  }

  /** Votes on different keys do not interfere, in either order. */
  lemma VotesCommute(votes: map<string, bool>, k1: string, b1: bool, k2: string, b2: bool)
    requires k1 != k2
    ensures Vote(Vote(votes, k1, b1), k2, b2) == Vote(Vote(votes, k2, b2), k1, b1)
  {
  }

  /** The up arrow is highlighted when the recorded vote is `true` (`=== true`). */
  predicate UpOn(votes: map<string, bool>, key: string)
  {
    key in votes && votes[key]
  }

  /** The down arrow is highlighted when the recorded vote is `false` (`=== false`). */
  predicate DownOn(votes: map<string, bool>, key: string)
  {
    key in votes && !votes[key]
  }

  /** Never both arrows; neither before any vote; after a vote exactly the chosen one. */
  lemma Highlights(votes: map<string, bool>, key: string, isUpvote: bool)
    ensures !(UpOn(votes, key) && DownOn(votes, key))
    ensures key !in votes ==> !UpOn(votes, key) && !DownOn(votes, key)
    ensures UpOn(Vote(votes, key, isUpvote), key) == isUpvote
    ensures DownOn(Vote(votes, key, isUpvote), key) == !isUpvote
  {
  }

  /** Question and answer votes share one record, so in the sample forum the first answer of
      the first question (both have id "1") overwrites the question's vote. */
  lemma SharedKeySpace()
    ensures MockData.Query1.id == MockData.Query1.answers[0].id
    ensures var votes := Vote(Vote(map[], MockData.Query1.id, true), MockData.Query1.answers[0].id, false);
      !UpOn(votes, MockData.Query1.id) && DownOn(votes, MockData.Query1.id)
  {
  }

  /** `Answer{query.answers.length !== 1 ? 's' : ''}` */
  function AnswerLabel(n: nat): (r: string)
    ensures r == "Answer" <==> n == 1
    ensures r == "Answers" <==> n != 1
  {
    "Answer" + if n != 1 then "s" else ""
  }

  /** The card's own state: which answers are open and the votes cast on this card. */
  class Card {
    const query: Query
    var showAnswers: bool
    var userVotes: map<string, bool>

    constructor (q: Query)
      ensures query == q && !showAnswers && userVotes == map[]
    {
      query := q;
      showAnswers := false;
      userVotes := map[];
    }

    /** `handleVote`: record the vote under the question's id. */
    method HandleVote(isUpvote: bool)
      modifies this
      ensures userVotes == Vote(old(userVotes), query.id, isUpvote)
      ensures showAnswers == old(showAnswers)
    {
      userVotes := userVotes[query.id := isUpvote];
    }

    /** `handleAnswerVote`: record the vote under the answer's id. */
    method HandleAnswerVote(answerId: string, isUpvote: bool)
      modifies this
      ensures userVotes == Vote(old(userVotes), answerId, isUpvote)
      ensures showAnswers == old(showAnswers)
    {
      userVotes := userVotes[answerId := isUpvote];
    }

    /** The "N Answers" button flips the answers open or closed. */
    method ToggleAnswers()
      modifies this
      ensures showAnswers == !old(showAnswers)
      ensures userVotes == old(userVotes)
    {
      showAnswers := !showAnswers;
    }

    /** The answers the card lists: all of them while open, none while closed. */
    function ShownAnswers(): (r: seq<Answer>)
      reads this
      ensures showAnswers ==> r == query.answers
      ensures !showAnswers ==> r == []
    {
      if showAnswers then query.answers else []
    }
  }

  /** Opening and closing the answers leaves the card as it was; a second vote on the same key
      replaces the first. */
  method CardSession(q: Query, answerId: string)
    requires answerId != q.id
  {
    var card := new Card(q);
    card.ToggleAnswers();
    assert card.ShownAnswers() == q.answers;
    card.ToggleAnswers();
    assert !card.showAnswers && card.ShownAnswers() == [];
    card.HandleVote(true);
    card.HandleAnswerVote(answerId, false);
    card.HandleVote(false);
    assert DownOn(card.userVotes, q.id) && !UpOn(card.userVotes, q.id);
    assert DownOn(card.userVotes, answerId);
  }
}
