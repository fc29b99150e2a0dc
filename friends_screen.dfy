/**
 * The pure parts of src/screens/FriendsScreen.js: which users can be added as
 * friends, which challenge a friend was sent, and the per-friend challenge
 * text fields.
 */
module FriendsScreen {
  import opened Results
  import opened Text
  import opened Users
  import opened AppContext

  /** Line 20: `currentUser?.friends || []`; an array is never falsy, so only a missing user gives `[]`. */
  function FriendList(current: Option<seq<string>>): seq<string> {
    if current.Some? then current.value else []
  }

  /** Line 23: the usernames in list order. */
  function Usernames(users: seq<User>): (r: seq<string>)
    ensures |r| == |users| && forall i :: 0 <= i < |users| ==> r[i] == users[i].username
  {
    seq(|users|, i requires 0 <= i < |users| => users[i].username)
  }

  /** Line 27: the name contains the search text, both lower-cased. */
  predicate Matches(name: string, searchText: string) {
    Contains(Lower(name), Lower(searchText))
  }

  /** Lines 25-27: not the signed-in user, not yet a friend, and matching the search. */
  predicate Candidate(name: string, me: string, friendList: seq<string>, searchText: string) {
    name != me && name !in friendList && Matches(name, searchText)
  }

  /** `xs` is `ys` with some elements left out, order kept. */
  predicate Subsequence(xs: seq<string>, ys: seq<string>)
    decreases |ys|
  {
    xs == [] || (ys != [] && ((xs[0] == ys[0] && Subsequence(xs[1..], ys[1..])) || Subsequence(xs, ys[1..])))
  }

  /** Lines 22-28: `available`. */
  function Available(names: seq<string>, me: string, friendList: seq<string>, searchText: string): (r: seq<string>)
    ensures forall n :: n in r <==> n in names && Candidate(n, me, friendList, searchText)
    ensures Subsequence(r, names)
  {
    if names == [] then []
    else
      var rest := Available(names[1..], me, friendList, searchText);
      if Candidate(names[0], me, friendList, searchText) then [names[0]] + rest else rest
  }

  /**
   * Lines 20-28: the names offered for adding. With nobody signed in,
   * `currentUser.username` throws (`None`) as soon as there is a user to filter.
   */
  function Offered(users: seq<User>, current: User?, searchText: string): (r: Option<seq<string>>)
    reads current
    ensures r.None? <==> current == null && users != []
    ensures current == null && users == [] ==> r == Some([])
    ensures r.Some? && current != null ==>
              forall n :: n in r.value <==> n in Usernames(users) && n != current.username && n !in current.friends && Matches(n, searchText)
  {
    var friendList := FriendList(if current == null then None else Some(current.friends));
    if current == null then
      if users == [] then Some([]) else None
    else
      Some(Available(Usernames(users), current.username, friendList, searchText))
  }

  /** With an empty search every other user who is not yet a friend is offered. */
  lemma EmptySearchKeepsAll(names: seq<string>, me: string, friendList: seq<string>)
    ensures forall n :: n in Available(names, me, friendList, "") <==> n in names && n != me && n !in friendList
  {
    assert Lower("") == "";
  }

  /** Line 32: `challenges.find(c => c.to === friend)`. */
  function SentTo(challenges: seq<Challenge>, friend: string): (r: Option<Challenge>)
    ensures r.None? <==> forall c :: c in challenges ==> c.to != friend
    ensures r.Some? ==> exists i :: 0 <= i < |challenges| && challenges[i] == r.value && r.value.to == friend
                          && forall j :: 0 <= j < i ==> challenges[j].to != friend
  {
    if challenges == [] then None
    else if challenges[0].to == friend then Some(challenges[0])
    else
      var rest := SentTo(challenges[1..], friend);
      assert forall c :: c in challenges[1..] ==> c in challenges;
      if rest.Some? then
        var i :| 0 <= i < |challenges[1..]| && challenges[1..][i] == rest.value && rest.value.to == friend
                 && forall j :: 0 <= j < i ==> challenges[1..][j].to != friend;
        assert challenges[i + 1] == rest.value;
        rest
      else rest
  }

  /** Sending more challenges never changes which one is shown for a friend already challenged. */
  lemma {:induction false} SentToStable(challenges: seq<Challenge>, more: seq<Challenge>, friend: string)
    requires SentTo(challenges, friend).Some?
    ensures SentTo(challenges + more, friend) == SentTo(challenges, friend)
    decreases |challenges|
  {
    if challenges[0].to != friend {
      assert (challenges + more)[1..] == challenges[1..] + more;
      SentToStable(challenges[1..], more, friend);
    }
  }

  /** Line 54: `challengeTexts[item]`, absent when nothing was typed for that friend. */
  function TypedText(texts: map<string, string>, friend: string): Option<string> {
    if friend in texts then Some(texts[friend]) else None
  }

  /** Line 48: `onChangeText`. */
  function TypeText(texts: map<string, string>, friend: string, t: string): (r: map<string, string>)
    ensures TypedText(r, friend) == Some(t)
    ensures forall other :: other != friend ==> TypedText(r, other) == TypedText(texts, other)
  {
    texts[friend := t]
  }

  /** Line 55: the friend's field becomes empty and every other field stays as it was. */
  function ClearText(texts: map<string, string>, friend: string): (r: map<string, string>)
    ensures TypedText(r, friend) == Some("")
    ensures forall other :: other != friend ==> TypedText(r, other) == TypedText(texts, other)
  {
    texts[friend := ""]
  }

  /** Lines 53-56: the "Send Challenge" press. */
  method SendChallenge(app: AppProvider, texts: map<string, string>, friend: string)
    returns (outcome: ChallengeOutcome, after: map<string, string>)
    modifies app
    ensures outcome == Sent <==> TypedText(texts, friend).Some? && Trim(texts[friend]) != "" && old(app.currentUser) != null
    ensures outcome == Sent ==>
              app.currentUser != null &&
              app.challenges == old(app.challenges) + [Challenge(app.currentUser.username, friend, Trim(texts[friend]))]
    ensures outcome != Sent ==> unchanged(app)
    ensures after == ClearText(texts, friend)
  {
    outcome := app.ChallengeFriend(friend, TypedText(texts, friend));
    after := ClearText(texts, friend);
  }
}
