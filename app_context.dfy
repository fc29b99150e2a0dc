/**
 * The shared app state of src/context/AppContext.js: the known users, the
 * signed-in user and the challenges sent, with the operations the screens
 * call. React's state setters become assignments to the fields.
 */
module AppContext {
  import opened Results
  import opened Text
  import opened Users

  datatype Challenge = Challenge(from: string, to: string, task: string)

  /** Where `signIn` leaves the app: a new user, a returning user, or the "Incorrect password" alert with no navigation. */
  datatype SignInOutcome = Created | SignedIn | IncorrectPassword

  /** What `challengeFriend` does: nothing for an empty task, append, or a TypeError without a signed-in user. */
  datatype ChallengeOutcome = Ignored | Sent | NoCurrentUser

  /** `users.find(u => u.username === name)`: the first user with that name. */
  function FindUser(users: seq<User>, name: string): (r: Option<User>)
    ensures r.None? <==> forall u :: u in users ==> u.username != name
    ensures r.Some? ==> r.value in users && r.value.username == name
    ensures r.Some? ==> exists i :: 0 <= i < |users| && users[i] == r.value && forall j :: 0 <= j < i ==> users[j].username != name
  {
    if users == [] then None
    else if users[0].username == name then Some(users[0])
    else
      var rest := FindUser(users[1..], name);
      assert forall u :: u in users[1..] ==> u in users;
      if rest.Some? then
        var i :| 0 <= i < |users[1..]| && users[1..][i] == rest.value && forall j :: 0 <= j < i ==> users[1..][j].username != name;
        assert users[i + 1] == rest.value;
        rest
      else rest
  }

  /** No two users share a username. */
  predicate UniqueNames(users: seq<User>) {
    forall i, j :: 0 <= i < |users| && 0 <= j < |users| && users[i].username == users[j].username ==> i == j
  }

  /** Under unique names, a user in the list is the one `find` returns for its name. */
  lemma FindMember(users: seq<User>, u: User)
    requires UniqueNames(users) && u in users
    ensures FindUser(users, u.username) == Some(u)
  {
    var r := FindUser(users, u.username);
    var i :| 0 <= i < |users| && users[i] == u;
    var k :| 0 <= k < |users| && users[k] == r.value && forall j :: 0 <= j < k ==> users[j].username != u.username;
  }

  /** `prev.map(u => u.username === name ? replacement : u)`. */
  function ReplaceByName(users: seq<User>, name: string, replacement: User): (r: seq<User>)
    ensures |r| == |users|
    ensures forall i :: 0 <= i < |users| ==> r[i] == if users[i].username == name then replacement else users[i]
  {
    seq(|users|, i requires 0 <= i < |users| => if users[i].username == name then replacement else users[i])
  }

  /** Replacing the signed-in user by itself changes nothing when names are unique. */
  lemma ReplaceSelf(users: seq<User>, u: User)
    requires UniqueNames(users) && u in users
    ensures ReplaceByName(users, u.username, u) == users
  {
    var k :| 0 <= k < |users| && users[k] == u;
    assert forall i :: 0 <= i < |users| && users[i].username == u.username ==> i == k;
  }

  class AppProvider {
    var users: seq<User>
    var currentUser: User?
    var challenges: seq<Challenge>

    /** Usernames are unique and the signed-in user is one of the users. */
    predicate Valid()
      reads this
    {
      UniqueNames(users) && (currentUser != null ==> currentUser in users)
    }

    constructor ()
      ensures users == [] && currentUser == null && challenges == []
      ensures Valid()
    {
      users, currentUser, challenges := [], null, [];
    }

    /** `signIn(username, password, navigation)`. */
    method SignIn(username: string, password: string) returns (outcome: SignInOutcome)
      modifies this
      ensures challenges == old(challenges)
      ensures FindUser(old(users), username).None? ==>
                && outcome == Created
                && currentUser != null && fresh(currentUser)
                && currentUser.username == username && currentUser.password == password
                && currentUser.xp == 0 && currentUser.level == 1
                && currentUser.tasksCompleted == [] && currentUser.friends == []
                && users == old(users) + [currentUser]
      ensures FindUser(old(users), username).Some? && FindUser(old(users), username).value.password != password ==>
                outcome == IncorrectPassword && unchanged(this)
      ensures FindUser(old(users), username).Some? && FindUser(old(users), username).value.password == password ==>
                outcome == SignedIn && currentUser == FindUser(old(users), username).value && users == old(users)
      ensures old(Valid()) ==> Valid()
    {
      var found := FindUser(users, username);
      var user: User;
      if found.None? {
        user := new User(username, password);
        users := users + [user];
        outcome := Created;
      } else if found.value.password != password {
        return IncorrectPassword;
      } else {
        user := found.value;
        outcome := SignedIn;
      }
      currentUser := user;
    }

    /** `logout(navigation)`. */
    method Logout()
      modifies this
      ensures currentUser == null && users == old(users) && challenges == old(challenges)
      ensures old(Valid()) ==> Valid()
    {
      currentUser := null;
    }

    /** `addFriend(friendName)`: a no-op when nobody is signed in. */
    method AddFriend(friendName: string)
      modifies this, currentUser
      ensures old(currentUser) == null ==> unchanged(this)
      ensures old(currentUser) != null ==>
                && currentUser == old(currentUser)
                && currentUser.friends == (if friendName in old(currentUser.friends) then old(currentUser.friends) else old(currentUser.friends) + [friendName])
                && currentUser.xp == old(currentUser.xp) && currentUser.level == old(currentUser.level)
                && currentUser.tasksCompleted == old(currentUser.tasksCompleted)
                && users == ReplaceByName(old(users), currentUser.username, currentUser)
                && challenges == old(challenges)
      ensures old(Valid()) ==> users == old(users) && Valid()
    {
      if currentUser == null {
        return;
      }
      currentUser.AddFriend(friendName);
      if Valid() {
        ReplaceSelf(users, currentUser);
      }
      users := ReplaceByName(users, currentUser.username, currentUser);
    }

    /** `challengeFriend(friendName, task)`; `task` is absent when nothing was typed. */
    method ChallengeFriend(friendName: string, task: Option<string>) returns (outcome: ChallengeOutcome)
      modifies this
      ensures outcome == Ignored <==> task.None? || Trim(task.value) == ""
      ensures outcome == NoCurrentUser <==> outcome != Ignored && currentUser == null
      ensures outcome != Sent ==> unchanged(this)
      ensures outcome == Sent ==>
                challenges == old(challenges) + [Challenge(currentUser.username, friendName, Trim(task.value))]
                && users == old(users) && currentUser == old(currentUser)
      ensures old(challenges) <= challenges
    {
      if task.None? || Trim(task.value) == "" {
        return Ignored;
      }
      if currentUser == null {
        return NoCurrentUser;
      }
      challenges := challenges + [Challenge(currentUser.username, friendName, Trim(task.value))];
      outcome := Sent;
    }
  }
}
