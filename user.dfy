/**
 * The `User` class (src/context/User.js): a profile whose friends list and
 * XP/level counters are updated in place.
 */
module Users {
  import opened Text

  const XpPerTask := 250
  const XpPerLevel := 2500

  /** Lines 20-22 on the pair (xp, level): 250 more XP, and one level up once the XP reaches `level * 2500`. */
  function Step(xp: nat, level: nat): (nat, nat) {
    var gained := xp + XpPerTask;
    (gained, if gained >= level * XpPerLevel then level + 1 else level)
  }

  /** One task keeps `level == xp / 2500 + 1`, because 250 XP never crosses two level boundaries. */
  lemma StepKeepsLevel(xp: nat, level: nat)
    requires level == xp / XpPerLevel + 1
    ensures Step(xp, level).1 == Step(xp, level).0 / XpPerLevel + 1
    ensures Step(xp, level).1 <= level + 1
  {
    var q := xp / XpPerLevel;
    assert xp == q * XpPerLevel + xp % XpPerLevel;
    if xp + XpPerTask >= level * XpPerLevel {
      assert (xp + XpPerTask) / XpPerLevel == q + 1;
    } else {
      assert (xp + XpPerTask) / XpPerLevel == q;
    }
  }

  /** (xp, level) of a new user after `n` calls of `completeTask`. */
  function AfterTasks(n: nat): (nat, nat) {
    if n == 0 then (0, 1) else Step(AfterTasks(n - 1).0, AfterTasks(n - 1).1)
  }

  /** After `n` tasks a new user has `250 * n` XP and level `250 * n / 2500 + 1`. */
  lemma {:induction false} AfterTasksClosedForm(n: nat)
    ensures AfterTasks(n) == (XpPerTask * n, XpPerTask * n / XpPerLevel + 1)
  {
    if n > 0 {
      AfterTasksClosedForm(n - 1);
      StepKeepsLevel(AfterTasks(n - 1).0, AfterTasks(n - 1).1);
    }
  }

  /** The plain object `toJSON` returns. */
  datatype UserRecord = UserRecord(
    username: string, password: string, xp: nat, level: nat,
    tasksCompleted: seq<string>, friends: seq<string>)

  class User {
    const username: string
    const password: string
    var xp: nat
    var level: nat
    var tasksCompleted: seq<string>
    var friends: seq<string>

    /** What every method keeps: friends are distinct, and XP and level follow the number of tasks done. */
    predicate Valid()
      reads this
    {
      && NoDups(friends)
      && xp == XpPerTask * |tasksCompleted|
      && level == xp / XpPerLevel + 1
    }

    constructor (username: string, password: string)
      ensures this.username == username && this.password == password
      ensures xp == 0 && level == 1 && tasksCompleted == [] && friends == []
      ensures Valid()
    {
      this.username := username;
      this.password := password;
      xp, level := 0, 1;
      tasksCompleted, friends := [], [];
    }

    /** `addFriend(friendName)`: appends the name unless it is already a friend. */
    method AddFriend(friendName: string)
      modifies this
      ensures friends == if friendName in old(friends) then old(friends) else old(friends) + [friendName]
      ensures friendName in friends
      ensures xp == old(xp) && level == old(level) && tasksCompleted == old(tasksCompleted)
      ensures old(Valid()) ==> Valid()
    {
      if friendName !in friends {
        friends := friends + [friendName];
      }
    }

    /** `completeTask(task)`. */
    method CompleteTask(task: string)
      modifies this
      ensures tasksCompleted == old(tasksCompleted) + [task]
      ensures (xp, level) == Step(old(xp), old(level))
      ensures friends == old(friends)
      ensures old(Valid()) ==> Valid()
    {
      tasksCompleted := tasksCompleted + [task];
      xp := xp + XpPerTask;
      if xp >= level * XpPerLevel {
        level := level + 1;
      }
      if old(Valid()) {
        StepKeepsLevel(old(xp), old(level));
      }
    }

    /** `toJSON()`: the six fields with their current values. */
    function ToJson(): (r: UserRecord)
      reads this
      ensures r.username == username && r.password == password
      ensures r.xp == xp && r.level == level && r.tasksCompleted == tasksCompleted && r.friends == friends
      ensures Valid() ==> NoDups(r.friends) && r.level == r.xp / XpPerLevel + 1
    {
      UserRecord(username, password, xp, level, tasksCompleted, friends)
    }
  }

  /** Adding the same friend twice is the same as adding once. */
  method AddFriendTwice(u: User, friendName: string)
    modifies u
    ensures u.friends == if friendName in old(u.friends) then old(u.friends) else old(u.friends) + [friendName]
  {
    u.AddFriend(friendName);
    u.AddFriend(friendName);
  }
}
