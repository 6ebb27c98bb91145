/** Named counters (stats.json) and the registered-user list (user.json / users.json), whose
    read-modify-write logic bot.py (increment_stat, add_user_record) and utils.py
    (update_stats, add_user) share. */
module Counters {

  /** `stats[key] = stats.get(key, 0) + amount` */
  function Increment(stats: map<string, int>, key: string, amount: int): (r: map<string, int>)
    ensures r.Keys == stats.Keys + {key}
    ensures r[key] == (if key in stats then stats[key] else 0) + amount
    ensures forall k :: k in stats && k != key ==> r[k] == stats[k]
  {
    stats[key := (if key in stats then stats[key] else 0) + amount]
  }

  /** Two increments of one counter add up; nothing else is touched. */
  lemma IncrementTwice(stats: map<string, int>, key: string, a: int, b: int)
    ensures Increment(Increment(stats, key, a), key, b) == Increment(stats, key, a + b)
  {
  }

  /** Increments of different counters commute. */
  lemma IncrementCommutes(stats: map<string, int>, k1: string, k2: string, a: int, b: int)
    ensures Increment(Increment(stats, k1, a), k2, b) == Increment(Increment(stats, k2, b), k1, a)
  {
  }
}

module Users {
  import opened Wrappers

  /** `{"id": ..., "username": ..., "first_seen": ...}` */
  datatype UserRecord = UserRecord(id: int, username: string, firstSeen: string)

  /** `any(u.get("id") == id for u in users)` */
  predicate Known(users: seq<UserRecord>, id: int)
  {
    exists i :: 0 <= i < |users| && users[i].id == id
  }

  /** Append a record for `id` unless one exists. `username or anonymous` is the stored
      name; `now` stands for the wall-clock timestamp. Also says whether it appended. */
  function AddUser(users: seq<UserRecord>, id: int, username: Option<string>, anonymous: string, now: string)
    : (r: (seq<UserRecord>, bool))
    ensures r.1 <==> !Known(users, id)
    ensures r.1 ==> r.0 == users + [UserRecord(id, if username == Some("") then anonymous else username.GetOr(anonymous), now)]
    ensures !r.1 ==> r.0 == users
    ensures Known(r.0, id)
  {
    if Known(users, id) then (users, false)
    else
      var rec := UserRecord(id, if username == Some("") then anonymous else username.GetOr(anonymous), now);
      assert (users + [rec])[|users|] == rec;
      (users + [rec], true)
  }

  /** Adding the same user twice is adding it once, whatever the second call's name and
      time. */
  lemma AddUserIdempotent(users: seq<UserRecord>, id: int, n1: Option<string>, n2: Option<string>, anonymous: string, t1: string, t2: string)
    ensures AddUser(AddUser(users, id, n1, anonymous, t1).0, id, n2, anonymous, t2) == (AddUser(users, id, n1, anonymous, t1).0, false)
  {
  }

  /** The list only grows, and earlier records are kept as they were. */
  lemma AddUserKeepsOthers(users: seq<UserRecord>, id: int, n: Option<string>, anonymous: string, t: string)
    ensures users <= AddUser(users, id, n, anonymous, t).0
    ensures |AddUser(users, id, n, anonymous, t).0| <= |users| + 1
  {
  }
}
