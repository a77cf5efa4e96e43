/**
 * The user module of the client store (`miniprogram/core/store/modules/user.js`):
 * the signed-in profile, its id, the login flag and the nearby-user list,
 * with the start-up branch that restores or creates an anonymous user.
 */
module UserStore {
  import opened Wrappers

  /** A user profile; `id` is `_id`, absent on a profile not yet stored. */
  datatype Profile = Profile(id: Option<string>, nickname: string, avatarUrl: string, isAnonymous: bool)

  /** An entry of the nearby-user list; `id` is `_id`, which may be absent. */
  datatype NearbyUser = NearbyUser(id: Option<string>, nickname: string, avatarUrl: string)

  /** `users.findIndex(u => u._id === id)`; two absent ids are equal (`undefined === undefined`). */
  function IndexOfUser(users: seq<NearbyUser>, id: Option<string>): (i: int)
    ensures -1 <= i < |users|
    ensures i == -1 <==> forall k :: 0 <= k < |users| ==> users[k].id != id
    ensures 0 <= i ==> users[i].id == id
    ensures 0 <= i ==> forall k :: 0 <= k < i ==> users[k].id != id
  {
    if users == [] then -1
    else if users[0].id == id then 0
    else
      var j := IndexOfUser(users[1..], id);
      if j == -1 then -1 else j + 1
  }

  predicate DistinctIds(users: seq<NearbyUser>) {
    forall i, j :: 0 <= i < j < |users| ==> users[i].id != users[j].id
  }

  /** `ADD_NEARBY_USER`: replace the first user with the same id in place, or append. */
  function UpsertUser(users: seq<NearbyUser>, u: NearbyUser): (r: seq<NearbyUser>)
    ensures IndexOfUser(users, u.id) >= 0 ==> r == users[IndexOfUser(users, u.id) := u]
    ensures IndexOfUser(users, u.id) == -1 ==> r == users + [u]
    ensures |users| <= |r| <= |users| + 1
    ensures u in r
  {
    var i := IndexOfUser(users, u.id);
    if i >= 0 then
      assert users[i := u][i] == u;
      users[i := u]
    else users + [u]
  }

  /** Upserting never introduces a second user with the same id. */
  lemma UpsertKeepsDistinct(users: seq<NearbyUser>, u: NearbyUser)
    requires DistinctIds(users)
    ensures DistinctIds(UpsertUser(users, u))
  {
    var r := UpsertUser(users, u);
    var i := IndexOfUser(users, u.id);
    if i == -1 {
      forall a, b | 0 <= a < b < |r|
        ensures r[a].id != r[b].id
      {
        if b == |users| {
          assert r[b] == u && r[a] == users[a];
        }
      }
    }
  }

  /** `REMOVE_NEARBY_USER`: `users.filter(u => u._id !== id)`. */
  function RemoveUser(users: seq<NearbyUser>, id: Option<string>): (r: seq<NearbyUser>)
    ensures |r| <= |users|
  {
    if users == [] then []
    else (if users[0].id != id then [users[0]] else []) + RemoveUser(users[1..], id)
  }

  /** Exactly the users without that id remain. */
  lemma {:induction false} RemoveUserMembers(users: seq<NearbyUser>, id: Option<string>)
    ensures forall u :: u in RemoveUser(users, id) <==> u in users && u.id != id
  {
    if users != [] {
      RemoveUserMembers(users[1..], id);
      assert users == [users[0]] + users[1..];
    }
  }

  /** The filter looks at the first user, then at the rest. */
  lemma RemoveUserCons(u: NearbyUser, rest: seq<NearbyUser>, id: Option<string>)
    ensures RemoveUser([u] + rest, id) == (if u.id != id then [u] else []) + RemoveUser(rest, id)
  {
    var s := [u] + rest;
    assert s[0] == u && s[1..] == rest;
  }

  /** Filtering works element by element, so the others keep their relative order. */
  lemma {:induction false} RemoveUserAppend(a: seq<NearbyUser>, b: seq<NearbyUser>, id: Option<string>)
    ensures RemoveUser(a + b, id) == RemoveUser(a, id) + RemoveUser(b, id)
  {
    if a != [] {
      var u, rest := a[0], a[1..];
      assert a == [u] + rest;
      assert a + b == [u] + (rest + b);
      RemoveUserCons(u, rest + b, id);
      RemoveUserCons(u, rest, id);
      RemoveUserAppend(rest, b, id);
    } else {
      assert a + b == b;
    }
  }

  /** Removing an id nobody has changes nothing. */
  lemma {:induction false} RemoveUserAbsent(users: seq<NearbyUser>, id: Option<string>)
    requires forall k :: 0 <= k < |users| ==> users[k].id != id
    ensures RemoveUser(users, id) == users
  {
    if users != [] {
      RemoveUserAbsent(users[1..], id);
    }
  }

  const ADJECTIVES: seq<string> := ["快乐的", "神秘的", "勇敢的", "温柔的", "聪明的"]
  const NOUNS: seq<string> := ["小鸟", "小鱼", "小猫", "小狗", "小兔"]
  const AVATAR_COLORS: seq<string> := ["#FF6B6B", "#4ECDC4", "#45B7D1", "#96CEB4", "#FFEAA7", "#DDA0DD"]

  /** `generateRandomNickname`: an adjective followed by a noun, both from the fixed lists. */
  method GenerateRandomNickname() returns (nickname: string)
    ensures exists a, n :: a in ADJECTIVES && n in NOUNS && nickname == a + n
  {
    var i :| 0 <= i < |ADJECTIVES|;
    var j :| 0 <= j < |NOUNS|;
    nickname := ADJECTIVES[i] + NOUNS[j];
    assert ADJECTIVES[i] in ADJECTIVES && NOUNS[j] in NOUNS;
  }

  /** `generateRandomAvatar`: one of the six fixed colours. */
  method GenerateRandomAvatar() returns (color: string)
    ensures color in AVATAR_COLORS
  {
    var i :| 0 <= i < |AVATAR_COLORS|;
    color := AVATAR_COLORS[i];
  }

  datatype UserFields = UserFields(
    userInfo: Option<Profile>,
    userId: Option<string>,
    isLoggedIn: bool,
    nearbyUsers: seq<NearbyUser>)

  const INITIAL: UserFields := UserFields(None, None, false, [])

  /** Which way `initUser` went. */
  datatype Start =
    | Restored(userId: string)   // a stored id was found and its profile fetched
    | Created(userId: string)    // an anonymous user was created and its id stored

  class UserState {
    var userInfo: Option<Profile>
    var userId: Option<string>
    var isLoggedIn: bool
    var nearbyUsers: seq<NearbyUser>

    function Fields(): UserFields
      reads this
    {
      UserFields(userInfo, userId, isLoggedIn, nearbyUsers)
    }

    constructor ()
      ensures Fields() == INITIAL
    {
      userInfo, userId, isLoggedIn, nearbyUsers := None, None, false, [];
    }

    /** `SET_USER_INFO`: the login flag is whether a profile is given. */
    method SetUserInfo(info: Option<Profile>)
      modifies this
      ensures isLoggedIn <==> info.Some?
      ensures Fields() == old(Fields()).(userInfo := info, isLoggedIn := info.Some?)
    {
      userInfo := info;
      isLoggedIn := info.Some?;
    }

    method SetUserId(id: Option<string>)
      modifies this
      ensures Fields() == old(Fields()).(userId := id)
    {
      userId := id;
    }

    method SetNearbyUsers(users: seq<NearbyUser>)
      modifies this
      ensures Fields() == old(Fields()).(nearbyUsers := users)
    {
      nearbyUsers := users;
    }

    method AddNearbyUser(u: NearbyUser)
      modifies this
      ensures Fields() == old(Fields()).(nearbyUsers := UpsertUser(old(nearbyUsers), u))
    {
      var i := IndexOfUser(nearbyUsers, u.id);
      if i >= 0 {
        nearbyUsers := nearbyUsers[i := u];
      } else {
        nearbyUsers := nearbyUsers + [u];
      }
    }

    method RemoveNearbyUser(id: Option<string>)
      modifies this
      ensures Fields() == old(Fields()).(nearbyUsers := RemoveUser(old(nearbyUsers), id))
    {
      nearbyUsers := RemoveUser(nearbyUsers, id);
    }

    method ClearUserData()
      modifies this
      ensures Fields() == INITIAL
    {
      userInfo, userId, isLoggedIn, nearbyUsers := None, None, false, [];
    }

    /**
     * `initUser`. `stored` is what device storage holds under 'userId' ('' when
     * absent); `fetched` is the outcome of reading that user's profile;
     * `created` the outcome of adding an anonymous user. `persist` is the id
     * written back to device storage, if any.
     */
    method InitUser(stored: string, fetched: Result<Option<Profile>>, created: Result<string>)
      returns (r: Result<Start>, persist: Option<string>)
      modifies this
      ensures stored != "" ==>
                && persist.None?
                && match fetched
                   case Err(e) => r == Err(e) && Fields() == old(Fields()).(userId := Some(stored))
                   case Ok(data) =>
                     && r == Ok(Restored(stored))
                     && Fields() == old(Fields()).(
                          userId := Some(stored),
                          userInfo := if data.Some? then data else old(userInfo),
                          isLoggedIn := if data.Some? then true else old(isLoggedIn))
      ensures stored == "" ==>
                match created
                case Err(e) => r == Err(e) && persist.None? && Fields() == old(Fields())
                case Ok(id) =>
                  && r == Ok(Created(id))
                  && persist == Some(id)
                  && userId == Some(id)
                  && isLoggedIn
                  && userInfo.Some? && userInfo.value.id == Some(id) && userInfo.value.isAnonymous
                  && userInfo.value.avatarUrl in AVATAR_COLORS
                  && (exists a, n :: a in ADJECTIVES && n in NOUNS && userInfo.value.nickname == a + n)
                  && nearbyUsers == old(nearbyUsers)
    {
      persist := None;
      if stored != "" {
        SetUserId(Some(stored));
        match fetched {
          case Err(e) =>
            return Err(e), None;
          case Ok(data) =>
            if data.Some? {
              SetUserInfo(data);
            }
            return Ok(Restored(stored)), None;
        }
      }
      var nickname := GenerateRandomNickname();
      var avatar := GenerateRandomAvatar();
      match created {
        case Err(e) =>
          return Err(e), None;
        case Ok(id) =>
          persist := Some(id);
          SetUserId(Some(id));
          SetUserInfo(Some(Profile(Some(id), nickname, avatar, true)));
          r := Ok(Created(id));
      }
    }
  }
}
