/**
 * The user controller: log-in and registration against the `emails` set, the
 * cached profile reads, the two update paths and deletion.
 */
module Users {
  import opened Wrappers
  import opened JsObjects
  import opened Models
  import opened Redis
  import Codec

  const UserNotExists := "User not exists"
  const InvalidCredentials := "Invalid email or password"
  const UserExists := "User already exists"
  const UserNotFound := "User not found"
  const AdminNotDeletable := "Can not delete admin user"
  const UserRemoved := "User removed"

  /** `user:<id>`, the cache key of a user. */
  function UserKey(id: string): (k: string)
    ensures |k| == 5 + |id| && k[..5] == "user:" && k[5..] == id
  {
    "user:" + id
  }

  /** No user key names the e-mail set or the rating index. */
  lemma UserKeyIsNotSpecial(id: string)
    ensures UserKey(id) != "emails" && UserKey(id) != "productsSortedByRating"
  {
    assert UserKey(id)[0] == 'u';
  }

  /** `User.findOne({ email })`: the first user in natural order with that e-mail. */
  function FindByEmail(users: Obj<User>, email: string): (r: Option<(string, User)>)
    ensures r.Some? ==> r.value in users && r.value.1.email == email
    ensures r.None? <==> forall i :: 0 <= i < |users| ==> users[i].1.email != email
    ensures r.Some? ==> exists i :: (0 <= i < |users| && users[i] == r.value
      && forall j :: 0 <= j < i ==> users[j].1.email != email)
  {
    if users == [] then None
    else if users[0].1.email == email then Some(users[0])
    else
      var r := FindByEmail(users[1..], email);
      assert forall i :: 1 <= i < |users| ==> users[i] == users[1..][i - 1];
      if r.Some? then
        assert exists i :: (1 <= i < |users| && users[i] == r.value
          && forall j :: 0 <= j < i ==> users[j].1.email != email) by {
          var i :| 0 <= i < |users[1..]| && users[1..][i] == r.value
            && forall j :: 0 <= j < i ==> users[1..][j].1.email != email;
          assert users[i + 1] == r.value;
          forall j | 0 <= j < i + 1 ensures users[j].1.email != email {
            if j > 0 {
              assert users[j] == users[1..][j - 1];
            }
          }
        }
        r
      else r
  }

  /** A user appended after every user with a different e-mail is the one found. */
  lemma {:induction false} FindByEmailAppended(users: Obj<User>, id: string, u: User)
    requires forall i :: 0 <= i < |users| ==> users[i].1.email != u.email
    ensures FindByEmail(users + [(id, u)], u.email) == Some((id, u))
  {
    var all := users + [(id, u)];
    var r := FindByEmail(all, u.email);
    assert all[|users|].1.email == u.email;
    assert r.Some?;
    assert forall j :: 0 <= j < |users| ==> all[j].1.email != u.email;
    var i :| 0 <= i < |all| && all[i] == r.value && forall j :: 0 <= j < i ==> all[j].1.email != u.email;
    assert i == |users|;
  }

  /* ---------------- log-in and registration ---------------- */

  /** `authUser`: an e-mail missing from `emails` is refused before the store
      is read; otherwise the first user with the e-mail must match the password. */
  function AuthUser(emails: set<string>, users: Obj<User>, rt: Platform, email: string, password: string)
    : (r: Reply)
    ensures email !in emails ==> r == Unauthorized(UserNotExists)
    ensures r.Ok? <==> email in emails && FindByEmail(users, email).Some?
                       && rt.matchPassword(password, FindByEmail(users, email).value.1.password)
    ensures r.Ok? ==> r == Ok(Object(PublicUser(FindByEmail(users, email).value.0, FindByEmail(users, email).value.1)))
    ensures !r.Ok? ==> r.Unauthorized?
  {
    if email !in emails then Unauthorized(UserNotExists)
    else
      match FindByEmail(users, email)
      case Some((id, u)) =>
        if rt.matchPassword(password, u.password) then Ok(Object(PublicUser(id, u)))
        else Unauthorized(InvalidCredentials)
      case None => Unauthorized(InvalidCredentials)
  }

  /** The user a registration creates; an absent `isAdmin` takes the schema
      default, false. */
  function NewUser(name: string, email: string, password: string, isAdmin: Option<bool>): User {
    User(name, email, password, isAdmin.GetOr(false))
  }

  /** `registerUser` as a function of the store, the hashes and the `emails` set. */
  function Register(users: Obj<User>, hashes: map<string, Obj<string>>, emails: set<string>,
                    stringify: Json -> string, name: string, email: string, password: string,
                    isAdmin: Option<bool>, newId: string)
    : (Obj<User>, map<string, Obj<string>>, set<string>, Reply)
  {
    if email in emails then (users, hashes, emails, BadRequest(UserExists))
    else
      var u := NewUser(name, email, password, isAdmin);
      var key := UserKey(newId);
      (users + [(newId, u)],
       hashes[key := MergeFlat(HashAt(hashes, key), Codec.Flat(UserObject(newId, u), stringify))],
       emails + {email},
       Created(Object(PublicUser(newId, u) + [("password", Str(u.password))])))
  }

  /** `registerUser`; `newId` is the id the store assigns. */
  method RegisterUser(db: Db, cache: Cache, rt: Platform, name: string, email: string, password: string,
                      isAdmin: Option<bool>, newId: string)
    returns (reply: Reply)
    requires db.Valid() && cache.Valid() && !HasKey(db.users, newId)
    modifies db, cache
    ensures db.Valid() && cache.Valid()
    ensures (db.users, cache.hashes, cache.emails, reply)
      == Register(old(db.users), old(cache.hashes), old(cache.emails), rt.stringify, name, email, password, isAdmin, newId)
    ensures db.products == old(db.products) && db.orders == old(db.orders)
    ensures cache.values == old(cache.values) && cache.ranking == old(cache.ranking) && cache.locks == old(cache.locks)
  {
    if email in cache.emails {
      return BadRequest(UserExists);
    }
    var user := NewUser(name, email, password, isAdmin);
    UniqueConcat(db.users, [(newId, user)]);
    db.users := db.users + [(newId, user)];
    cache.SAddEmail(email);
    HSetObject(cache, UserKey(newId), UserObject(newId, user), rt.stringify);
    reply := Created(Object(PublicUser(newId, user) + [("password", Str(user.password))]));
  }

  /** A registered user can log in with the password given at registration,
      and a second registration with the same e-mail is refused. */
  lemma RegisterThenAuthenticate(users: Obj<User>, hashes: map<string, Obj<string>>, emails: set<string>,
                                 rt: Platform, name: string, email: string, password: string,
                                 isAdmin: Option<bool>, newId: string, otherId: string)
    requires email !in emails
    requires forall i :: 0 <= i < |users| ==> users[i].1.email != email
    requires rt.matchPassword(password, password)
    ensures var (users', hashes', emails', _) := Register(users, hashes, emails, rt.stringify, name, email, password, isAdmin, newId);
      && AuthUser(emails', users', rt, email, password) == Ok(Object(PublicUser(newId, NewUser(name, email, password, isAdmin))))
      && Register(users', hashes', emails', rt.stringify, name, email, password, isAdmin, otherId)
           == (users', hashes', emails', BadRequest(UserExists))
  {
    FindByEmailAppended(users, newId, NewUser(name, email, password, isAdmin));
  }

  /* ---------------- cached reads ---------------- */

  /** The fields of `o` named in `keys`, in the order of `keys`; absent ones
      are dropped, as `JSON.stringify` drops `undefined`. */
  function PickKeys(o: Obj<Json>, keys: seq<string>): (r: Obj<Json>)
    ensures forall k :: HasKey(r, k) ==> k in keys && HasKey(o, k)
    ensures forall i :: 0 <= i < |r| ==> Lookup(o, r[i].0) == Some(r[i].1)
  {
    if keys == [] then []
    else
      var rest := PickKeys(o, keys[1..]);
      var head := if HasKey(o, keys[0]) then [(keys[0], Lookup(o, keys[0]).value)] else [];
      forall k | HasKey(head + rest, k) ensures k in keys && HasKey(o, k) {
        var i :| 0 <= i < |head + rest| && (head + rest)[i].0 == k;
        if i >= |head| {
          assert rest[i - |head|].0 == k;
        }
      }
      forall i | 0 <= i < |head + rest| ensures Lookup(o, (head + rest)[i].0) == Some((head + rest)[i].1) {
        if i >= |head| {
          assert (head + rest)[i] == rest[i - |head|];
        }
      }
      head + rest
  }

  /** `{ _id, name, email, isAdmin }` of a decoded user; never the password. */
  function PickPublic(o: Obj<Json>): (r: Obj<Json>)
    ensures !HasKey(r, "password")
  {
    PickKeys(o, ["_id", "name", "email", "isAdmin"])
  }

  /** Picking the public fields of a stored user's `toObject()` is its public view. */
  lemma PickPublicOfUser(id: string, u: User)
    ensures PickPublic(UserObject(id, u)) == PublicUser(id, u)
  {
    var o := UserObject(id, u);
    assert o[0] == ("_id", Str(id)) && o[1] == ("name", Str(u.name));
    assert o[2] == ("email", Str(u.email)) && o[4] == ("isAdmin", Bool(u.isAdmin));
    LookupUnique(o, 0);
    LookupUnique(o, 1);
    LookupUnique(o, 2);
    LookupUnique(o, 4);
    PickFour(o, "_id", "name", "email", "isAdmin", Str(id), Str(u.name), Str(u.email), Bool(u.isAdmin));
  }

  /** Picking four keys the object holds gives them in that order, with their values. */
  lemma PickFour(o: Obj<Json>, a: string, b: string, c: string, d: string, va: Json, vb: Json, vc: Json, vd: Json)
    requires Lookup(o, a) == Some(va) && Lookup(o, b) == Some(vb)
    requires Lookup(o, c) == Some(vc) && Lookup(o, d) == Some(vd)
    ensures PickKeys(o, [a, b, c, d]) == [(a, va), (b, vb), (c, vc), (d, vd)]
  {
    var k3: seq<string> := [];
    var k2 := [d] + k3;
    var k1 := [c] + k2;
    var k0 := [b] + k1;
    PickKeysCons(o, d, k3, vd);
    PickKeysCons(o, c, k2, vc);
    PickKeysCons(o, b, k1, vb);
    PickKeysCons(o, a, k0, va);
    assert [a] + k0 == [a, b, c, d];
    assert PickKeys(o, k3) == [];
  }

  /** A key the object holds is picked with its value, ahead of the rest. */
  lemma PickKeysCons(o: Obj<Json>, k: string, keys: seq<string>, v: Json)
    requires Lookup(o, k) == Some(v)
    ensures PickKeys(o, [k] + keys) == [(k, v)] + PickKeys(o, keys)
  {
    assert ([k] + keys)[0] == k && ([k] + keys)[1..] == keys;
  }

  /** `getUserProfile` as a function of the cache and the store: a non-empty
      cached hash is read back and its public fields sent; on a miss the store
      is read and nothing is written back. */
  function UserProfile(how: Reading, hashes: map<string, Obj<string>>, users: Obj<User>, rt: Platform,
                       userId: string): (r: Reply)
    ensures HashAt(hashes, UserKey(userId)) == [] ==>
      r == (if HasKey(users, userId) then Ok(Object(PublicUser(userId, Lookup(users, userId).value)))
            else NotFound(UserNotFound))
    ensures HashAt(hashes, UserKey(userId)) != [] ==> r.Ok? || r == ServerError(InvalidJson)
    ensures r.Ok? ==> r.body.Object? && !HasKey(r.body.fields, "password")
  {
    var h := HashAt(hashes, UserKey(userId));
    if h != [] then
      match ReadCached(how, h, rt.parse, rt.toNumber)
      case Success(user) => Ok(Object(PickPublic(user)))
      case Failure(_) => ServerError(InvalidJson)
    else
      match Lookup(users, userId)
      case Some(u) => Ok(Object(PublicUser(userId, u)))
      case None => NotFound(UserNotFound)
  }

  /** As written, a user cached at registration reads back as `{}`, so the
      profile sent is `{}`: every public field is `undefined` and is left out. */
  lemma RegisteredProfileReadsEmpty(hashes: map<string, Obj<string>>, users: Obj<User>, rt: Platform,
                                    id: string, u: User)
    requires HashAt(hashes, UserKey(id)) == MapValues(UserObject(id, u), rt.stringify)
    ensures UserProfile(AsWritten, hashes, users, rt, id) == Ok(Object([]))
  {
    MapValuesKeys(UserObject(id, u), rt.stringify, "length");
    assert PickPublic([]) == [];
  }

  /** With the corrected reading, a user cached at registration reads back as
      its public view. */
  lemma RegisteredProfileIsCachedCorrected(hashes: map<string, Obj<string>>, users: Obj<User>, rt: Platform,
                                           id: string, u: User)
    requires HashAt(hashes, UserKey(id)) == MapValues(UserObject(id, u), rt.stringify)
    requires Codec.JsonRoundTrips(UserObject(id, u), rt.stringify, rt.parse)
    ensures UserProfile(Corrected, hashes, users, rt, id) == Ok(Object(PublicUser(id, u)))
  {
    FreshlyCached(UserObject(id, u), rt.stringify, rt.parse);
    PickPublicOfUser(id, u);
  }

  /** `getUserById` as a function of the cache and the store: a cached user is
      sent as it reads back, a user from the store without its password. */
  function UserById(how: Reading, hashes: map<string, Obj<string>>, users: Obj<User>, rt: Platform,
                    userId: string): (r: Reply)
    ensures HashAt(hashes, UserKey(userId)) == [] ==>
      r == (if HasKey(users, userId) then Ok(Object(Remove(UserObject(userId, Lookup(users, userId).value), "password")))
            else NotFound(UserNotFound))
    ensures HashAt(hashes, UserKey(userId)) == [] && r.Ok? ==> !HasKey(r.body.fields, "password")
  {
    var h := HashAt(hashes, UserKey(userId));
    if h != [] then
      match ReadCached(how, h, rt.parse, rt.toNumber)
      case Success(user) => Ok(Object(user))
      case Failure(_) => ServerError(InvalidJson)
    else
      match Lookup(users, userId)
      case Some(u) => Ok(Object(Remove(UserObject(userId, u), "password")))
      case None => NotFound(UserNotFound)
  }

  /** As written, `getUserById` right after a registration hits the hash the
      registration cached and sends `{}`. */
  lemma UserByIdAfterRegisterIsEmpty(users: Obj<User>, hashes: map<string, Obj<string>>, emails: set<string>,
                                     rt: Platform, name: string, email: string, password: string,
                                     isAdmin: Option<bool>, newId: string)
    requires email !in emails && UserKey(newId) !in hashes
    ensures var (users', hashes', _, _) := Register(users, hashes, emails, rt.stringify, name, email, password, isAdmin, newId);
      UserById(AsWritten, hashes', users', rt, newId) == Ok(Object([]))
  {
    var o := UserObject(newId, NewUser(name, email, password, isAdmin));
    FreshlyCached(o, rt.stringify, rt.parse);
    MapValuesKeys(o, rt.stringify, "length");
  }

  /** With the corrected reading, the cached copy a registration writes
      includes the password, so `getUserById` would send it on a cache hit
      although the store path removes it. */
  lemma UserByIdShowsCachedPasswordCorrected(users: Obj<User>, hashes: map<string, Obj<string>>, emails: set<string>,
                                             rt: Platform, name: string, email: string, password: string,
                                             isAdmin: Option<bool>, newId: string)
    requires email !in emails && UserKey(newId) !in hashes
    requires Codec.JsonRoundTrips(UserObject(newId, NewUser(name, email, password, isAdmin)), rt.stringify, rt.parse)
    ensures var (users', hashes', _, _) := Register(users, hashes, emails, rt.stringify, name, email, password, isAdmin, newId);
      var r := UserById(Corrected, hashes', users', rt, newId);
      r.Ok? && r.body.Object? && Lookup(r.body.fields, "password") == Some(Str(password))
  {
    var u := NewUser(name, email, password, isAdmin);
    var o := UserObject(newId, u);
    FreshlyCached(o, rt.stringify, rt.parse);
    assert o[3] == ("password", Str(password));
    assert Lookup(o, "password") == Some(Str(password));
  }

  /* ---------------- updates ---------------- */

  /** The profile edits: `name` and `email` fall back when absent or empty,
      and the password changes only when a non-empty one is given. */
  function ProfileEdit(u: User, name: Option<string>, email: Option<string>, password: Option<string>): (r: User)
    ensures r.isAdmin == u.isAdmin
    ensures password.Some? && password.value != "" ==> r.password == password.value
    ensures password.None? || password.value == "" ==> r.password == u.password
    ensures name.None? || name.value == "" ==> r.name == u.name
    ensures name.Some? && name.value != "" ==> r.name == name.value
    ensures email.None? || email.value == "" ==> r.email == u.email
    ensures email.Some? && email.value != "" ==> r.email == email.value
  {
    u.(name := OrElse(name, u.name), email := OrElse(email, u.email), password := OrElse(password, u.password))
  }

  /** `updateUserProfile` as a function of the store and the hashes: the
      cached copy is written without the password field. */
  function UpdateProfile(users: Obj<User>, hashes: map<string, Obj<string>>, stringify: Json -> string,
                         userId: string, name: Option<string>, email: Option<string>, password: Option<string>)
    : (Obj<User>, map<string, Obj<string>>, Reply)
  {
    match Lookup(users, userId)
    case None => (users, hashes, NotFound(UserNotFound))
    case Some(u) =>
      var v := ProfileEdit(u, name, email, password);
      var key := UserKey(userId);
      (Put(users, userId, v),
       hashes[key := MergeFlat(HashAt(hashes, key), Codec.Flat(Remove(UserObject(userId, v), "password"), stringify))],
       Ok(Object(PublicUser(userId, v))))
  }

  /** `updateUserProfile`. */
  method UpdateUserProfile(db: Db, cache: Cache, rt: Platform, userId: string,
                           name: Option<string>, email: Option<string>, password: Option<string>)
    returns (reply: Reply)
    requires db.Valid() && cache.Valid()
    modifies db, cache
    ensures db.Valid() && cache.Valid()
    ensures (db.users, cache.hashes, reply) == UpdateProfile(old(db.users), old(cache.hashes), rt.stringify, userId, name, email, password)
    ensures cache.emails == old(cache.emails)
    ensures db.products == old(db.products) && db.orders == old(db.orders)
    ensures cache.values == old(cache.values) && cache.ranking == old(cache.ranking) && cache.locks == old(cache.locks)
  {
    var found := Lookup(db.users, userId);
    if found.None? {
      return NotFound(UserNotFound);
    }
    var user := ProfileEdit(found.value, name, email, password);
    PutKeys(db.users, userId, user);
    db.users := Put(db.users, userId, user);
    var withoutPassword := Remove(UserObject(userId, user), "password");
    assert withoutPassword != [] by {
      assert HasKey(UserObject(userId, user), "_id");
    }
    HSetObject(cache, UserKey(userId), withoutPassword, rt.stringify);
    reply := Ok(Object(PublicUser(userId, user)));
  }

  /** The key positions of a flattened object never name a field it lacks. */
  lemma FlatLacks<V>(obj: Obj<V>, f: V -> string, field: string)
    requires !HasKey(obj, field)
    ensures forall j :: 0 <= j < |Codec.Flat(obj, f)| && j % 2 == 0 ==> Codec.Flat(obj, f)[j] != field
  {
    var a := Codec.Flat(obj, f);
    forall j | 0 <= j < |a| && j % 2 == 0 ensures a[j] != field {
      var k := j / 2;
      assert j == 2 * k;
      assert a[2 * k] == obj[k].0;
    }
  }

  /** `HSET` merges, so a profile update leaves the password field an earlier
      write cached (the registration writes one) in the user's hash. */
  lemma ProfileUpdateKeepsCachedPassword(users: Obj<User>, hashes: map<string, Obj<string>>, stringify: Json -> string,
                                         userId: string, name: Option<string>, email: Option<string>, password: Option<string>)
    ensures var hashes' := UpdateProfile(users, hashes, stringify, userId, name, email, password).1;
      Lookup(HashAt(hashes', UserKey(userId)), "password") == Lookup(HashAt(hashes, UserKey(userId)), "password")
  {
    var found := Lookup(users, userId);
    if found.Some? {
      var v := ProfileEdit(found.value, name, email, password);
      var obj := Remove(UserObject(userId, v), "password");
      FlatLacks(obj, stringify, "password");
      MergeFromKeeps(HashAt(hashes, UserKey(userId)), Codec.Flat(obj, stringify), 0, "password");
    }
  }

  /** A user who changes their e-mail to an address not in `emails` is locked
      out: profile updates never add to `emails`, so the new address is refused
      before the store is read, and no stored user has the old address any
      more. */
  lemma ChangedEmailLocksOut(users: Obj<User>, hashes: map<string, Obj<string>>, emails: set<string>,
                             rt: Platform, userId: string, name: Option<string>, newEmail: string,
                             password: Option<string>, given: string)
    requires UniqueKeys(users) && HasKey(users, userId)
    requires newEmail != "" && newEmail !in emails
    requires forall i :: 0 <= i < |users| && users[i].0 != userId ==> users[i].1.email != Lookup(users, userId).value.email
    ensures var users' := UpdateProfile(users, hashes, rt.stringify, userId, name, Some(newEmail), password).0;
      var oldEmail := Lookup(users, userId).value.email;
      && Lookup(users', userId).Some? && Lookup(users', userId).value.email == newEmail
      && AuthUser(emails, users', rt, newEmail, given) == Unauthorized(UserNotExists)
      && !AuthUser(emails, users', rt, oldEmail, given).Ok?
  {
    var u := Lookup(users, userId).value;
    var v := ProfileEdit(u, name, Some(newEmail), password);
    var users' := UpdateProfile(users, hashes, rt.stringify, userId, name, Some(newEmail), password).0;
    assert users' == Put(users, userId, v);
    PutLookup(users, userId, v);
    if u.email in emails {
      var i :| 0 <= i < |users| && users[i].0 == userId;
      PutAt(users, userId, v, i);
      assert users' == users[i := (userId, v)];
      forall j | 0 <= j < |users'| ensures users'[j].1.email != u.email {
        if j != i {
          assert users'[j] == users[j] && users[j].0 != userId;
        }
      }
      assert FindByEmail(users', u.email).None?;
    }
    assert AuthUser(emails, users', rt, newEmail, given) == Unauthorized(UserNotExists);
  }

  /** The admin edits: `name` and `email` fall back, and `isAdmin` is
      `Boolean(req.body.isAdmin)`, so an absent flag revokes admin rights. */
  function AdminEdit(u: User, name: Option<string>, email: Option<string>, isAdmin: Option<Json>): (r: User)
    ensures r.password == u.password
    ensures r.isAdmin == Truthy(isAdmin)
    ensures isAdmin.None? ==> !r.isAdmin
    ensures name.None? || name.value == "" ==> r.name == u.name
    ensures name.Some? && name.value != "" ==> r.name == name.value
    ensures email.None? || email.value == "" ==> r.email == u.email
    ensures email.Some? && email.value != "" ==> r.email == email.value
  {
    u.(name := OrElse(name, u.name), email := OrElse(email, u.email), isAdmin := Truthy(isAdmin))
  }

  /** `updateUser` as a function of the store and the hashes. */
  function UpdateUserOutcome(users: Obj<User>, hashes: map<string, Obj<string>>, stringify: Json -> string,
                             userId: string, name: Option<string>, email: Option<string>, isAdmin: Option<Json>)
    : (Obj<User>, map<string, Obj<string>>, Reply)
  {
    match Lookup(users, userId)
    case None => (users, hashes, NotFound(UserNotFound))
    case Some(u) =>
      var v := AdminEdit(u, name, email, isAdmin);
      var key := UserKey(userId);
      (Put(users, userId, v),
       hashes[key := MergeFlat(HashAt(hashes, key), Codec.Flat(UserObject(userId, v), stringify))],
       Ok(Object(PublicUser(userId, v))))
  }

  /** `updateUser`. */
  method UpdateUser(db: Db, cache: Cache, rt: Platform, userId: string,
                    name: Option<string>, email: Option<string>, isAdmin: Option<Json>)
    returns (reply: Reply)
    requires db.Valid() && cache.Valid()
    modifies db, cache
    ensures db.Valid() && cache.Valid()
    ensures (db.users, cache.hashes, reply) == UpdateUserOutcome(old(db.users), old(cache.hashes), rt.stringify, userId, name, email, isAdmin)
    ensures cache.emails == old(cache.emails)
    ensures db.products == old(db.products) && db.orders == old(db.orders)
    ensures cache.values == old(cache.values) && cache.ranking == old(cache.ranking) && cache.locks == old(cache.locks)
  {
    var found := Lookup(db.users, userId);
    if found.None? {
      return NotFound(UserNotFound);
    }
    var user := AdminEdit(found.value, name, email, isAdmin);
    PutKeys(db.users, userId, user);
    db.users := Put(db.users, userId, user);
    HSetObject(cache, UserKey(userId), UserObject(userId, user), rt.stringify);
    reply := Ok(Object(PublicUser(userId, user)));
  }

  /** An admin update over a hash with the `toObject()` layout rewrites every
      field, so the cache then reads as the updated user. */
  lemma UpdateUserRewritesCache(users: Obj<User>, hashes: map<string, Obj<string>>, stringify: Json -> string,
                                userId: string, name: Option<string>, email: Option<string>, isAdmin: Option<Json>,
                                u: User, cached: User)
    requires Lookup(users, userId) == Some(u)
    requires HashAt(hashes, UserKey(userId)) == MapValues(UserObject(userId, cached), stringify)
    ensures var hashes' := UpdateUserOutcome(users, hashes, stringify, userId, name, email, isAdmin).1;
      HashAt(hashes', UserKey(userId)) == MapValues(UserObject(userId, AdminEdit(u, name, email, isAdmin)), stringify)
  {
    var v := AdminEdit(u, name, email, isAdmin);
    assert SameKeyOrder(HashAt(hashes, UserKey(userId)), UserObject(userId, v));
    MergeOverSameKeys(HashAt(hashes, UserKey(userId)), UserObject(userId, v), stringify);
  }

  /* ---------------- deletion ---------------- */

  /** `deleteUser` as a function of the store and the hashes: an admin is
      never deleted. */
  function DeleteOutcome(users: Obj<User>, hashes: map<string, Obj<string>>, userId: string)
    : (Obj<User>, map<string, Obj<string>>, Reply)
  {
    match Lookup(users, userId)
    case None => (users, hashes, NotFound(UserNotFound))
    case Some(u) =>
      if u.isAdmin then (users, hashes, BadRequest(AdminNotDeletable))
      else (Remove(users, userId), hashes - {UserKey(userId)}, Ok(Message(UserRemoved)))
  }

  /** `deleteUser`. */
  method DeleteUser(db: Db, cache: Cache, userId: string) returns (reply: Reply)
    requires db.Valid() && cache.Valid()
    modifies db, cache
    ensures db.Valid() && cache.Valid()
    ensures (db.users, cache.hashes, reply) == DeleteOutcome(old(db.users), old(cache.hashes), userId)
    ensures cache.values == (if reply.Ok? then old(cache.values) - {UserKey(userId)} else old(cache.values))
    ensures cache.locks == (if reply.Ok? then old(cache.locks) - {UserKey(userId)} else old(cache.locks))
    ensures cache.emails == old(cache.emails) && cache.ranking == old(cache.ranking)
    ensures db.products == old(db.products) && db.orders == old(db.orders)
  {
    var found := Lookup(db.users, userId);
    if found.None? {
      return NotFound(UserNotFound);
    }
    if found.value.isAdmin {
      return BadRequest(AdminNotDeletable);
    }
    db.users := Remove(db.users, userId);
    UserKeyIsNotSpecial(userId);
    cache.Del(UserKey(userId));
    reply := Ok(Message(UserRemoved));
  }

  /** Deleting leaves the e-mail in `emails`: the address can neither be
      registered again nor log in (the store no longer has its user). */
  lemma DeletedEmailStaysTaken(users: Obj<User>, hashes: map<string, Obj<string>>, emails: set<string>,
                               rt: Platform, userId: string, name: string, password: string,
                               isAdmin: Option<bool>, newId: string, given: string)
    requires UniqueKeys(users) && HasKey(users, userId) && !Lookup(users, userId).value.isAdmin
    requires Lookup(users, userId).value.email in emails
    requires forall i :: 0 <= i < |users| && users[i].0 != userId ==> users[i].1.email != Lookup(users, userId).value.email
    ensures var (users', hashes', _) := DeleteOutcome(users, hashes, userId);
      var email := Lookup(users, userId).value.email;
      && Register(users', hashes', emails, rt.stringify, name, email, password, isAdmin, newId).3 == BadRequest(UserExists)
      && AuthUser(emails, users', rt, email, given) == Unauthorized(InvalidCredentials)
  {
    var u := Lookup(users, userId).value;
    var users' := Remove(users, userId);
    forall i | 0 <= i < |users'| ensures users'[i].1.email != u.email {
      var k := users'[i].0;
      assert HasKey(users', k);
      assert k != userId;
      assert Lookup(users', k) == Lookup(users, k);
      assert Lookup(users', k) == Some(users'[i].1) by {
        LookupUnique(users', i);
      }
      var j :| 0 <= j < |users| && users[j] == (k, users'[i].1);
    }
  }
}
