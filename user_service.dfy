/**
  services/user.service.ts: user lookups, `createUser`, the `addToFeatured` toggle and `signToken`,
  which mints both tokens and writes the session.
 */
module UserService {
  import opened Outcomes
  import opened Config
  import opened Jws
  import opened UserModel
  import opened RedisStore

  /** `excludedFields = ["password"]`: the document with its password field left out. */
  function WithoutPassword(u: UserRecord): (r: UserRecord)
    ensures r.password == None
    ensures r.(password := u.password) == u
  {
    u.(password := None)
  }

  /** The index of the first document satisfying `p`, as `findOne` returns the first in natural order. */
  function IndexWhere(rs: seq<UserRecord>, p: UserRecord -> bool): (r: Option<nat>)
    ensures r.Some? ==> r.value < |rs| && p(rs[r.value]) && forall j :: 0 <= j < r.value ==> !p(rs[j])
    ensures r.None? ==> forall j :: 0 <= j < |rs| ==> !p(rs[j])
  {
    if |rs| == 0 then None
    else if p(rs[0]) then Some(0)
    else match IndexWhere(rs[1..], p)
      case None => None
      case Some(i) => Some(i + 1)
  }

  /** `findUserById(id)`: `findById(id).lean()`, which leaves out the `select: false` password. */
  function FindUserById(rs: seq<UserRecord>, id: string): (r: Option<UserRecord>)
    ensures r.None? <==> forall j :: 0 <= j < |rs| ==> rs[j].oid != id
    ensures r.Some? ==> (r.value.oid == id && r.value.password == None
      && exists j :: 0 <= j < |rs| && rs[j] == r.value.(password := rs[j].password))
  {
    match IndexWhere(rs, (u: UserRecord) => u.oid == id)
    case None => None
    case Some(i) => Some(WithoutPassword(rs[i]))
  }

  /** `findUserByField({ email })`: `findOne(...).select("+password")`, which includes the password hash. */
  function FindUserByEmail(rs: seq<UserRecord>, email: string): (r: Option<UserRecord>)
    ensures r.None? <==> forall j :: 0 <= j < |rs| ==> rs[j].email != email
    ensures r.Some? ==> r.value.email == email && r.value in rs
  {
    match IndexWhere(rs, (u: UserRecord) => u.email == email)
    case None => None
    case Some(i) => Some(rs[i])
  }

  /** `createUser(input)`: the stored document, returned with its password field removed. */
  method CreateUser(users: Users, input: NewUser, oid: string, hash: string -> string)
    returns (r: Result<UserRecord, DbError>)
    requires users.Valid()
    requires forall i :: 0 <= i < |users.records| ==> users.records[i].oid != oid
    modifies users
    ensures users.Valid()
    ensures r.Ok? ==> (users.records == old(users.records) + [NewDocument(input, oid, hash)]
      && r.value == WithoutPassword(NewDocument(input, oid, hash)))
    ensures r.Err? ==> users.records == old(users.records)
    ensures r.Ok? <==> old(users.reachable) && PassesValidation(input) && !Conflicts(old(users.records), input)
    ensures r.Err? ==> (r.error == DuplicateKey <==>
      old(users.reachable) && PassesValidation(input) && Conflicts(old(users.records), input))
  {
    var created := users.Create(input, oid, hash);
    match created
    case Ok(d) => r := Ok(WithoutPassword(d));
    case Err(e) => r := Err(e);
  }

  // ---------------------------------------------------------------------------------------------
  // addToFeatured

  /** `list.indexOf(x)`: the first index holding `x`, or -1. */
  function IndexOf(s: seq<string>, x: string): (i: int)
    ensures -1 <= i < |s|
    ensures i == -1 <==> x !in s
    ensures i >= 0 ==> s[i] == x && x !in s[..i]
  {
    if |s| == 0 then -1
    else if s[0] == x then 0
    else
      var j := IndexOf(s[1..], x);
      if j == -1 then -1
      else
        assert s[..j + 1] == [s[0]] + s[1..][..j];
        j + 1
  }

  /** The featured list after the toggle: push `x` when absent, otherwise splice out its first occurrence. */
  function Toggle(s: seq<string>, x: string): seq<string> {
    var i := IndexOf(s, x);
    if i == -1 then s + [x] else s[..i] + s[i + 1..]
  }

  predicate NoDuplicates(s: seq<string>) {
    forall i, j :: 0 <= i < j < |s| ==> s[i] != s[j]
  }

  /** An absent id is appended at the end and nothing else changes. */
  lemma ToggleAbsent(s: seq<string>, x: string)
    requires x !in s
    ensures Toggle(s, x) == s + [x]
  {
  }

  /**
    A present id loses exactly its first occurrence: the elements before it and after it stay, in order,
    so the list shrinks by one and `x` occurs once fewer.
   */
  lemma TogglePresent(s: seq<string>, x: string)
    requires x in s
    ensures var i := IndexOf(s, x);
      0 <= i < |s| && s[i] == x && x !in s[..i] && Toggle(s, x) == s[..i] + s[i + 1..]
    ensures |Toggle(s, x)| == |s| - 1
    ensures multiset(Toggle(s, x)) == multiset(s) - multiset{x}
  {
    var i := IndexOf(s, x);
    assert s == s[..i] + [x] + s[i + 1..];
    calc {
      multiset(s);
      multiset(s[..i]) + multiset{x} + multiset(s[i + 1..]);
      multiset(s[..i] + s[i + 1..]) + multiset{x};
    }
  }

  /** Starting from a list without the id, two toggles give the original list back. */
  lemma ToggleTwiceAbsent(s: seq<string>, x: string)
    requires x !in s
    ensures Toggle(Toggle(s, x), x) == s
  {
    var t := s + [x];
    assert IndexOf(t, x) == |s| by {
      assert t[|s|] == x && t[..|s|] == s;
    }
    assert t[..|s|] == s;
  }

  /**
    Starting from a duplicate-free list that holds the id, two toggles move the id to the end:
    the contents come back (as a multiset), the order not necessarily.
   */
  lemma ToggleTwicePresent(s: seq<string>, x: string)
    requires NoDuplicates(s) && x in s
    ensures var i := IndexOf(s, x); Toggle(Toggle(s, x), x) == s[..i] + s[i + 1..] + [x]
    ensures multiset(Toggle(Toggle(s, x), x)) == multiset(s)
  {
    var i := IndexOf(s, x);
    var t := s[..i] + s[i + 1..];
    TogglePresent(s, x);
    SpliceRemovesOnly(s, i);
    ToggleAbsent(t, x);
    assert multiset(t + [x]) == multiset(t) + multiset{x};
  }

  /** For a duplicate-free list that holds the id, two toggles restore the list exactly when the id is last. */
  lemma ToggleTwiceRestoresIffLast(s: seq<string>, x: string)
    requires NoDuplicates(s) && x in s
    ensures Toggle(Toggle(s, x), x) == s <==> s[|s| - 1] == x
  {
    var i := IndexOf(s, x);
    ToggleTwicePresent(s, x);
    var r := s[..i] + s[i + 1..] + [x];
    assert r[|r| - 1] == x && |r| == |s|;
    if s[|s| - 1] == x {
      OnlyOccurrence(s, i, |s| - 1);
      assert s[..i] + s[i + 1..] == s[..|s| - 1];
    }
  }

  /** In a list without duplicates two indices holding the same element are the same index. */
  lemma OnlyOccurrence(s: seq<string>, i: nat, j: nat)
    requires NoDuplicates(s) && i < |s| && j < |s| && s[i] == s[j]
    ensures i == j
  {
  }

  /** In a list without duplicates, splicing out index `i` leaves no copy of the element that was there. */
  lemma SpliceRemovesOnly(s: seq<string>, i: nat)
    requires NoDuplicates(s) && i < |s|
    ensures s[i] !in s[..i] + s[i + 1..]
  {
    var t := s[..i] + s[i + 1..];
    forall k | 0 <= k < |t| ensures t[k] != s[i] {
      if k < i {
        assert t[k] == s[k];
      } else {
        assert t[k] == s[k + 1];
      }
    }
  }

  /** With the id in the middle, the second toggle does not restore the list. */
  lemma ToggleTwiceReorders()
    ensures Toggle(Toggle(["a", "b", "c"], "b"), "b") == ["a", "c", "b"]
  {
    assert IndexOf(["a", "b", "c"], "b") == 1;
    var t := ["a", "b", "c"][..1] + ["a", "b", "c"][2..];
    assert t == ["a", "c"];
    assert IndexOf(t, "b") == -1;
  }

  /**
    `addToFeatured(email, propertyId)`: find the first user with that email; if there is none return
    null and change nothing, otherwise toggle the id in that user's `featured` and `save` the document.
   */
  method AddToFeatured(users: Users, email: string, propertyId: string)
    returns (r: Result<Option<UserRecord>, DbError>)
    requires users.Valid()
    modifies users
    ensures users.Valid() && users.reachable == old(users.reachable)
    ensures r.Err? <==> !old(users.reachable)
    ensures r.Err? || r == Ok(None) ==> users.records == old(users.records)
    ensures r == Ok(None) <==> old(users.reachable) && forall j :: 0 <= j < |old(users.records)| ==> old(users.records)[j].email != email
    ensures r.Ok? && r.value.Some? ==>
      exists i :: 0 <= i < |old(users.records)| && old(users.records)[i].email == email
        && (forall j :: 0 <= j < i ==> old(users.records)[j].email != email)
        && users.records == old(users.records)[i := old(users.records)[i].(featured := Toggle(old(users.records)[i].featured, propertyId))]
        && r.value.value == WithoutPassword(users.records[i])
  {
    if !users.reachable {
      return Err(Unreachable);
    }
    var found := IndexWhere(users.records, (u: UserRecord) => u.email == email);
    if found.None? {
      return Ok(None);
    }
    var i := found.value;
    var user := users.records[i];
    var featured := user.featured;
    var featuredIndex := IndexOf(featured, propertyId);
    if featuredIndex == -1 {
      featured := featured + [propertyId];
    } else {
      featured := featured[..featuredIndex] + featured[featuredIndex + 1..];
    }
    var saved := user.(featured := featured);
    users.records := users.records[i := saved];
    r := Ok(Some(WithoutPassword(saved)));
  }

  // ---------------------------------------------------------------------------------------------
  // signToken

  /** The session time to live, `EX: 60 * 60` seconds. */
  const SessionTtl: nat := 60 * 60

  datatype Tokens = Tokens(access: string, refresh: string)

  /** The two tokens `signToken` mints for `user` at time `now`. */
  function IssuedTokens(codec: Codec, user: UserRecord, now: int): Tokens {
    Tokens(codec.sign(user.oid, Access, now, AccessTokenExpiresIn),
           codec.sign(user.oid, Refresh, now, RefreshTokenExpiresIn))
  }

  /**
    Both tokens carry `sub` = the user's id: each verifies to it under the public key of its own kind,
    and neither verifies under the other kind's key.
   */
  lemma IssuedTokensCarrySubject(codec: Codec, user: UserRecord, now: int, later: int)
    requires Sound(codec)
    ensures var t := IssuedTokens(codec, user, now);
      && codec.verify(t.access, Access, now) == Some(user.oid)
      && codec.verify(t.refresh, Refresh, now) == Some(user.oid)
      && codec.verify(t.access, Refresh, later) == None
      && codec.verify(t.refresh, Access, later) == None
      && t.access != "" && t.refresh != ""
  {
    assert Other(Access) == Refresh && Other(Refresh) == Access;
  }

  /** The session `signToken` writes: the serialized user under its id, for `SessionTtl` seconds from `now`. */
  function SessionEntry(user: UserRecord, now: int): Entry {
    Entry(Json(user), now + SessionTtl * 1000)
  }

  /** A second login overwrites the first session: one live entry per user, the later one. */
  lemma OneSessionPerUser(entries: map<string, Entry>, user: UserRecord, first: int, second: int)
    ensures var after := entries[user.oid := SessionEntry(user, first)][user.oid := SessionEntry(user, second)];
      && after.Keys == entries.Keys + {user.oid}
      && after[user.oid] == SessionEntry(user, second)
      && forall k :: k in entries && k != user.oid ==> after[k] == entries[k]
  {
  }

  /**
    `signToken(user)`: mint the access and refresh tokens and put the session. The put is not
    awaited, so it takes effect exactly when the store answers and never fails the call.
   */
  method SignToken(store: Store, codec: Codec, user: UserRecord, now: int) returns (tokens: Tokens)
    modifies store
    ensures tokens == IssuedTokens(codec, user, now)
    ensures store.reachable == old(store.reachable)
    ensures store.entries == if old(store.reachable) then old(store.entries)[user.oid := SessionEntry(user, now)] else old(store.entries)
  {
    var userId := user.oid;
    var accessToken := codec.sign(userId, Access, now, AccessTokenExpiresIn);
    var refreshToken := codec.sign(userId, Refresh, now, RefreshTokenExpiresIn);
    store.Set(userId, Json(user), SessionTtl, now);
    tokens := Tokens(accessToken, refreshToken);
  }

  /**
    Two logins of the same user: the second `signToken` overwrites the session of the first, so the
    store holds one session for the user, the later one, and every other session is as it was.
   */
  method SignTokenTwice(store: Store, codec: Codec, user: UserRecord, first: int, second: int) returns (tokens: Tokens)
    modifies store
    ensures tokens == IssuedTokens(codec, user, second)
    ensures store.reachable == old(store.reachable)
    ensures !old(store.reachable) ==> store.entries == old(store.entries)
    ensures old(store.reachable) ==>
      && store.entries.Keys == old(store.entries).Keys + {user.oid}
      && store.entries[user.oid] == SessionEntry(user, second)
      && forall k :: k in old(store.entries) && k != user.oid ==> store.entries[k] == old(store.entries)[k]
  {
    var firstTokens := SignToken(store, codec, user, first);
    tokens := SignToken(store, codec, user, second);
  }
}
