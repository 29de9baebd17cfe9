/**
  The Redis session store (utils/connectRedis.ts): a key-value map from a user id to the
  serialized user, each entry with an expiry that Redis enforces itself.
 */
module RedisStore {
  import opened Outcomes
  import opened UserModel

  /**
    A stored string: either the JSON text of a user document, or any other text. `Text` stands for
    text that `JSON.parse` refuses; valid JSON that is not a user document (such as "null" or "{}")
    is not told apart from it.
   */
  datatype StoredValue = Json(snapshot: UserRecord) | Text(raw: string)

  /** An entry and the instant (milliseconds) at which its `EX` time to live runs out. */
  datatype Entry = Entry(value: StoredValue, expiresAt: int)

  /** The store as a request sees it: whether it answers, and its entries. */
  datatype StoreView = StoreView(reachable: bool, entries: map<string, Entry>)

  datatype StoreError = ConnectionError | InvalidArgument

  /** `GET key` at time `now`: an entry whose time to live has run out is absent. */
  function Get(v: StoreView, key: string, now: int): (r: Result<Option<StoredValue>, StoreError>)
    ensures r.Err? <==> !v.reachable
    ensures r.Ok? && r.value.Some? <==> v.reachable && key in v.entries && now < v.entries[key].expiresAt
    ensures r.Ok? && r.value.Some? ==> r.value.value == v.entries[key].value
  {
    if !v.reachable then Err(ConnectionError)
    else if key in v.entries && now < v.entries[key].expiresAt then Ok(Some(v.entries[key].value))
    else Ok(None)
  }

  /** `!sessionValidation`: a missing value and the empty string are both falsy. */
  predicate Falsy(v: Option<StoredValue>) {
    v.None? || v.value == Text("")
  }

  class Store {
    var entries: map<string, Entry>
    var reachable: bool

    function View(): StoreView
      reads this
    {
      StoreView(reachable, entries)
    }

    constructor (entries: map<string, Entry>, reachable: bool)
      ensures this.entries == entries && this.reachable == reachable
    {
      this.entries := entries;
      this.reachable := reachable;
    }

    /**
      `SET key value EX ttlSeconds` at time `now`, issued without waiting for the reply: it overwrites
      any entry for `key` when the store answers, and its failure never reaches the caller.
     */
    method Set(key: string, value: StoredValue, ttlSeconds: nat, now: int)
      modifies this
      ensures reachable == old(reachable)
      ensures entries == if old(reachable) then old(entries)[key := Entry(value, now + ttlSeconds * 1000)] else old(entries)
    {
      if reachable {
        entries := entries[key := Entry(value, now + ttlSeconds * 1000)];
      }
    }

    /**
      `DEL key`, awaited. A key that is `undefined` is refused by the client library, as is any call
      while the store does not answer; deleting a key that is not there succeeds.
     */
    method Del(key: Option<string>) returns (r: Result<(), StoreError>)
      modifies this
      ensures reachable == old(reachable)
      ensures r == Err(InvalidArgument) <==> key.None?
      ensures r == Err(ConnectionError) <==> key.Some? && !old(reachable)
      ensures r.Ok? <==> key.Some? && old(reachable)
      ensures r.Ok? ==> entries == old(entries) - {key.value}
      ensures r.Err? ==> entries == old(entries)
    {
      if key.None? {
        return Err(InvalidArgument);
      }
      if !reachable {
        return Err(ConnectionError);
      }
      entries := entries - {key.value};
      r := Ok(());
    }
  }
}
