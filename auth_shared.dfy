/**
 * The token helpers of the auth store (src/store/modules/auth/shared.ts) and the
 * key/value local storage they read and write.
 */
module AuthShared {
  import opened Wrappers

  const AccessTokenKey := "accessToken"
  const RefreshTokenKey := "refreshToken"

  /** The browser's local storage as seen by the auth store: string keys to stored values. */
  class Storage {
    var entries: map<string, string>

    constructor (initial: map<string, string>)
      ensures entries == initial
    {
      entries := initial;
    }

    /** Reads a key; `None` when nothing is stored under it. */
    method Get(key: string) returns (v: Option<string>)
      ensures key in entries ==> v == Some(entries[key])
      ensures key !in entries ==> v == None
    {
      v := if key in entries then Some(entries[key]) else None;
    }

    method Set(key: string, value: string)
      modifies this
      ensures entries == old(entries)[key := value]
    {
      entries := entries[key := value];
    }

    method Remove(key: string)
      modifies this
      ensures entries == old(entries) - {key}
    {
      entries := entries - {key};
    }
  }

  /** The token `getToken` reads from the given storage contents: the stored access token, or '' when it is missing or empty. */
  function TokenOf(entries: map<string, string>): (t: string)
    ensures t == "" || (AccessTokenKey in entries && entries[AccessTokenKey] == t)
    ensures t != "" <==> AccessTokenKey in entries && entries[AccessTokenKey] != ""
  {
    if AccessTokenKey in entries && entries[AccessTokenKey] != "" then entries[AccessTokenKey] else ""
  }

  /** The storage contents after `clearAuthStorage`. */
  function Cleared(entries: map<string, string>): (r: map<string, string>)
    ensures r.Keys == entries.Keys - {AccessTokenKey, RefreshTokenKey}
    ensures forall k :: k in r ==> r[k] == entries[k]
  {
    entries - {AccessTokenKey, RefreshTokenKey}
  }

  /** getToken: `localStg.get('accessToken') || ''`. */
  method GetToken(storage: Storage) returns (t: string)
    ensures t == TokenOf(storage.entries)
    ensures t == "" || (AccessTokenKey in storage.entries && storage.entries[AccessTokenKey] == t)
  {
    var stored := storage.Get(AccessTokenKey);
    if stored.Some? && stored.value != "" {
      t := stored.value;
    } else {
      t := "";
    }
  }

  /** clearAuthStorage: removes the access and the refresh token, in that order. */
  method ClearAuthStorage(storage: Storage)
    modifies storage
    ensures storage.entries == Cleared(old(storage.entries))
  {
    storage.Remove(AccessTokenKey);
    storage.Remove(RefreshTokenKey);
  }

  /** After a clear no token can be read. */
  lemma ClearedHasNoToken(entries: map<string, string>)
    ensures TokenOf(Cleared(entries)) == ""
  {
  }

  /** Clearing twice is clearing once. */
  lemma ClearIdempotent(entries: map<string, string>)
    ensures Cleared(Cleared(entries)) == Cleared(entries)
  {
  }

  /** Every key other than the two token keys survives a clear with its value, `expireTime` and `header` included. */
  lemma ClearKeepsOtherKeys(entries: map<string, string>, k: string)
    requires k != AccessTokenKey && k != RefreshTokenKey
    ensures k in Cleared(entries) <==> k in entries
    ensures k in entries ==> Cleared(entries)[k] == entries[k]
  {
  }

  /** Writing an access token and reading it back yields it (an empty one reads as ''). */
  lemma TokenAfterWrite(entries: map<string, string>, token: string)
    ensures TokenOf(entries[AccessTokenKey := token]) == token
  {
  }
}
