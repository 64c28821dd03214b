/**
 * The session store (src/services/localstorage.service.ts): one entry of the
 * browser's `localStorage`, under the key "mini-tweeter-user", holding the
 * signed-in user as JSON text.
 *
 * `localStorage` is the `storage` field of a TokenService object; the pure
 * functions below say what a read sees in given storage contents, and the
 * lemmas relate a write to the reads that follow it.
 */
module TokenStorage {
  import opened Optional
  import opened JsValue
  import opened JsonCodec

  const UserKey := "mini-tweeter-user"

  /**
   * The text `setItem(UserKey, JSON.stringify(user))` stores: the JSON text,
   * or "undefined" for undefined, which setItem converts to text as it is.
   */
  function StoredText(user: Value): (t: string)
    ensures t != ""
    ensures t == "undefined" <==> user.Undefined?
  {
    match Stringify(user)
    case Some(text) =>
      assert StartsValue(text[0]);
      text
    case None => "undefined"
  }

  /** What `getUser()` returns over the storage contents `items`. */
  function UserIn(items: map<string, string>): (u: Value)
    ensures IsJson(u)
    ensures UserKey !in items || items[UserKey] == "" ==> u == Null
    ensures UserKey in items && Parse(items[UserKey]).None? ==> u == Null
  {
    if UserKey !in items || items[UserKey] == "" then Null
    else
      match Parse(items[UserKey])
      case Some(v) => v
      case None => Null
  }

  /** What `getLocalAccessToken()` returns: `user?.access`. */
  function AccessTokenIn(items: map<string, string>): (t: Value)
    ensures UserIn(items).Obj? || t == Undefined
    ensures UserIn(items).Obj? && !HasKey(UserIn(items).fields, "access") ==> t == Undefined
  {
    var user := UserIn(items);
    if user.Obj? && !HasKey(user.fields, "access") then
      LookupMissing(user.fields, "access");
      Member(user, "access")
    else Member(user, "access")
  }

  class TokenService {
    /** The browser's `localStorage`: key to stored text. */
    var storage: map<string, string>

    constructor (items: map<string, string>)
      ensures storage == items
    {
      storage := items;
    }

    /** `setUser(user)`: overwrites the user entry and no other. */
    method SetUser(user: Value)
      modifies this
      ensures storage == old(storage)[UserKey := StoredText(user)]
    {
      var text: string;
      var encoded := Stringify(user);
      if encoded.Some? {
        text := encoded.value;
      } else {
        text := "undefined";
      }
      storage := storage[UserKey := text];
    }

    /** `getUser()`: null for a missing or empty entry and for text JSON cannot parse. */
    method GetUser() returns (user: Value)
      ensures user == UserIn(storage)
    {
      var userStr: Option<string> := if UserKey in storage then Some(storage[UserKey]) else None;
      if userStr.None? || userStr.value == "" {
        return Null;
      }
      var parsed := Parse(userStr.value);
      if parsed.None? {
        // JSON.parse threw; the catch returns null
        return Null;
      }
      return parsed.value;
    }

    /** `getLocalAccessToken()`: the `access` field of the stored user. */
    method GetLocalAccessToken() returns (token: Value)
      ensures token == AccessTokenIn(storage)
    {
      var user := GetUser();
      token := Member(user, "access");
    }

    /** `removeUser()`: deletes the user entry and no other. */
    method RemoveUser()
      modifies this
      ensures storage == old(storage) - {UserKey}
    {
      storage := storage - {UserKey};
    }
  }

  // ---------------------------------------------------------------------------
  // Writes followed by reads

  /**
   * A user written and read back is the user's JSON projection, and the user
   * itself when it is JSON; the other entries are untouched.
   */
  lemma SetThenGet(items: map<string, string>, user: Value)
    requires !user.Undefined?
    ensures UserIn(items[UserKey := StoredText(user)]) == Normalize(user)
    ensures IsJson(user) ==> UserIn(items[UserKey := StoredText(user)]) == user
    ensures forall k | k in items && k != UserKey :: items[UserKey := StoredText(user)][k] == items[k]
  {
    StringifyRoundTrip(user);
  }

  /**
   * After an object user is written, each of its properties reads back as the
   * JSON projection of what it held, and a property that held undefined is gone.
   */
  lemma MemberAfterSet(items: map<string, string>, user: Value, k: string)
    requires user.Obj?
    ensures var read := UserIn(items[UserKey := StoredText(user)]);
      read.Obj?
      && Member(read, k) == (if Member(user, k).Undefined? then Undefined else Normalize(Member(user, k)))
      && (HasKey(read.fields, k) <==> !Member(user, k).Undefined?)
  {
    SetThenGet(items, user);
    NormalizeLookup(user.fields, k);
  }

  /** `setUser(undefined)` stores "undefined", which JSON cannot parse: the user then reads as null. */
  lemma SetUndefinedReadsNull(items: map<string, string>)
    ensures items[UserKey := StoredText(Undefined)][UserKey] == "undefined"
    ensures UserIn(items[UserKey := StoredText(Undefined)]) == Null
  {
    var text := "undefined";
    assert SkipWs(text) == text;
    assert ParseValue(text) == None;
  }

  /** The token after a write is the written user's `access` field. */
  lemma TokenAfterSet(items: map<string, string>, user: Value)
    requires IsJson(user)
    ensures AccessTokenIn(items[UserKey := StoredText(user)]) == Member(user, "access")
  {
    SetThenGet(items, user);
  }

  /** Removing twice is removing once; afterwards there is no user and no token. */
  lemma RemoveIdempotent(items: map<string, string>)
    ensures (items - {UserKey}) - {UserKey} == items - {UserKey}
    ensures UserIn(items - {UserKey}) == Null
    ensures AccessTokenIn(items - {UserKey}) == Undefined
  {
  }

  /** A stored user that is not an object, `null` included, has no token. */
  lemma NoObjectNoToken(items: map<string, string>)
    requires !UserIn(items).Obj?
    ensures AccessTokenIn(items) == Undefined
  {
  }
}
