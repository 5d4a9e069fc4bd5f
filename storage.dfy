/** Session persistence: the access token, the refresh token and the signed-in user, each
    under its own key of the browser's `localStorage`, modelled as a string-to-string map. */
module Storage {
  import opened Wrappers

  const AccessTokenKey := "admin_access_token"
  const RefreshTokenKey := "admin_refresh_token"
  const UserKey := "admin_user"

  datatype Role = Admin | SuperAdmin

  /** The signed-in administrator. */
  datatype User = User(id: string, name: string, email: string, role: Role, createdAt: string)

  /** `JSON.stringify` and `JSON.parse` for a user, left abstract: `parse` gives `None`
      exactly where `JSON.parse` throws. */
  datatype UserCodec = UserCodec(stringify: User -> string, parse: string -> Option<User>)

  /** `localStorage.getItem(key)`: the stored string, or `null`. */
  function Lookup(items: map<string, string>, key: string): Option<string> {
    if key in items then Some(items[key]) else None
  }

  /** The table after `saveTokens`: both tokens readable, every other key as before. */
  function WithTokens(items: map<string, string>, accessToken: string, refreshToken: string): (r: map<string, string>)
    ensures Lookup(r, AccessTokenKey) == Some(accessToken)
    ensures Lookup(r, RefreshTokenKey) == Some(refreshToken)
    ensures forall k :: k != AccessTokenKey && k != RefreshTokenKey ==> Lookup(r, k) == Lookup(items, k)
  {
    items[AccessTokenKey := accessToken][RefreshTokenKey := refreshToken]
  }

  /** The table after `clearTokens`: both tokens gone, every other key (the user's too) as before. */
  function WithoutTokens(items: map<string, string>): (r: map<string, string>)
    ensures Lookup(r, AccessTokenKey) == None && Lookup(r, RefreshTokenKey) == None
    ensures forall k :: k != AccessTokenKey && k != RefreshTokenKey ==> Lookup(r, k) == Lookup(items, k)
  {
    items - {AccessTokenKey, RefreshTokenKey}
  }

  /** The table after `saveUser`: the serialized user stored, both tokens and every other key as before. */
  function WithUser(items: map<string, string>, serialized: string): (r: map<string, string>)
    ensures Lookup(r, UserKey) == Some(serialized)
    ensures forall k :: k != UserKey ==> Lookup(r, k) == Lookup(items, k)
  {
    items[UserKey := serialized]
  }

  /** The table after `clearUser`: the user gone, both tokens and every other key as before. */
  function WithoutUser(items: map<string, string>): (r: map<string, string>)
    ensures Lookup(r, UserKey) == None
    ensures forall k :: k != UserKey ==> Lookup(r, k) == Lookup(items, k)
  {
    items - {UserKey}
  }

  /** The table after `clearAll`: none of the three session keys left, every other key
      (such as the theme preference) as before. */
  function Cleared(items: map<string, string>): (r: map<string, string>)
    ensures Lookup(r, AccessTokenKey) == None && Lookup(r, RefreshTokenKey) == None && Lookup(r, UserKey) == None
    ensures forall k :: k != AccessTokenKey && k != RefreshTokenKey && k != UserKey ==> Lookup(r, k) == Lookup(items, k)
  {
    WithoutUser(WithoutTokens(items))
  }

  /** `getUser` on a table: no user when the entry is missing or empty, otherwise whatever
      parsing the entry gives (nothing when parsing fails). */
  function UserFrom(items: map<string, string>, codec: UserCodec): (u: Option<User>)
    ensures Lookup(items, UserKey) == None ==> u == None
    ensures Lookup(items, UserKey) == Some("") ==> u == None
    ensures forall s :: Lookup(items, UserKey) == Some(s) && s != "" ==> u == codec.parse(s)
  {
    var stored := Lookup(items, UserKey);
    if stored.None? || stored.value == "" then None else codec.parse(stored.value)
  }

  /** A user saved with a codec that reads back what it writes (and writes something
      non-empty, as `JSON.stringify` of an object does) is read back unchanged, and saving
      tokens or clearing them afterwards does not disturb it. */
  lemma SavedUserReadsBack(items: map<string, string>, codec: UserCodec, user: User, a: string, r: string)
    requires codec.stringify(user) != "" && codec.parse(codec.stringify(user)) == Some(user)
    ensures UserFrom(WithUser(items, codec.stringify(user)), codec) == Some(user)
    ensures UserFrom(WithTokens(WithUser(items, codec.stringify(user)), a, r), codec) == Some(user)
    ensures UserFrom(WithoutTokens(WithUser(items, codec.stringify(user))), codec) == Some(user)
  {
    var saved := WithUser(items, codec.stringify(user));
    assert Lookup(WithTokens(saved, a, r), UserKey) == Lookup(saved, UserKey);
    assert Lookup(WithoutTokens(saved), UserKey) == Lookup(saved, UserKey);
  }

  /** The browser's `localStorage`, changed in place by the session helpers. */
  class LocalStorage {
    var items: map<string, string>

    constructor (initial: map<string, string>)
      ensures items == initial
    {
      items := initial;
    }

    /** `localStorage.setItem`. */
    method SetItem(key: string, value: string)
      modifies this
      ensures items == old(items)[key := value]
    {
      items := items[key := value];
    }

    /** `localStorage.removeItem`. */
    method RemoveItem(key: string)
      modifies this
      ensures items == old(items) - {key}
    {
      items := items - {key};
    }

    /** `getAccessToken`. */
    function GetAccessToken(): Option<string>
      reads this
    {
      Lookup(items, AccessTokenKey)
    }

    /** `getRefreshToken`. */
    function GetRefreshToken(): Option<string>
      reads this
    {
      Lookup(items, RefreshTokenKey)
    }

    /** `getUser`. */
    function GetUser(codec: UserCodec): Option<User>
      reads this
    {
      UserFrom(items, codec)
    }

    /** `saveTokens`: afterwards the getters return the two new tokens; the user is untouched. */
    method SaveTokens(accessToken: string, refreshToken: string)
      modifies this
      ensures items == WithTokens(old(items), accessToken, refreshToken)
      ensures GetAccessToken() == Some(accessToken) && GetRefreshToken() == Some(refreshToken)
      ensures Lookup(items, UserKey) == Lookup(old(items), UserKey)
    {
      SetItem(AccessTokenKey, accessToken);
      SetItem(RefreshTokenKey, refreshToken);
    }

    /** `clearTokens`: both getters return nothing afterwards; the user is untouched. */
    method ClearTokens()
      modifies this
      ensures items == WithoutTokens(old(items))
      ensures GetAccessToken() == None && GetRefreshToken() == None
      ensures Lookup(items, UserKey) == Lookup(old(items), UserKey)
    {
      RemoveItem(AccessTokenKey);
      RemoveItem(RefreshTokenKey);
    }

    /** `saveUser`: stores the serialized user; both tokens are untouched. */
    method SaveUser(codec: UserCodec, user: User)
      modifies this
      ensures items == WithUser(old(items), codec.stringify(user))
      ensures GetAccessToken() == old(GetAccessToken()) && GetRefreshToken() == old(GetRefreshToken())
    {
      var serialized := codec.stringify(user);
      SetItem(UserKey, serialized);
    }

    /** `clearUser`: `getUser` returns nothing afterwards; both tokens are untouched. */
    method ClearUser()
      modifies this
      ensures items == WithoutUser(old(items))
      ensures forall codec :: GetUser(codec) == None
      ensures GetAccessToken() == old(GetAccessToken()) && GetRefreshToken() == old(GetRefreshToken())
    {
      RemoveItem(UserKey);
    }

    /** `clearAll`: all three getters return nothing afterwards. */
    method ClearAll()
      modifies this
      ensures items == Cleared(old(items))
      ensures GetAccessToken() == None && GetRefreshToken() == None
      ensures forall codec :: GetUser(codec) == None
    {
      ClearTokens();
      ClearUser();
    }
  }
}
