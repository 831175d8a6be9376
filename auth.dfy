/**
 * The auth store (src/store/modules/auth/index.ts): the in-memory token, the
 * user profile, the login loading flag, and the login / resume / reset flows.
 * Awaited requests are parameters; navigation, notification and the effects on
 * the tab and route stores are recorded in an event log.
 */
module Auth {
  import opened Wrappers
  import opened AuthShared

  /** Api.Auth.UserInfo. `roles`/`buttons` may be null in a response, `admin`/`superAdmin` are `bool | null`. */
  datatype UserInfo = UserInfo(
    id: string,
    userName: string,
    roles: Option<seq<string>>,
    buttons: Option<seq<string>>,
    admin: Option<bool>,
    superAdmin: Option<bool>)

  /** The reactive record the store starts from. */
  const DefaultUserInfo := UserInfo("", "", Some([]), Some([]), None, None)

  /** A property of a profile response: left out of the response, or present with a value. */
  datatype Patch<T> = Absent | Present(value: T)

  /** The profile returned by the user-info request, property by property. */
  datatype Profile = Profile(
    id: Patch<string>,
    userName: Patch<string>,
    roles: Patch<Option<seq<string>>>,
    buttons: Patch<Option<seq<string>>>,
    admin: Patch<Option<bool>>,
    superAdmin: Patch<Option<bool>>)

  /** Api.Auth.LoginToken, as written to storage. */
  datatype LoginToken = LoginToken(accessToken: string, refreshToken: string, expireTime: string, header: string)

  /** VITE_ADMIN_ROLE and VITE_SUPER_ADMIN_ROLE; `None` when the variable is not defined. */
  datatype Env = Env(adminRole: Option<string>, superAdminRole: Option<string>)

  /** Effects on collaborators, in the order they happen. */
  datatype Event =
    | ToLogin                                         // router: go to the login page
    | RedirectFromLogin(redirect: bool)               // router: leave the login page
    | LoginSuccessNotice(userName: string, duration: nat)  // success notification
    | CacheTabs                                       // tab store: cache the open tabs
    | ResetRouteStore                                 // route store: reset

  /** Duration of the login success notification, in milliseconds. */
  const NoticeDuration: nat := 4500

  function PatchOr<T>(current: T, p: Patch<T>): T
  {
    if p.Present? then p.value else current
  }

  /** `Object.assign(userInfo, info)`: properties present in the response overwrite, the others stay. */
  function Merge(u: UserInfo, p: Profile): (r: UserInfo)
    ensures p.id.Present? ==> r.id == p.id.value
    ensures p.id.Absent? ==> r.id == u.id
    ensures p.userName.Present? ==> r.userName == p.userName.value
    ensures p.userName.Absent? ==> r.userName == u.userName
    ensures p.roles.Present? ==> r.roles == p.roles.value
    ensures p.roles.Absent? ==> r.roles == u.roles
    ensures p.buttons.Present? ==> r.buttons == p.buttons.value
    ensures p.buttons.Absent? ==> r.buttons == u.buttons
    ensures p.admin.Present? ==> r.admin == p.admin.value
    ensures p.admin.Absent? ==> r.admin == u.admin
    ensures p.superAdmin.Present? ==> r.superAdmin == p.superAdmin.value
    ensures p.superAdmin.Absent? ==> r.superAdmin == u.superAdmin
  {
    UserInfo(
      PatchOr(u.id, p.id),
      PatchOr(u.userName, p.userName),
      PatchOr(u.roles, p.roles),
      PatchOr(u.buttons, p.buttons),
      PatchOr(u.admin, p.admin),
      PatchOr(u.superAdmin, p.superAdmin))
  }

  /** A response that carries every property of UserInfo. */
  predicate Complete(p: Profile)
  {
    p.id.Present? && p.userName.Present? && p.roles.Present? &&
    p.buttons.Present? && p.admin.Present? && p.superAdmin.Present?
  }

  /** JavaScript truthiness of a `bool | null` flag. */
  predicate FlagOn(flag: Option<bool>)
  {
    flag == Some(true)
  }

  /** The `isAdmin` computed, read as a condition: `null` and `false` both read as not admin. */
  function IsAdmin(u: UserInfo): (r: bool)
    ensures r <==> u.admin.Some? && u.admin.value
  {
    FlagOn(u.admin)
  }

  /** The `isSuperAdmin` computed, read as a condition: `null` and `false` both read as not super-admin. */
  function IsSuperAdmin(u: UserInfo): (r: bool)
    ensures r <==> u.superAdmin.Some? && u.superAdmin.value
  {
    FlagOn(u.superAdmin)
  }

  /** isOrdinaryUser: neither flag is set; `null` and `false` both count as not set. */
  function IsOrdinaryUser(u: UserInfo): (r: bool)
    ensures r <==> u.admin != Some(true) && u.superAdmin != Some(true)
  {
    !IsAdmin(u) && !IsSuperAdmin(u)
  }

  /** The storage contents after loginByToken's four writes, in source order. */
  function WithLoginToken(entries: map<string, string>, lt: LoginToken): (r: map<string, string>)
    ensures r.Keys == entries.Keys + {AccessTokenKey, RefreshTokenKey, "expireTime", "header"}
    ensures r[AccessTokenKey] == lt.accessToken && r[RefreshTokenKey] == lt.refreshToken
    ensures r["expireTime"] == lt.expireTime && r["header"] == lt.header
    ensures forall k :: k in entries && k !in {AccessTokenKey, RefreshTokenKey, "expireTime", "header"} ==> r[k] == entries[k]
  {
    entries[AccessTokenKey := lt.accessToken][RefreshTokenKey := lt.refreshToken]["expireTime" := lt.expireTime]["header" := lt.header]
  }

  /** The collaborator effects of resetStore. */
  function ResetEvents(routeIsConstant: bool): (r: seq<Event>)
    ensures ToLogin in r <==> !routeIsConstant
    ensures |r| >= 2 && r[|r| - 2] == CacheTabs && r[|r| - 1] == ResetRouteStore
  {
    (if routeIsConstant then [] else [ToLogin]) + [CacheTabs, ResetRouteStore]
  }

  class AuthStore {
    /** The shared local storage (`localStg`). */
    const storage: Storage
    const env: Env
    /** The token read from storage when the store was created; `$reset` restores it. */
    const initialToken: string

    var token: string
    var userInfo: UserInfo
    var loading: bool
    var events: seq<Event>

    /** The store's setup: `token` is read from storage, `userInfo` takes its defaults. */
    constructor (storage: Storage, env: Env)
      ensures this.storage == storage && this.env == env
      ensures initialToken == TokenOf(storage.entries) && token == initialToken
      ensures userInfo == DefaultUserInfo && !loading && events == []
    {
      var t := GetToken(storage);
      this.storage := storage;
      this.env := env;
      initialToken := t;
      token := t;
      userInfo := DefaultUserInfo;
      loading := false;
      events := [];
    }

    /** isLogin: `Boolean(token.value)`. */
    function IsLogin(): (r: bool)
      reads this
      ensures r <==> |token| > 0
    {
      token != ""
    }

    /** isAdminRole: equality with the configured admin role code; reads no state. */
    function IsAdminRole(roleCode: string): (r: bool)
      ensures r <==> env.adminRole == Some(roleCode)
    {
      env.adminRole == Some(roleCode)
    }

    /** isSuperAdminRole: equality with the configured super-admin role code; reads no state. */
    function IsSuperAdminRole(roleCode: string): (r: bool)
      ensures r <==> env.superAdminRole == Some(roleCode)
    {
      env.superAdminRole == Some(roleCode)
    }

    /** $reset: back to the state the store was created with. */
    method Reset()
      modifies this
      ensures token == initialToken && userInfo == DefaultUserInfo && !loading
      ensures events == old(events)
    {
      token := initialToken;
      userInfo := DefaultUserInfo;
      loading := false;
    }

    /** resetStore: clear the stored tokens, reset the state, leave for the login page unless the route is constant. */
    method ResetStore(routeIsConstant: bool)
      modifies this, storage
      ensures storage.entries == Cleared(old(storage.entries))
      ensures token == initialToken && userInfo == DefaultUserInfo && !loading
      ensures events == old(events) + ResetEvents(routeIsConstant)
    {
      ClearAuthStorage(storage);
      Reset();
      if !routeIsConstant {
        events := events + [ToLogin];
      }
      events := events + [CacheTabs, ResetRouteStore];
    }

    /** getUserInfo: on success merge the profile into userInfo; report whether it succeeded. */
    method GetUserInfo(response: Result<Profile>) returns (pass: bool)
      modifies this`userInfo
      ensures pass <==> response.Success?
      ensures pass ==> userInfo == Merge(old(userInfo), response.value)
      ensures !pass ==> userInfo == old(userInfo)
    {
      if response.Success? {
        userInfo := Merge(userInfo, response.value);
        return true;
      }
      return false;
    }

    /** loginByToken: store the four credential fields, fetch the profile, and only then adopt the access token. */
    method LoginByToken(lt: LoginToken, profile: Result<Profile>) returns (pass: bool)
      modifies this`token, this`userInfo, storage
      ensures storage.entries == WithLoginToken(old(storage.entries), lt)
      ensures pass <==> profile.Success?
      ensures pass ==> token == lt.accessToken && userInfo == Merge(old(userInfo), profile.value)
      ensures !pass ==> token == old(token) && userInfo == old(userInfo)
    {
      storage.Set(AccessTokenKey, lt.accessToken);
      storage.Set(RefreshTokenKey, lt.refreshToken);
      storage.Set("expireTime", lt.expireTime);
      storage.Set("header", lt.header);

      pass := GetUserInfo(profile);
      if pass {
        token := lt.accessToken;
        return true;
      }
      return false;
    }

    /**
     * login: `exchange` is the result of the credential request and `profile` that of
     * the user-info request made once the exchange succeeded.
     */
    method Login(exchange: Result<LoginToken>, profile: Result<Profile>, redirect: bool, routeIsConstant: bool)
      modifies this, storage
      ensures !loading
      ensures exchange.Failure? ==>
        && storage.entries == Cleared(old(storage.entries))
        && token == initialToken && userInfo == DefaultUserInfo
        && events == old(events) + ResetEvents(routeIsConstant)
      ensures exchange.Success? ==> storage.entries == WithLoginToken(old(storage.entries), exchange.value)
      ensures exchange.Success? && profile.Success? ==>
        && token == exchange.value.accessToken
        && userInfo == Merge(old(userInfo), profile.value)
        && events == old(events) + [RedirectFromLogin(redirect), LoginSuccessNotice(userInfo.userName, NoticeDuration)]
      ensures exchange.Success? && profile.Failure? ==>
        token == old(token) && userInfo == old(userInfo) && events == old(events)
    {
      loading := true;

      if exchange.Success? {
        var pass := LoginByToken(exchange.value, profile);
        if pass {
          events := events + [RedirectFromLogin(redirect)];
          events := events + [LoginSuccessNotice(userInfo.userName, NoticeDuration)];
        }
      } else {
        ResetStore(routeIsConstant);
      }

      loading := false;
    }

    /** logout: only raises and lowers the loading flag. */
    method Logout()
      modifies this`loading
      ensures !loading
    {
      loading := true;
      loading := false;
    }

    /** initUserInfo: with a stored token, fetch the profile and reset if that fails. */
    method InitUserInfo(profile: Result<Profile>, routeIsConstant: bool)
      modifies this, storage
      ensures TokenOf(old(storage.entries)) == "" ==>
        && storage.entries == old(storage.entries) && token == old(token) && userInfo == old(userInfo)
        && loading == old(loading) && events == old(events)
      ensures TokenOf(old(storage.entries)) != "" && profile.Success? ==>
        && storage.entries == old(storage.entries) && token == old(token)
        && userInfo == Merge(old(userInfo), profile.value)
        && loading == old(loading) && events == old(events)
      ensures TokenOf(old(storage.entries)) != "" && profile.Failure? ==>
        && storage.entries == Cleared(old(storage.entries))
        && token == initialToken && userInfo == DefaultUserInfo && !loading
        && events == old(events) + ResetEvents(routeIsConstant)
    {
      var hasToken := GetToken(storage);
      if hasToken != "" {
        var pass := GetUserInfo(profile);
        if !pass {
          ResetStore(routeIsConstant);
        }
      }
    }
  }

  /** At most one role code is the admin role, at most one the super-admin role, and an undefined variable names none. */
  lemma RoleCodesAreUnique(store: AuthStore, a: string, b: string)
    ensures store.IsAdminRole(a) && store.IsAdminRole(b) ==> a == b
    ensures store.IsSuperAdminRole(a) && store.IsSuperAdminRole(b) ==> a == b
    ensures store.env.adminRole == None ==> !store.IsAdminRole(a)
  {
  }

  /** Merging the same response twice is merging it once. */
  lemma MergeIdempotent(u: UserInfo, p: Profile)
    ensures Merge(Merge(u, p), p) == Merge(u, p)
  {
  }

  /** Only a response carrying every property replaces userInfo wholesale; the previous record then no longer matters. */
  lemma CompleteProfileReplaces(u: UserInfo, v: UserInfo, p: Profile)
    requires Complete(p)
    ensures Merge(u, p) == Merge(v, p)
  {
  }

  /** Conversely, a response missing any property lets the previous record show through. */
  lemma IncompleteProfileKeepsPrevious(p: Profile)
    requires !Complete(p)
    ensures exists u, v :: Merge(u, p) != Merge(v, p)
  {
    var u := UserInfo("", "", None, None, None, None);
    var v := UserInfo("x", "x", Some([]), Some([]), Some(true), Some(true));
    assert Merge(u, p) != Merge(v, p);
  }

  /** A property missing from the response keeps its previous value: here the previous flags survive. */
  lemma MissingFlagsSurvive(u: UserInfo, p: Profile)
    requires p.admin.Absent? && p.superAdmin.Absent?
    ensures IsOrdinaryUser(Merge(u, p)) == IsOrdinaryUser(u)
  {
  }

  /** The default record is ordinary: nobody starts as an admin. */
  lemma DefaultIsOrdinary()
    ensures IsOrdinaryUser(DefaultUserInfo)
  {
  }
}
