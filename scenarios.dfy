/**
 * Client runs of the auth store and the permission directive, checked against
 * their contracts only.
 */
module Scenarios {
  import opened Wrappers
  import opened AuthShared
  import opened Auth
  import opened Permission

  /** Log in on a fresh store, then resume on a second fresh store over the same storage: both hold the same profile. */
  method LoginThenResume(initial: map<string, string>, env: Env, lt: LoginToken, p: Profile)
    returns (loggedIn: UserInfo, resumed: UserInfo)
    requires lt.accessToken != ""
    ensures loggedIn == resumed == Merge(DefaultUserInfo, p)
  {
    var storage := new Storage(initial);
    var first := new AuthStore(storage, env);
    first.Login(Success(lt), Success(p), true, false);
    loggedIn := first.userInfo;

    var second := new AuthStore(storage, env);
    second.InitUserInfo(Success(p), false);
    resumed := second.userInfo;
  }

  /** alice logs in with buttons save and export: she is logged in, a save button stays and a delete button goes. */
  method AliceLogsIn(env: Env) returns (isLogin: bool, saveKept: bool, deleteKept: bool)
    ensures isLogin && saveKept && !deleteKept
  {
    var storage := new Storage(map[]);
    var store := new AuthStore(storage, env);
    var lt := LoginToken("T1", "R1", "9999", "H");
    var p := Profile(Present("1"), Present("alice"), Present(Some(["editor"])),
                     Present(Some(["save", "export"])), Present(Some(false)), Present(Some(false)));
    store.Login(Success(lt), Success(p), true, false);
    isLogin := store.IsLogin();

    var save := new Element();
    Mounted(save, store, Binding(Str("save"), None));
    saveKept := save.attached;

    var delete := new Element();
    Mounted(delete, store, Binding(Str("delete"), None));
    deleteKept := delete.attached;
  }

  /**
   * Resume with a stale stored token whose profile request fails: the stored access
   * token is gone, but `$reset` puts back the token the store was created with.
   */
  method StaleTokenResume(env: Env) returns (tokenStored: bool, isLogin: bool, events: seq<Event>)
    ensures !tokenStored && isLogin
    ensures events == [ToLogin, CacheTabs, ResetRouteStore]
  {
    var storage := new Storage(map[AccessTokenKey := "stale", RefreshTokenKey := "R0"]);
    var store := new AuthStore(storage, env);
    store.InitUserInfo(Failure("401"), false);
    tokenStored := AccessTokenKey in storage.entries;
    isLogin := store.IsLogin();
    events := store.events;
  }
}
