/**
 * src/composables/useUser.js: the shared signed-in user and the predicates
 * derived from it. Persisting and forgetting the user record (done by
 * src/utils/auth.js) appear as effects.
 */
module UserSession {
  import opened Wrappers
  import opened Js
  import opened Http
  import Request

  /** `!!userInfo.value` */
  predicate IsLoggedIn(userInfo: Option<Json>)
  {
    Present(userInfo)
  }

  /** `userInfo.value?.role` */
  function Role(userInfo: Option<Json>): Option<Json>
  {
    Member(userInfo, "role")
  }

  /** `role === 1 || role === 2` */
  predicate HasAdminRole(userInfo: Option<Json>)
  {
    Role(userInfo) == Some(JNum(1)) || Role(userInfo) == Some(JNum(2))
  }

  /** `userInfo.value?.status === 1` */
  predicate IsUserStatusActive(userInfo: Option<Json>)
  {
    Member(userInfo, "status") == Some(JNum(1))
  }

  /**
   * `hasPermission(requiredRole = 0)`: `role !== undefined && role >= requiredRole`.
   * The comparison converts the role to a number; NaN compares false.
   */
  function HasPermission(userInfo: Option<Json>, requiredRole: Option<int>): (r: bool)
    ensures r <==> (Role(userInfo).Some? && ToNumber(Role(userInfo)).Some? &&
                    ToNumber(Role(userInfo)).value >= (if requiredRole.None? then 0 else requiredRole.value))
  {
    var required := if requiredRole.None? then 0 else requiredRole.value;
    var role := Role(userInfo);
    role.Some? && match ToNumber(role) { case Some(n) => n >= required case None => false }
  }

  /** `hasAdminRole.value && isUserStatusActive.value` */
  predicate CanPerformAdminAction(userInfo: Option<Json>)
  {
    HasAdminRole(userInfo) && IsUserStatusActive(userInfo)
  }

  /** Permission to do more implies permission to do less. */
  lemma PermissionAntitone(userInfo: Option<Json>, lower: int, higher: int)
    requires lower <= higher && HasPermission(userInfo, Some(higher))
    ensures HasPermission(userInfo, Some(lower))
  {
  }

  /** Whoever may act as an administrator is signed in and holds permission level 1. */
  lemma AdminActionNeedsLogin(userInfo: Option<Json>)
    requires CanPerformAdminAction(userInfo)
    ensures IsLoggedIn(userInfo) && HasPermission(userInfo, Some(1))
  {
  }

  /** With nobody signed in there is no permission at all. */
  lemma SignedOutHasNoPermission(requiredRole: Option<int>)
    ensures !HasPermission(None, requiredRole) && !HasPermission(Some(JNull), requiredRole)
    ensures !CanPerformAdminAction(Some(JNull))
  {
  }

  /** A role that is null passes the default check, since `null >= 0`. */
  lemma NullRolePasses(rest: map<string, Json>)
    ensures HasPermission(Some(JObj(rest["role" := JNull])), None)
  {
  }

  /** A role given as decimal text passes the numeric check but is no administrator role. */
  lemma TextRoleCoerced(rest: map<string, Json>, n: int)
    ensures HasPermission(Some(JObj(rest["role" := JStr(Strings.IntText(n))])), Some(n))
    ensures !HasAdminRole(Some(JObj(rest["role" := JStr(Strings.IntText(n))])))
  {
    var t := Strings.IntText(n);
    var user := Some(JObj(rest["role" := JStr(t)]));
    assert Role(user) == Some(JStr(t));
    StringToNumberOfText(n);
    assert ToNumber(Role(user)) == Some(n);
  }

  /** The shared `userInfo` ref. */
  class Session {
    var userInfo: Option<Json>

    /** The ref starts from the persisted record. */
    constructor (persisted: Option<Json>)
      ensures userInfo == persisted
    {
      userInfo := persisted;
    }

    /** `updateUserInfo(newUserInfo)`: the ref takes the value; a truthy one is persisted, a falsy one forgotten. */
    method UpdateUserInfo(newUserInfo: Option<Json>) returns (effects: seq<Effect>)
      modifies this
      ensures userInfo == newUserInfo
      ensures Present(newUserInfo) ==> effects == [SaveUser(newUserInfo.value)]
      ensures !Present(newUserInfo) ==> effects == [ForgetUser]
    {
      userInfo := newUserInfo;
      if Present(newUserInfo) {
        effects := [SaveUser(newUserInfo.value)];
      } else {
        effects := [ForgetUser];
      }
    }

    /** `login(userData)`: update, then announce success. */
    method Login(userData: Option<Json>) returns (effects: seq<Effect>)
      modifies this
      ensures userInfo == userData
      ensures IsLoggedIn(userInfo) <==> Present(userData)
      ensures effects == [if Present(userData) then SaveUser(userData.value) else ForgetUser, Toast(Success, "登录成功！")]
    {
      effects := UpdateUserInfo(userData);
      effects := effects + [Toast(Success, "登录成功！")];
    }

    /** `logout()`: the ref becomes null and is forgotten, a message is shown and the login page opens. */
    method Logout() returns (effects: seq<Effect>)
      modifies this
      ensures userInfo == Some(JNull) && !IsLoggedIn(userInfo)
      ensures !HasPermission(userInfo, None) && !CanPerformAdminAction(userInfo)
      ensures effects == [ForgetUser, Toast(Success, "已退出登录"), Navigate(Request.LoginPath)]
    {
      effects := UpdateUserInfo(Some(JNull));
      effects := effects + [Toast(Success, "已退出登录"), Navigate(Request.LoginPath)];
    }
  }
}
