/**
 * The `v-permission` directive (src/directive/permission.ts): when an element
 * is mounted, decide once whether to keep it, and remove it otherwise.
 */
module Permission {
  import opened Wrappers
  import opened Auth

  /** What a binding's `value` property can hold. */
  datatype BindingValue = Undefined | Null | Str(s: string) | List(items: seq<string>)

  /** The directive's bound object `{ value, arg }`; `arg == None` is an undefined `arg`. */
  datatype Binding = Binding(value: BindingValue, arg: Option<string>)

  /** A DOM element; `removals` counts the calls to `remove()`. */
  class Element {
    var attached: bool
    var removals: nat

    constructor ()
      ensures attached && removals == 0
    {
      attached := true;
      removals := 0;
    }

    /** el.remove(): detach from the parent (a no-op when already detached). */
    method Remove()
      modifies this
      ensures !attached && removals == old(removals) + 1
    {
      attached := false;
      removals := removals + 1;
    }
  }

  /** JavaScript truthiness of a binding value: '' and null/undefined are falsy, every array is truthy. */
  predicate Truthy(v: BindingValue)
  {
    match v
    case Undefined => false
    case Null => false
    case Str(s) => s != ""
    case List(_) => true
  }

  /** `[...value]` of a truthy value: the array itself, or a string's characters. */
  function Spread(v: BindingValue): (r: seq<string>)
    requires Truthy(v)
    ensures v.List? ==> r == v.items
    ensures v.Str? ==> |r| == |v.s| && forall k :: 0 <= k < |r| ==> r[k] == [v.s[k]]
  {
    match v
    case Str(s) => seq(|s|, k requires 0 <= k < |s| => [s[k]])
    case List(items) => items
  }

  /** The destructuring default `arg = 'button'`. */
  function ArgOf(b: Binding): (arg: string)
    ensures b.arg.Some? ==> arg == b.arg.value
    ensures b.arg.None? ==> arg == "button"
  {
    match b.arg
    case Some(a) => a
    case None => "button"
  }

  const Digits := "0123456789"

  /** The key `for...in` yields for array index i: its decimal numeral. */
  function IndexKey(i: nat): (key: string)
    ensures |key| > 0
    ensures forall k :: 0 <= k < |key| ==> key[k] in Digits
  {
    if i < 10 then [Digits[i]] else IndexKey(i / 10) + [Digits[i % 10]]
  }

  /** A non-empty string of decimal digits. */
  predicate IsNumeral(s: string)
  {
    |s| > 0 && forall k :: 0 <= k < |s| ==> s[k] in Digits
  }

  /** One of the index keys "0" .. "n-1" is among the roles. */
  predicate SomeIndexKeyIn(roles: seq<string>, n: nat)
  {
    exists i :: 0 <= i < n && IndexKey(i) in roles
  }

  /** Role mode, as written: some index key of the spread value is one of the user's roles. */
  predicate RoleGranted(roles: Option<seq<string>>, v: BindingValue)
  {
    Truthy(v) && roles.Some? && SomeIndexKeyIn(roles.value, |Spread(v)|)
  }

  /** Button mode: `userButtons?.includes(value)`; only a string value can be found among the buttons. */
  predicate ButtonGranted(buttons: Option<seq<string>>, v: BindingValue)
  {
    buttons.Some? && v.Str? && v.s in buttons.value
  }

  /** Whether `mounted` leaves the element in place. */
  function Keeps(u: UserInfo, b: Binding): (keep: bool)
    ensures !IsOrdinaryUser(u) ==> keep
    ensures ArgOf(b) != "role" && ArgOf(b) != "button" ==> keep
    ensures IsOrdinaryUser(u) && ArgOf(b) == "role" ==> (keep <==> RoleGranted(u.roles, b.value))
    ensures IsOrdinaryUser(u) && ArgOf(b) == "button" ==> (keep <==> ButtonGranted(u.buttons, b.value))
  {
    if !IsOrdinaryUser(u) then true
    else if ArgOf(b) == "role" then RoleGranted(u.roles, b.value)
    else if ArgOf(b) == "button" then ButtonGranted(u.buttons, b.value)
    else true
  }

  /** The `for (const role in [...value])` loop: true at the first index key found among the user's roles. */
  method HasIndexRole(userRoles: Option<seq<string>>, spread: seq<string>) returns (found: bool)
    ensures found <==> userRoles.Some? && SomeIndexKeyIn(userRoles.value, |spread|)
  {
    var i := 0;
    while i < |spread|
      invariant 0 <= i <= |spread|
      invariant forall j :: 0 <= j < i ==> !(userRoles.Some? && IndexKey(j) in userRoles.value)
    {
      var role := IndexKey(i);
      if userRoles.Some? && role in userRoles.value {
        assert IndexKey(i) in userRoles.value;
        return true;
      }
      i := i + 1;
    }
    return false;
  }

  /** permission.mounted: keep the element or remove it, once; nothing but the element changes. */
  method Mounted(el: Element, auth: AuthStore, binding: Binding)
    modifies el
    ensures el.attached == (old(el.attached) && Keeps(auth.userInfo, binding))
    ensures el.removals == old(el.removals) + (if Keeps(auth.userInfo, binding) then 0 else 1)
  {
    if !IsOrdinaryUser(auth.userInfo) {
      return;
    }

    var value, arg := binding.value, ArgOf(binding);

    if arg == "role" {
      var userRoles := auth.userInfo.roles;
      if Truthy(value) {
        var found := HasIndexRole(userRoles, Spread(value));
        if found {
          return;
        }
      }
      el.Remove();
      return;
    }

    if arg == "button" {
      var userButtons := auth.userInfo.buttons;
      if ButtonGranted(userButtons, value) {
        return;
      }
      el.Remove();
    }
  }

  /** Admins and super-admins keep every element, whatever the binding. */
  lemma PrivilegedAlwaysKept(u: UserInfo, b: Binding)
    requires IsAdmin(u) || IsSuperAdmin(u)
    ensures Keeps(u, b)
  {
  }

  /** A binding without `arg` is decided in button mode. */
  lemma MissingArgIsButton(u: UserInfo, value: BindingValue)
    ensures Keeps(u, Binding(value, None)) == Keeps(u, Binding(value, Some("button")))
  {
  }

  /** Button mode: kept iff the value is one of the user's buttons; absent buttons remove. */
  lemma ButtonMode(u: UserInfo, b: Binding)
    requires IsOrdinaryUser(u) && ArgOf(b) == "button"
    ensures Keeps(u, b) <==> u.buttons.Some? && b.value.Str? && b.value.s in u.buttons.value
    ensures u.buttons.None? ==> !Keeps(u, b)
  {
  }

  /** Role mode with a falsy value removes. */
  lemma RoleModeFalsyValue(u: UserInfo, b: Binding)
    requires IsOrdinaryUser(u) && ArgOf(b) == "role" && !Truthy(b.value)
    ensures !Keeps(u, b)
  {
  }

  /** Role mode: kept iff the roles hold one of the index strings "0" .. "n-1" of the spread value. */
  lemma RoleModeIndexKeys(u: UserInfo, b: Binding)
    requires IsOrdinaryUser(u) && ArgOf(b) == "role" && Truthy(b.value)
    ensures Keeps(u, b) <==> u.roles.Some? && SomeIndexKeyIn(u.roles.value, |Spread(b.value)|)
  {
  }

  /** Any other `arg` keeps the element. */
  lemma OtherArgKept(u: UserInfo, b: Binding)
    requires ArgOf(b) != "role" && ArgOf(b) != "button"
    ensures Keeps(u, b)
  {
  }

  /** The index keys are numerals, so a user whose roles are all non-numeric role codes never passes role mode. */
  lemma NonNumericRolesNeverGrant(u: UserInfo, b: Binding)
    requires IsOrdinaryUser(u) && ArgOf(b) == "role"
    requires u.roles.Some? && forall r :: r in u.roles.value ==> !IsNumeral(r)
    ensures !Keeps(u, b)
  {
  }

  /** The role-gated element with binding `{ value: ['admin'], arg: 'role' }` is removed for an ordinary user who has role 'admin'. */
  lemma RoleNamedInBindingIsRemoved()
    ensures var u := UserInfo("1", "alice", Some(["admin"]), Some([]), Some(false), Some(false));
            !Keeps(u, Binding(List(["admin"]), Some("role"))) &&
            KeepsIntended(u, Binding(List(["admin"]), Some("role")))
  {
    var u := UserInfo("1", "alice", Some(["admin"]), Some([]), Some(false), Some(false));
    var b := Binding(List(["admin"]), Some("role"));
    assert IndexKey(0) == "0";
    assert Spread(b.value) == ["admin"];
    assert Spread(b.value)[0] in u.roles.value;
  }

  /** Some requested role code is among the roles. */
  predicate SomeRoleIn(roles: seq<string>, requested: seq<string>)
  {
    exists r :: r in requested && r in roles
  }

  /** Role mode as evidently intended (`for...of`): some requested role code is one of the user's roles. */
  predicate RoleGrantedIntended(roles: Option<seq<string>>, v: BindingValue)
  {
    Truthy(v) && roles.Some? && SomeRoleIn(roles.value, Spread(v))
  }

  /** The keep decision with the role check corrected; the other branches are unchanged. */
  function KeepsIntended(u: UserInfo, b: Binding): (keep: bool)
    ensures ArgOf(b) != "role" ==> keep == Keeps(u, b)
    ensures IsOrdinaryUser(u) && ArgOf(b) == "role" ==> (keep <==> RoleGrantedIntended(u.roles, b.value))
  {
    if !IsOrdinaryUser(u) then true
    else if ArgOf(b) == "role" then RoleGrantedIntended(u.roles, b.value)
    else if ArgOf(b) == "button" then ButtonGranted(u.buttons, b.value)
    else true
  }

  /** The corrected loop `for (const role of value)`: true at the first requested role the user has. */
  method HasRequestedRole(userRoles: Option<seq<string>>, requested: seq<string>) returns (found: bool)
    ensures found <==> userRoles.Some? && SomeRoleIn(userRoles.value, requested)
  {
    var i := 0;
    while i < |requested|
      invariant 0 <= i <= |requested|
      invariant forall j :: 0 <= j < i ==> !(userRoles.Some? && requested[j] in userRoles.value)
    {
      if userRoles.Some? && requested[i] in userRoles.value {
        assert requested[i] in requested;
        return true;
      }
      i := i + 1;
    }
    return false;
  }

  /** Corrected role mode keeps an element iff the requested role set meets the user's role set; an empty request removes. */
  lemma {:induction false} IntendedRoleModeIff(u: UserInfo, requested: seq<string>)
    requires IsOrdinaryUser(u) && u.roles.Some?
    ensures KeepsIntended(u, Binding(List(requested), Some("role"))) <==>
            (set r | r in requested) * (set r | r in u.roles.value) != {}
    ensures requested == [] ==> !KeepsIntended(u, Binding(List(requested), Some("role")))
  {
    var b := Binding(List(requested), Some("role"));
    if KeepsIntended(u, b) {
      var i :| 0 <= i < |requested| && requested[i] in u.roles.value;
      assert requested[i] in (set r | r in requested) * (set r | r in u.roles.value);
    }
    if (set r | r in requested) * (set r | r in u.roles.value) != {} {
      var x :| x in (set r | r in requested) * (set r | r in u.roles.value);
      var i :| 0 <= i < |requested| && requested[i] == x;
      assert Spread(b.value)[i] in u.roles.value;
    }
  }
}
