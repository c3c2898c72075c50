/**
 * The Share Link Token settings form. It offers the roles that a request
 * authorised by a share link token may act as, and stores the one chosen
 * in `share_link_token.settings` under `token_role`.
 *
 * A role is never offered when it is:
 * - an admin role;
 * - the anonymous or the authenticated role;
 * - a role holding one of seven administrative permissions.
 *
 * Every other role is offered, keyed by its id, with its label as the
 * option text, in the order the role storage loads them.
 */
module ShareLink {
  import opened PhpValues

  const AnonymousId := "anonymous"
  const AuthenticatedId := "authenticated"
  const TokenRoleKey := "token_role"

  /** The permissions that keep a role from being offered. */
  const AdminPermissions := [
    "administer site configuration",
    "administer software updates",
    "administer modules",
    "administer nodes",
    "bypass node access",
    "administer users",
    "administer permissions"]

  /** What the form reads off a user role. */
  datatype Role = Role(id: string, name: string, isAdmin: bool, permissions: set<string>)

  /** The role holds one of the administrative permissions. */
  predicate HoldsAdminPermission(r: Role) {
    exists p :: p in AdminPermissions && p in r.permissions
  }

  /** The role may be offered. */
  predicate Offerable(r: Role) {
    !r.isAdmin && r.id != AnonymousId && r.id != AuthenticatedId && !HoldsAdminPermission(r)
  }

  /** The roles that may be offered, in the order given. */
  function OfferedRoles(roles: seq<Role>): seq<Role> {
    if roles == [] then []
    else if Offerable(roles[0]) then [roles[0]] + OfferedRoles(roles[1..])
    else OfferedRoles(roles[1..])
  }

  /** The options of the radios: each offerable role in turn writes its label under its id. */
  function RoleOptions(roles: seq<Role>): seq<Entry> {
    if roles == [] then []
    else
      var options := RoleOptions(roles[..|roles| - 1]);
      var r := roles[|roles| - 1];
      if Offerable(r) then Put(options, StrKey(r.id), Str(r.name)) else options
  }

  /** One option per role: its label under its id. */
  function OptionEntries(roles: seq<Role>): (es: seq<Entry>)
    ensures |es| == |roles|
    ensures forall i :: 0 <= i < |roles| ==> es[i] == Entry(StrKey(roles[i].id), Str(roles[i].name))
  {
    seq(|roles|, i requires 0 <= i < |roles| => Entry(StrKey(roles[i].id), Str(roles[i].name)))
  }

  /** Role storage is keyed by id, so no two loaded roles share one. */
  predicate UniqueIds(roles: seq<Role>) {
    forall i, j :: 0 <= i < j < |roles| ==> roles[i].id != roles[j].id
  }

  /** The default selection: the submitted value when it is not NULL, else the stored one. */
  function DefaultRole(submitted: Option<Value>, stored: Value): (r: Value)
    ensures IsSet(submitted) ==> r == submitted.value
    ensures !IsSet(submitted) ==> r == stored
  {
    Coalesce(submitted, stored)
  }

  /** The radios element the form builds: its options and its default value. */
  datatype RoleRadios = RoleRadios(options: seq<Entry>, defaultValue: Value)

  // ---------------------------------------------------------------------
  // The loop of `buildForm`

  /** The role options, built as `buildForm` builds them, skipping roles with `continue`. */
  method BuildRoleOptions(roles: seq<Role>) returns (options: seq<Entry>)
    ensures options == RoleOptions(roles)
  {
    options := [];
    for i := 0 to |roles|
      invariant options == RoleOptions(roles[..i])
    {
      var role := roles[i];
      assert roles[..i + 1][..i] == roles[..i];
      if role.isAdmin || role.id == AnonymousId || role.id == AuthenticatedId {
        continue;
      }
      var held := false;
      var j := 0;
      while j < |AdminPermissions| && !held
        invariant 0 <= j <= |AdminPermissions|
        invariant held <==> exists k :: 0 <= k < j && AdminPermissions[k] in role.permissions
      {
        if AdminPermissions[j] in role.permissions {
          held := true;
        }
        j := j + 1;
      }
      assert held <==> HoldsAdminPermission(role) by {
        if !held {
          assert j == |AdminPermissions|;
          forall p | p in AdminPermissions
            ensures p !in role.permissions
          {
            var k :| 0 <= k < |AdminPermissions| && AdminPermissions[k] == p;
          }
        }
      }
      if held {
        continue;
      }
      options := Put(options, StrKey(role.id), Str(role.name));
    }
    assert roles[..|roles|] == roles;
  }

  // ---------------------------------------------------------------------
  // The stored settings

  /** The editable configuration object `share_link_token.settings`. */
  class ShareLinkSettings {
    var data: map<string, Value>

    constructor (data: map<string, Value>)
      ensures this.data == data
    {
      this.data := data;
    }

    /** `$config->get('token_role')`: NULL when it is not set. */
    function TokenRole(): Value
      reads this
    {
      if TokenRoleKey in data then data[TokenRoleKey] else Null
    }

    /** `submitForm`: stores the submitted `token_role` (NULL when none was submitted) and nothing else. */
    method SubmitForm(submitted: Option<Value>)
      modifies this
      ensures data == old(data)[TokenRoleKey := Coalesce(submitted, Null)]
      ensures TokenRole() == Coalesce(submitted, Null)
    {
      data := data[TokenRoleKey := Coalesce(submitted, Null)];
    }

    /** `buildForm`: the offered roles and the default selection. */
    method BuildForm(roles: seq<Role>, submitted: Option<Value>) returns (radios: RoleRadios)
      ensures radios == RoleRadios(RoleOptions(roles), DefaultRole(submitted, TokenRole()))
    {
      var options := BuildRoleOptions(roles);
      radios := RoleRadios(options, DefaultRole(submitted, TokenRole()));
    }
  }

  // ---------------------------------------------------------------------
  // Properties

  /** Exactly the offerable roles are kept. */
  lemma {:induction false} OfferedRolesMembers(roles: seq<Role>)
    ensures forall r :: r in OfferedRoles(roles) <==> r in roles && Offerable(r)
  {
    if roles != [] {
      OfferedRolesMembers(roles[1..]);
      assert forall r :: r in roles <==> r == roles[0] || r in roles[1..];
    }
  }

  /** Filtering distributes over concatenation, so the kept roles stay in their loaded order. */
  lemma {:induction false} OfferedRolesAppend(a: seq<Role>, b: seq<Role>)
    ensures OfferedRoles(a + b) == OfferedRoles(a) + OfferedRoles(b)
  {
    if a == [] {
      assert a + b == b;
    } else {
      assert (a + b)[0] == a[0] && (a + b)[1..] == a[1..] + b;
      OfferedRolesAppend(a[1..], b);
    }
  }

  /** Every option is keyed by the id of an offerable role. */
  lemma {:induction false} OptionKeysFromRoles(roles: seq<Role>, k: Key)
    ensures HasKey(RoleOptions(roles), k) ==> exists i :: 0 <= i < |roles| && Offerable(roles[i]) && StrKey(roles[i].id) == k
  {
    if roles != [] {
      var init := roles[..|roles| - 1];
      var r := roles[|roles| - 1];
      if Offerable(r) {
        HasKeyPut(RoleOptions(init), StrKey(r.id), Str(r.name), k);
      }
      OptionKeysFromRoles(init, k);
      if HasKey(RoleOptions(init), k) {
        var i :| 0 <= i < |init| && Offerable(init[i]) && StrKey(init[i].id) == k;
        assert roles[i] == init[i];
      }
    }
  }

  /** With ids unique, the last role's id is not among the options of the roles before it. */
  lemma LastIdIsNew(roles: seq<Role>)
    requires UniqueIds(roles) && roles != []
    ensures !HasKey(RoleOptions(roles[..|roles| - 1]), StrKey(roles[|roles| - 1].id))
  {
    var init := roles[..|roles| - 1];
    var last := roles[|roles| - 1];
    OptionKeysFromRoles(init, StrKey(last.id));
    forall j | 0 <= j < |init|
      ensures init[j].id != last.id
    {
      assert roles[j] == init[j];
    }
  }

  /**
   * With ids unique, a loaded role's id is an option exactly when the role
   * is offerable, and the option's text is the role's label. So no admin,
   * anonymous or authenticated role, and no role holding an
   * administrative permission, is ever offered.
   */
  lemma {:induction false} RoleOptionsGet(roles: seq<Role>, i: nat)
    requires UniqueIds(roles) && i < |roles|
    ensures Get(RoleOptions(roles), StrKey(roles[i].id)) == if Offerable(roles[i]) then Some(Str(roles[i].name)) else None
  {
    var init := roles[..|roles| - 1];
    var last := roles[|roles| - 1];
    var options := RoleOptions(init);
    if i == |roles| - 1 {
      if Offerable(last) {
        GetPut(options, StrKey(last.id), Str(last.name), StrKey(last.id));
      } else {
        LastIdIsNew(roles);
        GetHasKey(options, StrKey(last.id));
      }
    } else {
      assert roles[i] == init[i];
      assert UniqueIds(init);
      RoleOptionsGet(init, i);
      if Offerable(last) {
        GetPut(options, StrKey(last.id), Str(last.name), StrKey(roles[i].id));
      }
    }
  }

  /** With ids unique, the options are the offerable roles in their loaded order, one each. */
  lemma {:induction false} RoleOptionsInOrder(roles: seq<Role>)
    requires UniqueIds(roles)
    ensures RoleOptions(roles) == OptionEntries(OfferedRoles(roles))
  {
    if roles != [] {
      var init := roles[..|roles| - 1];
      var last := roles[|roles| - 1];
      assert UniqueIds(init);
      RoleOptionsInOrder(init);
      assert roles == init + [last];
      OfferedRolesAppend(init, [last]);
      assert OfferedRoles([last]) == if Offerable(last) then [last] else [];
      if Offerable(last) {
        LastIdIsNew(roles);
        PutAbsent(RoleOptions(init), StrKey(last.id), Str(last.name));
      }
    }
  }
}
