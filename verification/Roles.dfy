/** Role lists: the check on a list, the parser of the text form, and the text form it is printed in. */
module Roles {
  import opened Text
  import opened Schema

  const MAX_ROLES: nat := 10

  predicate RoleChar(c: char) {
    'a' <= c <= 'z' || '0' <= c <= '9' || c in {'.', '_', ':', '-'}
  }

  /** ^[a-z][a-z0-9._:-]{0,63}$ */
  predicate RoleShape(role: string) {
    && 1 <= |role| <= 64 && 'a' <= role[0] <= 'z'
    && forall i :: 0 <= i < |role| ==> RoleChar(role[i])
  }

  predicate Distinct(roles: seq<string>) {
    forall i, j :: 0 <= i < j < |roles| ==> roles[i] != roles[j]
  }

  predicate Acceptable(roles: seq<string>) {
    && 0 < |roles| <= MAX_ROLES && Distinct(roles)
    && forall i :: 0 <= i < |roles| ==> RoleShape(roles[i])
  }

  /** The parts of a comma-separated text, trimmed. */
  function Parts(raw: string): (parts: seq<string>)
    ensures |parts| >= 1
  {
    var split := Split(raw, ',');
    seq(|split|, i requires 0 <= i < |split| => Trim(split[i]))
  }

  method ValidateRoleSlice(roles: seq<string>) returns (ok: bool)
    ensures ok <==> Acceptable(roles)
  {
    if |roles| == 0 || |roles| > MAX_ROLES { return false; }
    var seen: set<string> := {};
    for i := 0 to |roles|
      invariant Distinct(roles[..i]) && forall k :: 0 <= k < i ==> RoleShape(roles[k])
      invariant forall role :: role in seen <==> role in roles[..i]
    {
      if !RoleShape(roles[i]) || roles[i] in seen {
        assert roles[i] in seen ==> exists k :: 0 <= k < i && roles[..i][k] == roles[i];
        return false;
      }
      seen := seen + {roles[i]};
      assert roles[..i + 1] == roles[..i] + [roles[i]];
    }
    assert roles[..|roles|] == roles;
    ok := true;
  }

  /** Stops at the eleventh role; a list is accepted exactly when ValidateRoleSlice would accept its trimmed parts. */
  method ParseRoles(raw: string) returns (r: Result<seq<string>>)
    ensures r == if Acceptable(Parts(raw)) then Ok(Parts(raw)) else Err(InvalidInput)
  {
    var split := Split(raw, ',');
    ghost var parts := Parts(raw);
    var seen: set<string> := {};
    var roles: seq<string> := [];
    for i := 0 to |split|
      invariant i <= MAX_ROLES && roles == parts[..i]
      invariant Distinct(roles) && forall k :: 0 <= k < i ==> RoleShape(parts[k])
      invariant forall role :: role in seen <==> role in roles
    {
      var role := Trim(split[i]);
      assert role == parts[i];
      if !RoleShape(role) || role in seen {
        assert role in seen ==> exists k :: 0 <= k < i && roles[k] == parts[i];
        return Err(InvalidInput);
      }
      seen := seen + {role};
      roles := roles + [role];
      if |roles| > MAX_ROLES { return Err(InvalidInput); }
    }
    assert parts[..|split|] == parts;
    if |roles| == 0 { return Err(InvalidInput); }
    r := Ok(roles);
  }

  // ---------------------------------------------------------------- printing and parsing back

  predicate Blank(s: string) {
    forall i :: 0 <= i < |s| ==> IsSpace(s[i])
  }

  lemma {:induction false} TrimLeftOfBlank(pad: string, s: string)
    requires Blank(pad)
    ensures TrimLeft(pad + s) == TrimLeft(s)
  {
    if pad == "" {
      assert pad + s == s;
    } else {
      assert (pad + s)[1..] == pad[1..] + s;
      TrimLeftOfBlank(pad[1..], s);
    }
  }

  lemma TrimRole(pad: string, role: string)
    requires Blank(pad) && RoleShape(role)
    ensures Trim(pad + role) == role
  {
    TrimLeftOfBlank(pad, role);
    assert RoleChar(role[0]) && RoleChar(role[|role| - 1]);
  }

  /** Every part but the first keeps the padding that follows the comma. */
  lemma {:induction false} SplitJoin(parts: seq<string>, pad: string, first: string)
    requires parts != [] && ',' !in pad && ',' !in first && forall i :: 0 <= i < |parts| ==> ',' !in parts[i]
    ensures var split := Split(first + Join(parts, "," + pad), ',');
            && |split| == |parts| && split[0] == first + parts[0]
            && forall i :: 1 <= i < |parts| ==> split[i] == pad + parts[i]
  {
    var text := first + Join(parts, "," + pad);
    if |parts| == 1 {
      SplitNothing(text, ',');
    } else {
      assert text == (first + parts[0]) + "," + (pad + Join(parts[1..], "," + pad));
      SplitFirst(first + parts[0], pad + Join(parts[1..], "," + pad), ',');
      SplitJoin(parts[1..], pad, pad);
    }
  }

  /** A list that passes the check survives printing and parsing, with or without the blank that AdminView prints. */
  lemma RolesRoundTrip(roles: seq<string>, pad: string)
    requires Acceptable(roles) && Blank(pad)
    ensures Parts(Join(roles, "," + pad)) == roles
  {
    forall i | 0 <= i < |roles|
      ensures ',' !in roles[i] && Trim(roles[i]) == roles[i] && Trim(pad + roles[i]) == roles[i]
    {
      TrimRole(pad, roles[i]);
      TrimRole("", roles[i]);
      assert "" + roles[i] == roles[i];
    }
    SplitJoin(roles, pad, "");
    assert "" + Join(roles, "," + pad) == Join(roles, "," + pad);
    assert "" + roles[0] == roles[0];
  }
}
