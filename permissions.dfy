/**
 * The scope list behind `FacebookPermissions`: the configured permissions,
 * united with `array('email')` by PHP's `+` when members are created.
 */
module Permissions {
  import opened Php

  /** The scopes the login button requests, as the extension computes them. */
  function PermissionScopes(permissions: seq<string>, createMember: bool): (r: seq<string>)
    ensures !createMember ==> r == permissions
    ensures createMember && permissions == [] ==> r == ["email"]
    ensures createMember && permissions != [] ==> r == permissions
  {
    if createMember then ListUnion(permissions, ["email"]) else permissions
  }

  /**
   * "email" is requested exactly when it is configured, or when members are
   * created and no scope is configured at all: `array('email')` has key 0,
   * which any non-empty list already holds.
   */
  lemma EmailRequestedOnlyForEmptyList(permissions: seq<string>, createMember: bool)
    ensures "email" in PermissionScopes(permissions, createMember)
        <==> "email" in permissions || (createMember && permissions == [])
  {
  }

  /** The input that shows it: one configured scope, members created, no "email". */
  lemma EmailMissingWithOneScope()
    ensures PermissionScopes(["user_likes"], true) == ["user_likes"]
    ensures "email" !in PermissionScopes(["user_likes"], true)
  {
  }

  /**
   * The scopes the extension evidently means to request: the configured ones
   * in order, with "email" added at the end when members are created and it
   * is not already there.
   */
  function IntendedScopes(permissions: seq<string>, createMember: bool): (r: seq<string>)
    ensures !createMember ==> r == permissions
    ensures createMember ==> "email" in r
    ensures |permissions| <= |r| <= |permissions| + 1
    ensures r[..|permissions|] == permissions
    ensures forall i :: |permissions| <= i < |r| ==> r[i] == "email"
  {
    if createMember && "email" !in permissions then permissions + ["email"] else permissions
  }

  /** The corrected scopes, joined by "," and split again, still contain "email". */
  lemma IntendedScopesKeepEmail(permissions: seq<string>)
    requires forall i :: 0 <= i < |permissions| ==> ',' !in permissions[i]
    ensures "email" in Explode(',', Implode(',', IntendedScopes(permissions, true)))
  {
    var r := IntendedScopes(permissions, true);
    forall i | 0 <= i < |r|
      ensures ',' !in r[i]
    {
      if i < |permissions| {
        assert r[i] == r[..|permissions|][i];
      }
    }
    ExplodeImplode(',', r);
  }
}
