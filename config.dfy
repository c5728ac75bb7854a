/**
 * The extension's process-wide configuration: the static properties of the
 * FacebookConnect class and their setters and getters.  One `Settings`
 * object stands for the class-level state of one PHP process.
 */
module Config {
  import opened Wrappers

  /** The argument of `set_member_groups`: an array of group codes, or one code. */
  datatype GroupArg = Codes(codes: seq<string>) | Code(code: string)

  class Settings {
    /** Whether a signed-in Facebook user becomes a stored, logged-in Member. */
    var createMember: bool
    /** Codes of the groups a created member is added to, in order. */
    var memberGroups: seq<string>
    /** The permission scopes the login button asks for, in order. */
    var permissions: seq<string>
    var apiKey: string
    var apiSecret: string
    var appId: string

    /** The static initialisers: members are created, no groups, no scopes, empty credentials. */
    constructor ()
      ensures createMember
      ensures memberGroups == [] && permissions == []
      ensures apiKey == "" && apiSecret == "" && appId == ""
    {
      createMember := true;
      memberGroups := [];
      permissions := [];
      apiKey, apiSecret, appId := "", "", "";
    }

    method SetCreateMember(b: bool)
      modifies this`createMember
      ensures createMember == b
    {
      createMember := b;
    }

    function CreateMember(): bool
      reads this
    {
      createMember
    }

    /** An array replaces the whole list; a single code is appended at its end. */
    method SetMemberGroups(group: GroupArg)
      modifies this`memberGroups
      ensures group.Codes? ==> memberGroups == group.codes
      ensures group.Code? ==> memberGroups == old(memberGroups) + [group.code]
    {
      match group
      case Codes(codes) => memberGroups := codes;
      case Code(code) => memberGroups := memberGroups + [code];
    }

    /** The configured groups, or `false` (None) when there are none. */
    function GetMemberGroups(): (r: Option<seq<string>>)
      reads this
      ensures r.None? <==> |memberGroups| == 0
      ensures r.Some? ==> r.value == memberGroups && |r.value| > 0
    {
      if |memberGroups| > 0 then Some(memberGroups) else None
    }

    /** Replaces the permission list; called with no argument, it empties it. */
    method SetPermissions(scopes: seq<string> := [])
      modifies this`permissions
      ensures permissions == scopes
    {
      permissions := scopes;
    }

    function GetPermissions(): seq<string>
      reads this
    {
      permissions
    }

    method SetApiKey(key: string)
      modifies this`apiKey
      ensures apiKey == key
    {
      apiKey := key;
    }

    method SetApiSecret(secret: string)
      modifies this`apiSecret
      ensures apiSecret == secret
    {
      apiSecret := secret;
    }

    method SetAppId(id: string)
      modifies this`appId
      ensures appId == id
    {
      appId := id;
    }

    function GetAppId(): string
      reads this
    {
      appId
    }

    function GetApiSecret(): string
      reads this
    {
      apiSecret
    }
  }

  /** What a caller reads back from `get_member_groups`: `false` stands for the empty list. */
  function GroupsOrNone(groups: Option<seq<string>>): seq<string> {
    if groups.Some? then groups.value else []
  }
}
