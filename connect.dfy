/**
 * The controller extension: the member mapped on this request, the request
 * hook that maps it, and the two template helpers that read state.
 */
module Connect {
  import opened Wrappers
  import opened Php
  import opened Config
  import opened Permissions
  import opened Sync

  class FacebookConnect {
    /** The class-level (static) configuration. */
    const settings: Settings
    /** `$this->facebookmember`: the member mapped from the Facebook profile, if any. */
    var facebookMember: Option<Member>
    /** Every call made so far to the ORM, the member session and the error handler. */
    var calls: seq<Call>

    constructor (settings: Settings)
      ensures this.settings == settings
      ensures facebookMember == None && calls == []
    {
      this.settings := settings;
      facebookMember := None;
      calls := [];
    }

    /**
     * The request hook, given whether `getSession()` found a session, what
     * `api('/me')` did and the stored members by email.  It changes exactly
     * what the sync step says: the held member when one was mapped, and the
     * calls it makes, appended in order.
     */
    method OnBeforeInit(hasSession: bool, response: ApiResponse, store: map<string, Member>)
      modifies this`facebookMember, this`calls
      ensures var o := SyncStep(hasSession, response, store, settings.createMember, settings.GetMemberGroups());
        && facebookMember == (if o.member.Some? then o.member else old(facebookMember))
        && calls == old(calls) + o.calls
    {
      if !hasSession {
        return;
      }
      match response
      case ApiError(message) =>
        calls := calls + [Warning(message)];
      case Returned(result) =>
        if result == map[] {
          return;
        }
        var member := MemberFromProfile(result, store);
        facebookMember := Some(member);

        ghost var start := calls;
        if settings.CreateMember() {
          calls := calls + [Write(member)];
          calls := calls + [LogIn(member)];
          var groups := settings.GetMemberGroups();
          if groups.Some? {
            AddToGroups(member, groups.value);
          }
        }
        assert calls == start + PostSyncCalls(member, settings.createMember, settings.GetMemberGroups());
    }

    /**
     * The lookup by email and the six field assignments: the stored member
     * for a truthy, matching email, else `new Member()`, with every field
     * taken from the profile or set to "".
     */
    static method MemberFromProfile(result: Profile, store: map<string, Member>) returns (member: Member)
      ensures member == MapProfile(Resolve(result, store), result)
    {
      var email := if IsSet(result, "email") then result["email"] else None;
      if email.Some? && Truthy(email.value) {
        if email.value in store {
          member := store[email.value];
        } else {
          member := NewMember();
        }
      } else {
        member := NewMember();
      }
      member := member.(email := ValueOrEmpty(result, "email"));
      member := member.(firstName := ValueOrEmpty(result, "first_name"));
      member := member.(surname := ValueOrEmpty(result, "last_name"));
      member := member.(facebookLink := ValueOrEmpty(result, "link"));
      member := member.(facebookUid := ValueOrEmpty(result, "id"));
      member := member.(facebookTimezone := ValueOrEmpty(result, "timezone"));
    }

    /** One `Group::add_to_group_by_code` call per group code, in list order. */
    method AddToGroups(member: Member, codes: seq<string>)
      modifies this`calls
      ensures calls == old(calls) + Enrollments(member, codes)
    {
      for i := 0 to |codes|
        invariant calls == old(calls) + Enrollments(member, codes[..i])
      {
        calls := calls + [AddToGroup(member, codes[i])];
      }
      assert codes[..|codes|] == codes;
    }

    /** The member mapped on this request whether or not it was stored, `false` (None) before one is. */
    function CurrentFacebookMember(): (r: Option<Member>)
      reads this
      ensures r.Some? <==> facebookMember.Some?
      ensures r.Some? ==> r.value == facebookMember.value
    {
      if facebookMember.Some? then facebookMember else None
    }

    /** The comma-separated scopes for the login button. */
    function FacebookPermissions(): (r: string)
      reads settings
      ensures !settings.createMember ==> r == Implode(',', settings.permissions)
      ensures settings.createMember && settings.permissions == [] ==> r == "email"
      ensures settings.createMember && settings.permissions != [] ==> r == Implode(',', settings.permissions)
    {
      var permissions := settings.GetPermissions();
      Implode(',', PermissionScopes(permissions, settings.CreateMember()))
    }
  }

  /**
   * A client: with member creation on and one group configured, a profile
   * with an id, an email and a first name is written, logged in and enrolled.
   */
  method CreateMemberScenario()
  {
    var settings := new Settings();
    settings.SetMemberGroups(Codes(["subscribers"]));
    var fc := new FacebookConnect(settings);
    var profile := map["id" := Some("123"), "email" := Some("a@b.com"), "first_name" := Some("A")];
    var expected := Member(0, "a@b.com", "A", "", "", "123", "");
    assert !IsSet(profile, "last_name") && !IsSet(profile, "link") && !IsSet(profile, "timezone");
    assert MapProfile(Resolve(profile, map[]), profile) == expected;
    fc.OnBeforeInit(true, Returned(profile), map[]);
    assert fc.CurrentFacebookMember() == Some(expected);
    assert fc.calls == [Write(expected), LogIn(expected), AddToGroup(expected, "subscribers")];
  }

  /**
   * A client: with member creation off the same profile is mapped alike and
   * still readable, but nothing is written, logged in or enrolled.
   */
  method LookupOnlyScenario()
  {
    var settings := new Settings();
    settings.SetCreateMember(false);
    settings.SetMemberGroups(Codes(["subscribers"]));
    var fc := new FacebookConnect(settings);
    var profile := map["id" := Some("123"), "email" := Some("a@b.com"), "first_name" := Some("A")];
    var expected := Member(0, "a@b.com", "A", "", "", "123", "");
    assert !IsSet(profile, "last_name") && !IsSet(profile, "link") && !IsSet(profile, "timezone");
    assert MapProfile(Resolve(profile, map[]), profile) == expected;
    fc.OnBeforeInit(true, Returned(profile), map[]);
    assert fc.CurrentFacebookMember() == Some(expected);
    assert fc.calls == [];
  }

  /** A client: an email that is already stored reuses that member's record. */
  method ExistingMemberScenario()
  {
    var settings := new Settings();
    var fc := new FacebookConnect(settings);
    var stored := Member(7, "a@b.com", "Old", "Name", "", "123", "");
    var profile := map["id" := Some("123"), "email" := Some("a@b.com"), "last_name" := None];
    var expected := Member(7, "a@b.com", "", "", "", "123", "");
    assert !IsSet(profile, "first_name") && !IsSet(profile, "last_name");
    assert !IsSet(profile, "link") && !IsSet(profile, "timezone");
    assert Resolve(profile, map["a@b.com" := stored]) == stored;
    assert MapProfile(stored, profile) == expected;
    fc.OnBeforeInit(true, Returned(profile), map["a@b.com" := stored]);
    assert fc.CurrentFacebookMember() == Some(expected);
    assert fc.calls == [Write(expected), LogIn(expected)];
  }

  /** A client: `set_permissions()` with no argument clears the scopes again. */
  method PermissionsScenario()
  {
    var settings := new Settings();
    settings.SetPermissions(["user_likes"]);
    var fc := new FacebookConnect(settings);
    assert fc.FacebookPermissions() == "user_likes";
    settings.SetPermissions();
    assert settings.permissions == [];
    assert fc.FacebookPermissions() == "email";
  }

  /** A client: without a session, or when the Facebook call throws, no member is held. */
  method NoProfileScenario()
  {
    var settings := new Settings();
    var fc := new FacebookConnect(settings);
    fc.OnBeforeInit(false, Returned(map["id" := Some("123")]), map[]);
    assert fc.CurrentFacebookMember() == None && fc.calls == [];
    fc.OnBeforeInit(true, ApiError("expired"), map[]);
    assert fc.CurrentFacebookMember() == None && fc.calls == [Warning("expired")];
  }
}
