/**
 * The profile-to-member step of `onBeforeInit`, as a function of its inputs:
 * whether there is a Facebook session, what `api('/me')` gave, the members
 * already stored, and the two member policies read from the configuration.
 * The calls into the ORM, the session and the error handler are returned as
 * an ordered list instead of being made.
 */
module Sync {
  import opened Wrappers
  import opened Php
  import opened Config

  /** The decoded `/me` result: each key maps to a value, or to null. */
  type Profile = map<string, Option<string>>

  /**
   * The Member fields the extension touches.  `id` is 0 for a `new Member()`
   * that has not been written, and the stored record's ID otherwise.
   */
  datatype Member = Member(
    id: nat,
    email: string,
    firstName: string,
    surname: string,
    facebookLink: string,
    facebookUid: string,
    facebookTimezone: string)

  /** `new Member()` */
  function NewMember(): Member {
    Member(0, "", "", "", "", "", "")
  }

  /** A call the extension makes to code outside it, in the order made. */
  datatype Call =
    | Write(member: Member)
    | LogIn(member: Member)
    | AddToGroup(member: Member, code: string)
    | Warning(message: string)

  /** What `api('/me')` did: threw a FacebookApiException, or returned a result. */
  datatype ApiResponse = ApiError(message: string) | Returned(result: Profile)

  /** The member now held by the extension (None: untouched), and the calls made. */
  datatype Outcome = Outcome(member: Option<Member>, calls: seq<Call>)

  /** The profile keys that are copied, in the order the fields are assigned. */
  const ProfileKeys: seq<string> := ["email", "first_name", "last_name", "link", "id", "timezone"]

  /** The member field each profile key is copied into. */
  function Field(m: Member, key: string): string {
    match key
    case "email" => m.email
    case "first_name" => m.firstName
    case "last_name" => m.surname
    case "link" => m.facebookLink
    case "id" => m.facebookUid
    case "timezone" => m.facebookTimezone
    case _ => ""
  }

  /** `$email`: the profile's email when it is set, `false` (None) otherwise. */
  function EmailOf(profile: Profile): Option<string> {
    if IsSet(profile, "email") then profile["email"] else None
  }

  /**
   * The member a profile resolves to: the stored member with that email when
   * the email is truthy and matches one, a new member otherwise.
   */
  function Resolve(profile: Profile, store: map<string, Member>): (m: Member)
    ensures var e := EmailOf(profile);
      e.Some? && Truthy(e.value) && e.value in store ==> m == store[e.value]
    ensures var e := EmailOf(profile);
      !(e.Some? && Truthy(e.value) && e.value in store) ==> m == NewMember()
  {
    var email := EmailOf(profile);
    if email.Some? && Truthy(email.value) then
      if email.value in store then store[email.value] else NewMember()
    else
      NewMember()
  }

  /** The member after the six field assignments of `onBeforeInit`. */
  function MapProfile(base: Member, profile: Profile): Member {
    base.(
      email := ValueOrEmpty(profile, "email"),
      firstName := ValueOrEmpty(profile, "first_name"),
      surname := ValueOrEmpty(profile, "last_name"),
      facebookLink := ValueOrEmpty(profile, "link"),
      facebookUid := ValueOrEmpty(profile, "id"),
      facebookTimezone := ValueOrEmpty(profile, "timezone"))
  }

  /**
   * After the mapping each field holds the profile value when its key is set
   * and "" otherwise, and the record (its id) is the one mapped onto.
   */
  lemma MappedFields(base: Member, profile: Profile)
    ensures MapProfile(base, profile).id == base.id
    ensures forall k :: k in ProfileKeys ==>
      Field(MapProfile(base, profile), k) == (if IsSet(profile, k) then profile[k].value else "")
  {
  }

  /** One enrollment call per group code, in list order. */
  function Enrollments(m: Member, codes: seq<string>): (cs: seq<Call>)
    ensures |cs| == |codes|
    ensures forall i :: 0 <= i < |codes| ==> cs[i] == AddToGroup(m, codes[i])
  {
    seq(|codes|, i requires 0 <= i < |codes| => AddToGroup(m, codes[i]))
  }

  /** The calls after the member is mapped: write, log in, enroll, when members are created. */
  function PostSyncCalls(m: Member, createMember: bool, groups: Option<seq<string>>): seq<Call> {
    if !createMember then []
    else [Write(m), LogIn(m)] + (if groups.Some? then Enrollments(m, groups.value) else [])
  }

  /** The whole step: `groups` is what `get_member_groups()` returned. */
  function SyncStep(
    hasSession: bool, response: ApiResponse, store: map<string, Member>,
    createMember: bool, groups: Option<seq<string>>): Outcome
  {
    if !hasSession then Outcome(None, [])
    else
      match response
      case ApiError(message) => Outcome(None, [Warning(message)])
      case Returned(result) =>
        if result == map[] then Outcome(None, [])
        else
          var m := MapProfile(Resolve(result, store), result);
          Outcome(Some(m), PostSyncCalls(m, createMember, groups))
  }

  /**
   * A member is held exactly when there is a session and a non-empty result;
   * without one only a warning can be issued; with one every call is about
   * that member, and it is written at most once.
   */
  lemma SyncStepShape(
    hasSession: bool, response: ApiResponse, store: map<string, Member>,
    createMember: bool, groups: Option<seq<string>>)
    ensures var o := SyncStep(hasSession, response, store, createMember, groups);
      o.member.None? <==> !hasSession || response.ApiError? || response.result == map[]
    ensures var o := SyncStep(hasSession, response, store, createMember, groups);
      o.member.None? ==> forall c :: c in o.calls ==> c.Warning?
    ensures var o := SyncStep(hasSession, response, store, createMember, groups);
      o.member.Some? ==> forall c :: c in o.calls ==> !c.Warning? && c.member == o.member.value
    ensures var o := SyncStep(hasSession, response, store, createMember, groups);
      forall i, j :: 0 <= i < j < |o.calls| ==> !(o.calls[i].Write? && o.calls[j].Write?)
  {
  }

  /**
   * The calls follow the policy: none at all when members are not created;
   * otherwise write, then log in, then one enrollment per configured group
   * in list order, and nothing else.
   */
  lemma SyncCallsFollowPolicy(
    hasSession: bool, response: ApiResponse, store: map<string, Member>,
    createMember: bool, groups: Option<seq<string>>)
    requires SyncStep(hasSession, response, store, createMember, groups).member.Some?
    ensures var o := SyncStep(hasSession, response, store, createMember, groups);
      !createMember ==> o.calls == []
    ensures var o := SyncStep(hasSession, response, store, createMember, groups);
      var m, gs := o.member.value, GroupsOrNone(groups);
      createMember ==>
        && |o.calls| == 2 + |gs|
        && o.calls[0] == Write(m)
        && o.calls[1] == LogIn(m)
        && forall i :: 2 <= i < |o.calls| ==> o.calls[i] == AddToGroup(m, gs[i - 2])
  {
  }

  /**
   * The synced member is the profile mapped onto the resolved record: the
   * stored one for a truthy, matching email, a new one (id 0) otherwise.
   */
  lemma SyncedMemberIsResolvedRecord(
    profile: Profile, store: map<string, Member>, createMember: bool, groups: Option<seq<string>>)
    requires profile != map[]
    ensures var o := SyncStep(true, Returned(profile), store, createMember, groups);
      var e := EmailOf(profile);
      && o.member.Some?
      && (e.Some? && Truthy(e.value) && e.value in store ==> o.member.value.id == store[e.value].id)
      && (!(e.Some? && Truthy(e.value) && e.value in store) ==> o.member.value.id == 0)
      && (forall k :: k in ProfileKeys ==> Field(o.member.value, k) == ValueOrEmpty(profile, k))
  {
    var m := MapProfile(Resolve(profile, store), profile);
    assert SyncStep(true, Returned(profile), store, createMember, groups).member == Some(m);
    MappedFields(Resolve(profile, store), profile);
  }

  /** Every sync overwrites all six fields: an earlier sync leaves no trace. */
  lemma LastSyncWins(base: Member, older: Profile, newer: Profile)
    ensures MapProfile(MapProfile(base, older), newer) == MapProfile(base, newer)
  {
  }

  /**
   * Syncing the same profile again, once the written member is stored under
   * its email (with whatever ID the store gave it), reuses that record and
   * leaves every mapped field as it was.
   */
  lemma ResyncReusesWrittenMember(
    profile: Profile, store: map<string, Member>, groups: Option<seq<string>>, id: nat)
    requires profile != map[]
    requires EmailOf(profile).Some? && Truthy(EmailOf(profile).value)
    ensures var first := SyncStep(true, Returned(profile), store, true, groups).member.value;
      var stored := store[EmailOf(profile).value := first.(id := id)];
      SyncStep(true, Returned(profile), stored, true, groups).member == Some(first.(id := id))
  {
  }
}
