/** Administration: user status and role, content moderation, admin login and the audit log, one whole request after
    another. */
module Admin {
  import opened Texts
  import Entities

  // ----- Tables -----

  datatype Role = STUDENT | TUTOR | ADMIN
  datatype User = User(email: Text, role: Role, isActive: bool, refreshToken: Option<Text>)
  datatype Moderation = Moderation(isAdminHidden: bool, adminHiddenReason: Option<Text>, adminHiddenAt: Option<nat>)

  datatype Kind = USER | COURSE | ASSIGNMENT | SUBMISSION | AUTH
  datatype Resource = Resource(kind: Kind, id: Text)

  /** The `beforeState` or `afterState` of an audit entry. */
  datatype Snapshot =
    | StatusIs(isActive: bool)
    | RoleIs(role: Role)
    | SessionsAre(hasRefreshToken: bool)
    | ModerationIs(isAdminHidden: bool, adminHiddenReason: Option<Text>)

  datatype Metadata = Reason(reason: Text) | Email(email: Text)

  datatype Entry = Entry(
    actorId: Text, action: string, resource: Resource, before: Option<Snapshot>, after: Snapshot,
    metadata: Option<Metadata>)

  datatype State = State(
    clock: nat,
    users: map<Text, User>,
    content: map<Resource, Moderation>,
    audit: seq<Entry>,
    // history
    created: set<Resource>,
    born: map<Text, Role>)     // the role a user was created with

  datatype Error =
    | UserNotFound | ContentNotFound | CannotDeactivateSelf | CannotChangeOwnRole | LastActiveAdminRequired
    | Unauthorized
  datatype Outcome = Outcome(state: State, error: Option<Error>)

  function Init(): State { State(0, map[], map[], [], {}, map[]) }

  const SHOWN: Moderation := Moderation(false, None, None)

  // ----- The rule of the last active admin -----

  predicate IsActiveAdmin(u: User) { u.role == ADMIN && u.isActive }

  function ActiveAdmins(users: map<Text, User>): set<Text> { set id | id in users && IsActiveAdmin(users[id]) }

  predicate RemovesActiveAdmin(u: User, nextIsActive: bool, nextRole: Role) {
    IsActiveAdmin(u) && (nextRole != ADMIN || !nextIsActive)
  }

  /** `assertLastActiveAdminRemains` throws. */
  predicate LastAdminRefused(users: map<Text, User>, u: User, nextIsActive: bool, nextRole: Role) {
    RemovesActiveAdmin(u, nextIsActive, nextRole) && |ActiveAdmins(users)| <= 1
  }

  // ----- Requests -----

  function ReasonGiven(reason: Option<Text>): Option<Metadata> {
    if reason.Some? && reason.value != [] then Some(Reason(reason.value)) else None
  }

  function Record(s: State, entry: Entry): State { s.(audit := s.audit + [entry]) }

  function Fail(s: State, error: Error): Outcome { Outcome(s, Some(error)) }

  function UpdateStatus(s: State, actorId: Text, userId: Text, isActive: bool, reason: Option<Text>): Outcome {
    if actorId == userId && !isActive then Fail(s, CannotDeactivateSelf)
    else if userId !in s.users then Fail(s, UserNotFound)
    else
      var user := s.users[userId];
      if LastAdminRefused(s.users, user, isActive, user.role) then Fail(s, LastActiveAdminRequired)
      else
        var updated := user.(isActive := isActive, refreshToken := if isActive then user.refreshToken else None);
        Outcome(
          Record(s.(users := s.users[userId := updated]),
                 Entry(actorId, "users.update_status", Resource(USER, userId), Some(StatusIs(user.isActive)),
                       StatusIs(isActive), ReasonGiven(reason))),
          None)
  }

  function UpdateRole(s: State, actorId: Text, userId: Text, role: Role, reason: Option<Text>): Outcome {
    if actorId == userId then Fail(s, CannotChangeOwnRole)
    else if userId !in s.users then Fail(s, UserNotFound)
    else
      var user := s.users[userId];
      if LastAdminRefused(s.users, user, user.isActive, role) then Fail(s, LastActiveAdminRequired)
      else
        Outcome(
          Record(s.(users := s.users[userId := user.(role := role)]),
                 Entry(actorId, "users.update_role", Resource(USER, userId), Some(RoleIs(user.role)),
                       RoleIs(role), ReasonGiven(reason))),
          None)
  }

  function RevokeSessions(s: State, actorId: Text, userId: Text): Outcome {
    if userId !in s.users then Fail(s, UserNotFound)
    else
      var user := s.users[userId];
      Outcome(
        Record(s.(users := s.users[userId := user.(refreshToken := None)]),
               Entry(actorId, "users.revoke_sessions", Resource(USER, userId),
                 Some(SessionsAre(user.refreshToken.Some?)),
                     SessionsAre(false), None)),
        None)
  }

  function Moderated(isHidden: bool, reason: Option<Text>, now: nat): Moderation {
    Moderation(isHidden, Entities.HiddenReason(isHidden, reason), if isHidden then Some(now) else None)
  }

  /** `createModerationSnapshot`. */
  function ModerationSnapshot(m: Moderation): Snapshot { ModerationIs(m.isAdminHidden, m.adminHiddenReason) }

  function UpdateModeration(s: State, actorId: Text, resource: Resource, isHidden: bool,
    reason: Option<Text>): Outcome {
    if resource !in s.content then Fail(s, ContentNotFound)
    else
      var updated := Moderated(isHidden, reason, s.clock);
      Outcome(
        Record(s.(content := s.content[resource := updated]),
               Entry(actorId, ModerationAction(resource.kind), resource, Some(ModerationSnapshot(s.content[resource])),
                     ModerationSnapshot(updated), ReasonGiven(reason))),
        None)
  }

  function ModerationAction(kind: Kind): string {
    match kind
    case COURSE => "courses.update_moderation"
    case ASSIGNMENT => "assignments.update_moderation"
    case SUBMISSION => "submissions.update_moderation"
    case _ => ""
  }

  /** `loginAdmin` after the credentials were found to be right. */
  function LoginAdmin(s: State, userId: Text, token: Text): Outcome {
    if userId !in s.users || !IsActiveAdmin(s.users[userId]) then Fail(s, Unauthorized)
    else
      var user := s.users[userId];
      Outcome(
        Record(s.(users := s.users[userId := user.(refreshToken := Some(token))]),
               Entry(userId, "admin.login", Resource(AUTH, userId), None, RoleIs(ADMIN), Some(Email(user.email)))),
        None)
  }

  datatype Action =
    | Tick(ms: nat)
    | Register(id: Text, email: Text, role: Role)    // also how the first admin comes in
    | SetRefreshToken(id: Text, token: Option<Text>) // plain login, refresh and logout
    | AdminLogin(userId: Text, session: Text)
    | CreateContent(resource: Resource)
    | RemoveContent(resource: Resource)
    | Status(actorId: Text, userId: Text, isActive: bool, reason: Option<Text>)
    | ChangeRole(actorId: Text, userId: Text, role: Role, reason: Option<Text>)
    | Revoke(actorId: Text, userId: Text)
    | Hide(actorId: Text, resource: Resource, isHidden: bool, reason: Option<Text>)

  function Next(s: State, a: Action): Outcome {
    match a
    case Tick(ms) => Outcome(s.(clock := s.clock + ms), None)
    case Register(id, email, role) =>
      Outcome(
        if Resource(USER, id) in s.created then s
        else s.(users := s.users[id := User(email, role, true, None)], born := s.born[id := role],
                created := s.created + {Resource(USER, id)}),
        None)
    case AdminLogin(userId, token) => LoginAdmin(s, userId, token)
    case SetRefreshToken(id, token) =>
      Outcome(if id in s.users then s.(users := s.users[id := s.users[id].(refreshToken := token)]) else s, None)
    case CreateContent(resource) =>
      Outcome(
        if resource in s.created || resource.kind == USER || resource.kind == AUTH then s
        else s.(content := s.content[resource := SHOWN], created := s.created + {resource}),
        None)
    case RemoveContent(resource) => Outcome(s.(content := s.content - {resource}), None)
    case Status(actorId, userId, isActive, reason) => UpdateStatus(s, actorId, userId, isActive, reason)
    case ChangeRole(actorId, userId, role, reason) => UpdateRole(s, actorId, userId, role, reason)
    case Revoke(actorId, userId) => RevokeSessions(s, actorId, userId)
    case Hide(actorId, resource, isHidden, reason) => UpdateModeration(s, actorId, resource, isHidden, reason)
  }

  function Run(s: State, requests: seq<Action>): State
    decreases |requests|
  {
    if requests == [] then s else Run(Next(s, requests[0]).state, requests[1..])
  }

  // ----- At least one active admin -----

  lemma OnlyOne<T>(s: set<T>, x: T)
    requires x in s && |s| <= 1
    ensures s == {x}
  {
    assert |s - {x}| == |s| - 1;
    assert s - {x} == {};
  }

  lemma AnotherOne<T>(s: set<T>, x: T)
    requires x in s && |s| > 1
    ensures exists y :: y in s && y != x
  {
    assert |s - {x}| == |s| - 1;
    var y :| y in s - {x};
  }

  lemma TwoOrMore<T>(s: set<T>, x: T, y: T)
    requires x in s && y in s && x != y
    ensures |s| >= 2
  {
    assert y in s - {x};
    assert |s - {x}| == |s| - 1;
  }

  /** A change of one user that is not refused leaves an active admin. */
  lemma OneRemains(users: map<Text, User>, id: Text, updated: User)
    requires id in users && ActiveAdmins(users) != {}
    requires IsActiveAdmin(users[id]) && !IsActiveAdmin(updated) ==> |ActiveAdmins(users)| > 1
    ensures ActiveAdmins(users[id := updated]) != {}
  {
    var after := users[id := updated];
    if IsActiveAdmin(users[id]) && !IsActiveAdmin(updated) {
      AnotherOne(ActiveAdmins(users), id);
      var other :| other in ActiveAdmins(users) && other != id;
      assert other in ActiveAdmins(after);
    } else if IsActiveAdmin(users[id]) {
      assert id in ActiveAdmins(after);
    } else {
      var other :| other in ActiveAdmins(users);
      assert other in ActiveAdmins(after);
    }
  }

  lemma RequestKeepsAdmin(s: State, a: Action)
    requires ActiveAdmins(s.users) != {} && Inv(s)
    ensures ActiveAdmins(Next(s, a).state.users) != {}
  {
    var t := Next(s, a).state;
    KnownUsers(s);
    hide ActiveAdmins;
    match a
    case Status(_, userId, _, _) =>
      if t != s {
        OneRemains(s.users, userId, t.users[userId]);
      }
    case ChangeRole(_, userId, _, _) =>
      if t != s {
        OneRemains(s.users, userId, t.users[userId]);
      }
    case Revoke(_, userId) =>
      if t != s {
        OneRemains(s.users, userId, t.users[userId]);
      }
    case SetRefreshToken(id, _) =>
      if id in s.users {
        OneRemains(s.users, id, t.users[id]);
      }
    case AdminLogin(userId, _) =>
      if t != s {
        OneRemains(s.users, userId, t.users[userId]);
      }
    case Register(id, _, _) =>
      if t != s {
        NewUserKeepsAdmins(s.users, id, t.users[id]);
      }
    case _ =>
  }

  lemma NewUserKeepsAdmins(users: map<Text, User>, id: Text, u: User)
    requires id !in users && ActiveAdmins(users) != {}
    ensures ActiveAdmins(users[id := u]) != {}
  {
    var some :| some in ActiveAdmins(users);
    assert some in ActiveAdmins(users[id := u]);
  }

  ghost predicate SomeActiveAdmin(users: map<Text, User>) {
    exists id :: id in users && users[id].role == ADMIN && users[id].isActive
  }

  lemma AdminExists(users: map<Text, User>)
    ensures ActiveAdmins(users) != {} <==> SomeActiveAdmin(users)
  {
    if id :| id in users && users[id].role == ADMIN && users[id].isActive {
      assert id in ActiveAdmins(users);
    }
    if ActiveAdmins(users) != {} {
      var id :| id in ActiveAdmins(users);
      assert users[id].role == ADMIN;
    }
  }

  /** Once there is an active admin there always is one. */
  lemma {:induction false} LastActiveAdmin(s: State, requests: seq<Action>)
    requires Inv(s) && SomeActiveAdmin(s.users)
    ensures SomeActiveAdmin(Run(s, requests).users)
    decreases |requests|
  {
    if requests != [] {
      AdminExists(s.users);
      AdminExists(Next(s, requests[0]).state.users);
      hide ActiveAdmins, SomeActiveAdmin;
      RequestKeepsAdmin(s, requests[0]);
      NextKeepsInv(s, requests[0]);
      LastActiveAdmin(Next(s, requests[0]).state, requests[1..]);
    }
  }

  /** An actor who is an active admin is never told that the last active admin must remain. */
  lemma ActiveActorIsNotRefused(s: State, a: Action)
    requires a.Status? || a.ChangeRole?
    requires a.actorId in s.users && IsActiveAdmin(s.users[a.actorId])
    ensures Next(s, a).error != Some(LastActiveAdminRequired)
  {
    if a.userId in s.users && a.userId != a.actorId && IsActiveAdmin(s.users[a.userId]) {
      TwoOrMore(ActiveAdmins(s.users), a.actorId, a.userId);
    }
  }

  /** The count check rejects exactly the requests of someone else that would leave no active admin. */
  lemma RefusedIffNoneWouldRemain(s: State, a: Action)
    requires a.Status? || a.ChangeRole?
    requires a.userId in s.users && a.actorId != a.userId && ActiveAdmins(s.users) != {}
    ensures var u := s.users[a.userId];
      var updated := if a.Status? then u.(isActive := a.isActive) else u.(role := a.role);
      Next(s, a).error == Some(LastActiveAdminRequired) <==> ActiveAdmins(s.users[a.userId := updated]) == {}
  {
    var u := s.users[a.userId];
    var updated := if a.Status? then u.(isActive := a.isActive) else u.(role := a.role);
    var after := s.users[a.userId := updated];
    if IsActiveAdmin(u) && !IsActiveAdmin(updated) && |ActiveAdmins(s.users)| <= 1 {
      OnlyOne(ActiveAdmins(s.users), a.userId);
      assert forall id :: id in after && id != a.userId ==> id !in ActiveAdmins(s.users);
      assert ActiveAdmins(after) == {};
    } else {
      OneRemains(s.users, a.userId, updated);
    }
  }

  // ----- What each request is told -----

  /** `id` is an active admin, and no other user is. */
  ghost predicate OnlyActiveAdmin(users: map<Text, User>, id: Text) {
    id in users && forall q :: q in users ==> (users[q].role == ADMIN && users[q].isActive <==> q == id)
  }

  lemma OnlyActiveAdminIff(users: map<Text, User>, id: Text)
    requires id in users
    ensures IsActiveAdmin(users[id]) && |ActiveAdmins(users)| <= 1 <==> OnlyActiveAdmin(users, id)
  {
    if IsActiveAdmin(users[id]) {
      assert id in ActiveAdmins(users);
      if |ActiveAdmins(users)| <= 1 {
        OnlyOne(ActiveAdmins(users), id);
        assert forall q :: q in users && IsActiveAdmin(users[q]) ==> q in ActiveAdmins(users);
      } else {
        AnotherOne(ActiveAdmins(users), id);
      }
    }
  }

  /** A status request is refused for deactivating oneself, else for a missing user, else for taking away the only
      active admin, and for nothing else. */
  ghost predicate StatusTold(
    users: map<Text, User>, actorId: Text, userId: Text, isActive: bool, error: Option<Error>)
  {
    && (error == Some(CannotDeactivateSelf) <==> actorId == userId && !isActive)
    && (error == Some(UserNotFound) <==> (actorId != userId || isActive) && userId !in users)
    && (error == Some(LastActiveAdminRequired) <==>
          actorId != userId && !isActive && OnlyActiveAdmin(users, userId))
    && (error == None <==>
          userId in users && (isActive || (actorId != userId && !OnlyActiveAdmin(users, userId))))
  }

  /** A role request is refused for changing one's own, else for a missing user, else for taking away the only active
      admin, and for nothing else. */
  ghost predicate RoleTold(users: map<Text, User>, actorId: Text, userId: Text, role: Role, error: Option<Error>) {
    && (error == Some(CannotChangeOwnRole) <==> actorId == userId)
    && (error == Some(UserNotFound) <==> actorId != userId && userId !in users)
    && (error == Some(LastActiveAdminRequired) <==>
          actorId != userId && role != ADMIN && OnlyActiveAdmin(users, userId))
    && (error == None <==>
          actorId != userId && userId in users && (role == ADMIN || !OnlyActiveAdmin(users, userId)))
  }

  /** Each answer of a status request, exactly; on success the status is stored and a deactivated user's session is
      gone. */
  lemma StatusAnswers(s: State, actorId: Text, userId: Text, isActive: bool, reason: Option<Text>)
    ensures var told := Next(s, Status(actorId, userId, isActive, reason));
      && StatusTold(s.users, actorId, userId, isActive, told.error)
      && (told.error.None? ==>
            userId in s.users && told.state.users == s.users[userId := s.users[userId].(
              isActive := isActive, refreshToken := if isActive then s.users[userId].refreshToken else None)])
  {
    if userId in s.users {
      OnlyActiveAdminIff(s.users, userId);
    }
    hide ActiveAdmins, OnlyActiveAdmin;
  }

  /** Each answer of a role request, exactly; on success the role is stored. */
  lemma RoleAnswers(s: State, actorId: Text, userId: Text, role: Role, reason: Option<Text>)
    ensures var told := Next(s, ChangeRole(actorId, userId, role, reason));
      && RoleTold(s.users, actorId, userId, role, told.error)
      && (told.error.None? ==>
            userId in s.users && told.state.users == s.users[userId := s.users[userId].(role := role)])
  {
    if userId in s.users {
      OnlyActiveAdminIff(s.users, userId);
    }
    hide ActiveAdmins, OnlyActiveAdmin;
  }

  // ----- The audit log replays to the tables -----

  datatype Aspect = STATUS | ROLE | SESSIONS | MODERATION

  function AspectOf(s: Snapshot): Aspect {
    match s
    case StatusIs(_) => STATUS
    case RoleIs(_) => ROLE
    case SessionsAre(_) => SESSIONS
    case ModerationIs(_, _) => MODERATION
  }

  predicate About(e: Entry, resource: Resource, aspect: Aspect)
  {
    e.resource == resource && AspectOf(e.after) == aspect
  }

  /** The log folded over a start value: each entry about the resource sets the value to its `afterState`. */
  function Replayed(audit: seq<Entry>, resource: Resource, aspect: Aspect, start: Snapshot): Snapshot
    decreases |audit|
  {
    if audit == [] then start
    else
      var e := audit[|audit| - 1];
      if About(e, resource, aspect) then e.after else Replayed(audit[..|audit| - 1], resource, aspect, start)
  }

  /** The creation defaults. */
  function Default(s: State, resource: Resource, aspect: Aspect): Snapshot
    requires resource.kind == USER ==> resource.id in s.born
  {
    match aspect
    case STATUS => StatusIs(true)
    case ROLE => RoleIs(if resource.kind == USER then s.born[resource.id] else STUDENT)
    case SESSIONS => SessionsAre(false)
    case MODERATION => ModerationIs(false, None)
  }

  /** What the tables say now. */
  ghost predicate UserAgrees(s: State, id: Text)
    requires id in s.users
  {
    var user := Resource(USER, id);
    && user in s.created && id in s.born
    && StatusIs(s.users[id].isActive) == Replayed(s.audit, user, STATUS, StatusIs(true))
    && RoleIs(s.users[id].role) == Replayed(s.audit, user, ROLE, RoleIs(s.born[id]))
  }

  ghost predicate ContentAgrees(s: State, resource: Resource)
    requires resource in s.content
  {
    && resource in s.created && resource.kind != USER && resource.kind != AUTH
    && ModerationSnapshot(s.content[resource]) == Replayed(s.audit, resource, MODERATION, ModerationIs(false, None))
    && (!s.content[resource].isAdminHidden ==>
          s.content[resource].adminHiddenReason == None && s.content[resource].adminHiddenAt == None)
    && (s.content[resource].isAdminHidden ==> s.content[resource].adminHiddenAt.Some?)
  }

  /** Entry `i` starts from what the entries before it led to. */
  ghost predicate EntryChains(s: State, i: nat)
    requires i < |s.audit|
  {
    var e := s.audit[i];
    if e.resource.kind == AUTH then LoginEntry(s, e) else WriteEntry(s, s.audit[..i], e)
  }

  /** A login says who, with which role, and nothing about before. */
  ghost predicate LoginEntry(s: State, e: Entry) {
    && e.action == "admin.login" && Resource(USER, e.resource.id) in s.created && e.actorId == e.resource.id
    && e.before == None && e.after == RoleIs(ADMIN) && e.metadata.Some? && e.metadata.value.Email?
  }

  /** What the action of a write says. */
  function WriteAction(kind: Kind, aspect: Aspect): string {
    match aspect
    case STATUS => "users.update_status"
    case ROLE => "users.update_role"
    case SESSIONS => "users.revoke_sessions"
    case MODERATION => ModerationAction(kind)
  }

  /** A write says what was stored before it. */
  ghost predicate WriteEntry(s: State, earlier: seq<Entry>, e: Entry) {
    && e.resource in s.created && (e.resource.kind == USER ==> e.resource.id in s.born)
    && e.action == WriteAction(e.resource.kind, AspectOf(e.after))
    && (AspectOf(e.after) == MODERATION <==> e.resource.kind != USER)
    && e.before.Some? && AspectOf(e.before.value) == AspectOf(e.after)
    && (e.metadata.Some? ==> e.metadata.value.Reason?)
    && (AspectOf(e.after) != SESSIONS ==>
          e.before.value == Replayed(earlier, e.resource, AspectOf(e.after), Default(s, e.resource, AspectOf(e.after))))
  }

  ghost predicate Inv(s: State) {
    && (forall id {:trigger UserAgrees(s, id)} :: id in s.users ==> UserAgrees(s, id))
    && (forall r {:trigger ContentAgrees(s, r)} :: r in s.content ==> ContentAgrees(s, r))
    && (forall i: nat {:trigger EntryChains(s, i)} :: i < |s.audit| ==> EntryChains(s, i))
    && (forall id :: id in s.born ==> Resource(USER, id) in s.created)
  }

  lemma ReplayedAppend(audit: seq<Entry>, e: Entry, resource: Resource, aspect: Aspect, start: Snapshot)
    ensures Replayed(audit + [e], resource, aspect, start) ==
      if About(e, resource, aspect) then e.after else Replayed(audit, resource, aspect, start)
  {
    assert (audit + [e])[..|audit|] == audit;
  }

  lemma {:induction false} NothingLogged(audit: seq<Entry>, resource: Resource, aspect: Aspect, start: Snapshot)
    requires forall i: nat :: i < |audit| ==> audit[i].resource != resource
    ensures Replayed(audit, resource, aspect, start) == start
    decreases |audit|
  {
    if audit != [] {
      NothingLogged(audit[..|audit| - 1], resource, aspect, start);
    }
  }

  lemma EntriesKept(s: State, t: State, i: nat)
    requires i < |s.audit| && EntryChains(s, i)
    requires |t.audit| >= |s.audit| && t.audit[..|s.audit|] == s.audit && s.created <= t.created
    requires forall id :: id in s.born ==> id in t.born && t.born[id] == s.born[id]
    ensures EntryChains(t, i)
  {
    assert t.audit[i] == t.audit[..|s.audit|][i];
    assert t.audit[..i] == s.audit[..i];
  }

  /** One request wrote one user or one piece of content, and logged it. */
  ghost predicate Logged(s: State, t: State, e: Entry) {
    t.audit == s.audit + [e] && t.created == s.created && t.born == s.born
  }

  lemma UserLogged(s: State, t: State, e: Entry, id: Text, q: Text)
    requires Inv(s) && Logged(s, t, e) && e.resource == Resource(USER, id) && q in s.users && q in t.users
    requires q != id ==> t.users[q] == s.users[q]
    requires q == id ==> t.users[q].isActive == if e.after.StatusIs? then e.after.isActive else s.users[q].isActive
    requires q == id ==> t.users[q].role == if e.after.RoleIs? then e.after.role else s.users[q].role
    ensures UserAgrees(t, q)
  {
    assert UserAgrees(s, q);
    ReplayedAppend(s.audit, e, Resource(USER, q), STATUS, StatusIs(true));
    ReplayedAppend(s.audit, e, Resource(USER, q), ROLE, RoleIs(s.born[q]));
  }

  lemma ContentLogged(s: State, t: State, e: Entry, r: Resource)
    requires Inv(s) && Logged(s, t, e) && r in s.content && r in t.content
    requires e.resource != r || !e.after.ModerationIs? ==> t.content[r] == s.content[r]
    requires e.resource == r && e.after.ModerationIs? ==>
      ModerationSnapshot(t.content[r]) == e.after && exists h, reason, now :: t.content[r] == Moderated(h, reason, now)
    ensures ContentAgrees(t, r)
  {
    assert ContentAgrees(s, r);
    ReplayedAppend(s.audit, e, r, MODERATION, ModerationIs(false, None));
  }

  lemma EntryLogged(s: State, t: State, e: Entry)
    requires Inv(s) && Logged(s, t, e)
    requires if e.resource.kind == AUTH then LoginEntry(s, e) else WriteEntry(s, s.audit, e)
    ensures forall i: nat {:trigger EntryChains(t, i)} :: i < |t.audit| ==> EntryChains(t, i)
  {
    assert t.audit[..|s.audit|] == s.audit;
    assert Default(t, e.resource, AspectOf(e.after)) == Default(s, e.resource, AspectOf(e.after));
    forall i: nat | i < |t.audit| ensures EntryChains(t, i) {
      if i < |s.audit| {
        assert EntryChains(s, i);
        EntriesKept(s, t, i);
      }
    }
  }

  lemma UserRequestKeepsInv(s: State, t: State, e: Entry, id: Text)
    requires Inv(s) && Logged(s, t, e) && id in s.users && e.resource == Resource(USER, id) && t.content == s.content
    requires id in t.users && t.users == s.users[id := t.users[id]]
    requires t.users[id].isActive == if e.after.StatusIs? then e.after.isActive else s.users[id].isActive
    requires t.users[id].role == if e.after.RoleIs? then e.after.role else s.users[id].role
    requires e.action == WriteAction(USER, AspectOf(e.after)) && (e.metadata.Some? ==> e.metadata.value.Reason?)
    requires match e.after
      case StatusIs(_) => e.before == Some(StatusIs(s.users[id].isActive))
      case RoleIs(_) => e.before == Some(RoleIs(s.users[id].role))
      case SessionsAre(_) => e.before.Some? && e.before.value.SessionsAre?
      case ModerationIs(_, _) => false
    ensures Inv(t)
  {
    assert UserAgrees(s, id);
    EntryLogged(s, t, e);
    forall q | q in t.users ensures UserAgrees(t, q) {
      UserLogged(s, t, e, id, q);
    }
    forall r | r in t.content ensures ContentAgrees(t, r) {
      ContentLogged(s, t, e, r);
    }
  }

  lemma HideKeepsInv(s: State, actorId: Text, resource: Resource, isHidden: bool, reason: Option<Text>)
    requires Inv(s)
    ensures Inv(UpdateModeration(s, actorId, resource, isHidden, reason).state)
  {
    if resource in s.content {
      var t := UpdateModeration(s, actorId, resource, isHidden, reason).state;
      var e := t.audit[|s.audit|];
      assert ContentAgrees(s, resource);
      EntryLogged(s, t, e);
      forall q | q in t.users ensures UserAgrees(t, q) {
        assert UserAgrees(s, q);
        ReplayedAppend(s.audit, e, Resource(USER, q), STATUS, StatusIs(true));
        ReplayedAppend(s.audit, e, Resource(USER, q), ROLE, RoleIs(s.born[q]));
      }
      forall r | r in t.content ensures ContentAgrees(t, r) {
        if r == resource {
          assert t.content[r] == Moderated(isHidden, reason, s.clock);
        }
        ContentLogged(s, t, e, r);
      }
    }
  }

  lemma LoginKeepsInv(s: State, userId: Text, token: Text)
    requires Inv(s)
    ensures Inv(LoginAdmin(s, userId, token).state)
  {
    if userId in s.users && IsActiveAdmin(s.users[userId]) {
      var t := LoginAdmin(s, userId, token).state;
      var e := t.audit[|s.audit|];
      assert UserAgrees(s, userId);
      EntryLogged(s, t, e);
      forall q | q in t.users ensures UserAgrees(t, q) {
        assert UserAgrees(s, q);
        ReplayedAppend(s.audit, e, Resource(USER, q), STATUS, StatusIs(true));
        ReplayedAppend(s.audit, e, Resource(USER, q), ROLE, RoleIs(s.born[q]));
      }
      forall r | r in t.content ensures ContentAgrees(t, r) {
        assert ContentAgrees(s, r);
        ContentLogged(s, t, e, r);
      }
    }
  }

  /** Steps that log nothing. */
  lemma UnloggedKeepsInv(s: State, t: State)
    requires Inv(s) && t.audit == s.audit && s.created <= t.created
    requires forall id :: id in s.born ==> id in t.born && t.born[id] == s.born[id]
    requires forall id :: id in t.born ==> Resource(USER, id) in t.created
    requires forall id :: id in t.users ==>
      if id in s.users then t.users[id].role == s.users[id].role && t.users[id].isActive == s.users[id].isActive
      else
        && id in t.born && t.users[id].role == t.born[id] && t.users[id].isActive
        && Resource(USER, id) in t.created - s.created
    requires forall r :: r in t.content ==>
      if r in s.content then t.content[r] == s.content[r]
      else t.content[r] == SHOWN && r.kind != USER && r.kind != AUTH && r in t.created - s.created
    ensures Inv(t)
  {
    forall i: nat | i < |t.audit| ensures EntryChains(t, i) {
      assert EntryChains(s, i);
      EntriesKept(s, t, i);
    }
    forall id | id in t.users ensures UserAgrees(t, id) {
      if id in s.users {
        assert UserAgrees(s, id);
      } else {
        NewHasNoEntries(s, Resource(USER, id));
        NothingLogged(s.audit, Resource(USER, id), STATUS, StatusIs(true));
        NothingLogged(s.audit, Resource(USER, id), ROLE, RoleIs(t.born[id]));
      }
    }
    forall r | r in t.content ensures ContentAgrees(t, r) {
      if r in s.content {
        assert ContentAgrees(s, r);
      } else {
        NewHasNoEntries(s, r);
        NothingLogged(s.audit, r, MODERATION, ModerationIs(false, None));
      }
    }
  }

  lemma NewHasNoEntries(s: State, resource: Resource)
    requires Inv(s) && resource !in s.created && resource.kind != AUTH
    ensures forall i: nat :: i < |s.audit| ==> s.audit[i].resource != resource
  {
    forall i: nat | i < |s.audit| ensures s.audit[i].resource != resource {
      assert EntryChains(s, i);
    }
  }

  lemma StatusKeepsInv(s: State, actorId: Text, userId: Text, isActive: bool, reason: Option<Text>)
    requires Inv(s)
    ensures Inv(UpdateStatus(s, actorId, userId, isActive, reason).state)
  {
    hide Inv, LastAdminRefused;
    var t := UpdateStatus(s, actorId, userId, isActive, reason).state;
    if t != s {
      UserRequestKeepsInv(s, t, t.audit[|s.audit|], userId);
    }
  }

  lemma RoleKeepsInv(s: State, actorId: Text, userId: Text, role: Role, reason: Option<Text>)
    requires Inv(s)
    ensures Inv(UpdateRole(s, actorId, userId, role, reason).state)
  {
    hide Inv, LastAdminRefused;
    var t := UpdateRole(s, actorId, userId, role, reason).state;
    if t != s {
      UserRequestKeepsInv(s, t, t.audit[|s.audit|], userId);
    }
  }

  lemma RevokeKeepsInv(s: State, actorId: Text, userId: Text)
    requires Inv(s)
    ensures Inv(RevokeSessions(s, actorId, userId).state)
  {
    hide Inv;
    var t := RevokeSessions(s, actorId, userId).state;
    if t != s {
      UserRequestKeepsInv(s, t, t.audit[|s.audit|], userId);
    }
  }

  lemma NextKeepsInv(s: State, a: Action)
    requires Inv(s)
    ensures Inv(Next(s, a).state)
  {
    var t := Next(s, a).state;
    hide Inv, UpdateStatus, UpdateRole, RevokeSessions, UpdateModeration, LoginAdmin;
    match a
    case Status(actorId, userId, isActive, reason) => StatusKeepsInv(s, actorId, userId, isActive, reason);
    case ChangeRole(actorId, userId, role, reason) => RoleKeepsInv(s, actorId, userId, role, reason);
    case Revoke(actorId, userId) => RevokeKeepsInv(s, actorId, userId);
    case Hide(actorId, resource, isHidden, reason) => HideKeepsInv(s, actorId, resource, isHidden, reason);
    case AdminLogin(userId, token) => LoginKeepsInv(s, userId, token);
    case _ =>
      KnownUsers(s);
      UnloggedKeepsInv(s, t);
  }

  lemma KnownUsers(s: State)
    requires Inv(s)
    ensures forall id :: id in s.users ==> id in s.born && Resource(USER, id) in s.created
    ensures forall id :: id in s.born ==> Resource(USER, id) in s.created
    ensures forall r :: r in s.content ==> r in s.created
  {
    forall id | id in s.users ensures id in s.born && Resource(USER, id) in s.created {
      assert UserAgrees(s, id);
    }
    forall r | r in s.content ensures r in s.created {
      assert ContentAgrees(s, r);
    }
  }

  lemma {:induction false} RunKeepsInv(s: State, requests: seq<Action>)
    requires Inv(s)
    ensures Inv(Run(s, requests))
    decreases |requests|
  {
    if requests != [] {
      NextKeepsInv(s, requests[0]);
      RunKeepsInv(Next(s, requests[0]).state, requests[1..]);
    }
  }

  // ----- Results -----

  /** Folding the log over the creation defaults gives the role and the status that are stored. */
  lemma AuditReplaysUsers(requests: seq<Action>, id: Text)
    requires id in Run(Init(), requests).users
    ensures var s := Run(Init(), requests);
      && id in s.born
      && Replayed(s.audit, Resource(USER, id), STATUS, StatusIs(true)) == StatusIs(s.users[id].isActive)
      && Replayed(s.audit, Resource(USER, id), ROLE, RoleIs(s.born[id])) == RoleIs(s.users[id].role)
  {
    RunKeepsInv(Init(), requests);
    assert UserAgrees(Run(Init(), requests), id);
  }

  /** And the moderation that is stored; what is not hidden has no reason and no time, what is hidden has a time. */
  lemma AuditReplaysContent(requests: seq<Action>, resource: Resource)
    requires resource in Run(Init(), requests).content
    ensures var s := Run(Init(), requests);
      && Replayed(s.audit, resource, MODERATION, ModerationIs(false, None)) == ModerationSnapshot(s.content[resource])
      && (s.content[resource].isAdminHidden <==> s.content[resource].adminHiddenAt.Some?)
      && (s.content[resource].adminHiddenReason.Some? ==> s.content[resource].isAdminHidden)
  {
    RunKeepsInv(Init(), requests);
    assert ContentAgrees(Run(Init(), requests), resource);
  }

  lemma {:induction false} ReplayedSkips(audit: seq<Entry>, i: nat, resource: Resource, aspect: Aspect, start: Snapshot)
    requires i < |audit| && About(audit[i], resource, aspect)
    requires forall k: nat :: i < k < |audit| ==> !About(audit[k], resource, aspect)
    ensures Replayed(audit, resource, aspect, start) == audit[i].after
    decreases |audit|
  {
    if i < |audit| - 1 {
      assert !About(audit[|audit| - 1], resource, aspect);
      ReplayedSkips(audit[..|audit| - 1], i, resource, aspect, start);
    }
  }

  /** Consecutive status, role or moderation entries of a resource chain: one's `afterState` is the next one's
      `beforeState`. */
  lemma ConsecutiveEntriesChain(requests: seq<Action>, i: nat, j: nat, resource: Resource, aspect: Aspect)
    requires var audit := Run(Init(), requests).audit;
      && i < j < |audit| && aspect != SESSIONS && resource.kind != AUTH
      && About(audit[i], resource, aspect) && About(audit[j], resource, aspect)
      && forall k: nat :: i < k < j ==> !About(audit[k], resource, aspect)
    ensures var audit := Run(Init(), requests).audit; audit[j].before == Some(audit[i].after)
  {
    RunKeepsInv(Init(), requests);
    var s := Run(Init(), requests);
    assert EntryChains(s, j);
    ReplayedSkips(s.audit[..j], i, resource, aspect, Default(s, resource, aspect));
  }

  /** What the tables store about an aspect of a user, or about the moderation of a piece of content. */
  function Stored(s: State, resource: Resource, aspect: Aspect): Option<Snapshot> {
    if resource.kind == USER then
      if resource.id !in s.users then None
      else
        match aspect
        case STATUS => Some(StatusIs(s.users[resource.id].isActive))
        case ROLE => Some(RoleIs(s.users[resource.id].role))
        case SESSIONS => Some(SessionsAre(s.users[resource.id].refreshToken.Some?))
        case MODERATION => None
    else if resource in s.content && aspect == MODERATION then Some(ModerationSnapshot(s.content[resource]))
    else None
  }

  function Subject(a: Action): Resource
    requires a.Status? || a.ChangeRole? || a.Revoke? || a.Hide?
  {
    if a.Hide? then a.resource else Resource(USER, a.userId)
  }

  function Changes(a: Action): Aspect {
    match a
    case Status(_, _, _, _) => STATUS
    case ChangeRole(_, _, _, _) => ROLE
    case Revoke(_, _) => SESSIONS
    case _ => MODERATION
  }

  /** A request fails and changes nothing, or logs one entry of its actor about its resource, whose states are what
      the tables stored before and after; of everything else the tables store, only a deactivation's session changes. */
  lemma LoggedIffDone(s: State, a: Action)
    requires a.Status? || a.ChangeRole? || a.Revoke? || a.Hide?
    requires Inv(s)
    ensures var t := Next(s, a).state;
      if Next(s, a).error.Some? then t == s
      else
        && Stored(s, Subject(a), Changes(a)).Some? && Stored(t, Subject(a), Changes(a)).Some?
        && t.audit == s.audit + [Entry(a.actorId, WriteAction(Subject(a).kind, Changes(a)), Subject(a),
                                       Stored(s, Subject(a), Changes(a)), Stored(t, Subject(a), Changes(a)).value,
                                       if a.Revoke? then None else ReasonGiven(a.reason))]
        && forall r, aspect ::
          r != Subject(a) || (aspect != Changes(a) && !(aspect == SESSIONS && a.Status? && !a.isActive)) ==>
             Stored(t, r, aspect) == Stored(s, r, aspect)
  {
    if a.Hide? && a.resource in s.content {
      assert ContentAgrees(s, a.resource);
    }
    hide Inv, LastAdminRefused;
  }

  /** An entry of a login comes from an active admin who has a session afterwards, and writes nothing else. */
  lemma LoginIffActiveAdmin(s: State, userId: Text, token: Text)
    ensures var t := LoginAdmin(s, userId, token).state;
      if userId in s.users && IsActiveAdmin(s.users[userId]) then
        && t.audit == s.audit + [
             Entry(userId, "admin.login", Resource(AUTH, userId), None, RoleIs(ADMIN),
               Some(Email(s.users[userId].email)))]
        && Stored(t, Resource(USER, userId), SESSIONS) == Some(SessionsAre(true))
        && (forall r, aspect :: r != Resource(USER, userId) || aspect != SESSIONS ==>
              Stored(t, r, aspect) == Stored(s, r, aspect))
      else t == s && LoginAdmin(s, userId, token).error == Some(Unauthorized)
  {
  }
}
