/** The administration services as an object: users, moderation and the audit log are updated in place. */
module AdminService {
  import opened Texts
  import opened Admin

  lemma StillAdmins(s: State, a: Action)
    requires Inv(s)
    ensures SomeActiveAdmin(s.users) ==> SomeActiveAdmin(Next(s, a).state.users)
  {
    AdminExists(s.users);
    AdminExists(Next(s, a).state.users);
    hide SomeActiveAdmin;
    if ActiveAdmins(s.users) != {} {
      RequestKeepsAdmin(s, a);
    }
  }

  class Service {
    var clock: nat
    var users: map<Text, User>
    var content: map<Resource, Moderation>
    var audit: seq<Entry>
    // history
    var created: set<Resource>
    var born: map<Text, Role>

    ghost function View(): State
      reads this
    {
      State(clock, users, content, audit, created, born)
    }

    ghost predicate Valid()
      reads this
    {
      Inv(View())
    }

    /** No other user changed, and none came or went. */
    ghost predicate OnlyUser(userId: Text, before: map<Text, User>)
      reads this
    {
      users.Keys == before.Keys && forall q :: q in users && q != userId ==> users[q] == before[q]
    }

    ghost predicate AdminsRemain(before: map<Text, User>)
      reads this
    {
      SomeActiveAdmin(before) ==> SomeActiveAdmin(users)
    }

    constructor ()
      ensures Valid() && View() == Init()
    {
      clock, users, content, audit, created, born := 0, map[], map[], [], {}, map[];
    }

    /** `assertLastActiveAdminRemains`. */
    method AssertLastActiveAdminRemains(user: User, nextIsActive: bool, nextRole: Role) returns (error: Option<Error>)
      ensures error == if LastAdminRefused(users, user, nextIsActive, nextRole) then Some(LastActiveAdminRequired)
        else None
    {
      var removesActiveAdmin := user.role == ADMIN && user.isActive && (nextRole != ADMIN || !nextIsActive);
      if !removesActiveAdmin {
        return None;
      }
      var activeAdminCount := |set id | id in users && users[id].role == ADMIN && users[id].isActive|;
      assert (set id | id in users && users[id].role == ADMIN && users[id].isActive) == ActiveAdmins(users);
      return if activeAdminCount <= 1 then Some(LastActiveAdminRequired) else None;
    }

    method SetStatus(actorId: Text, userId: Text, isActive: bool, reason: Option<Text>) returns (error: Option<Error>)
      requires Valid()
      modifies this`users, this`audit
      ensures Outcome(View(), error) == UpdateStatus(old(View()), actorId, userId, isActive, reason)
      ensures Valid() && AdminsRemain(old(users)) && OnlyUser(userId, old(users))
      ensures StatusTold(old(users), actorId, userId, isActive, error)
      ensures error.Some? ==> users == old(users) && audit == old(audit)
      ensures error.None? ==>
        && userId in users
        && users[userId] == old(users)[userId].(isActive := isActive,
             refreshToken := if isActive then old(users)[userId].refreshToken else None)
        && audit == old(audit) + [Entry(actorId, "users.update_status", Resource(USER, userId),
             Some(StatusIs(old(users)[userId].isActive)), StatusIs(isActive),
             if reason.None? || reason.value == [] then None else Some(Reason(reason.value)))]
    {
      StatusAnswers(View(), actorId, userId, isActive, reason);
      NextKeepsInv(View(), Status(actorId, userId, isActive, reason));
      StillAdmins(View(), Status(actorId, userId, isActive, reason));
      hide Inv, ActiveAdmins, SomeActiveAdmin, OnlyActiveAdmin;
      if actorId == userId && !isActive {
        return Some(CannotDeactivateSelf);
      }
      if userId !in users {
        return Some(UserNotFound);
      }
      var user := users[userId];
      error := AssertLastActiveAdminRemains(user, isActive, user.role);
      if error.Some? {
        return;
      }
      var beforeState := StatusIs(user.isActive);
      user := user.(isActive := isActive);
      if !isActive {
        user := user.(refreshToken := None);
      }
      users := users[userId := user];
      audit := audit
        + [Entry(actorId, "users.update_status", Resource(USER, userId), Some(beforeState), StatusIs(user.isActive),
          ReasonGiven(reason))];
    }

    method SetRole(actorId: Text, userId: Text, role: Role, reason: Option<Text>) returns (error: Option<Error>)
      requires Valid()
      modifies this`users, this`audit
      ensures Outcome(View(), error) == UpdateRole(old(View()), actorId, userId, role, reason)
      ensures Valid() && AdminsRemain(old(users)) && OnlyUser(userId, old(users))
      ensures RoleTold(old(users), actorId, userId, role, error)
      ensures error.Some? ==> users == old(users) && audit == old(audit)
      ensures error.None? ==>
        && userId in users && users[userId] == old(users)[userId].(role := role)
        && audit == old(audit) + [Entry(actorId, "users.update_role", Resource(USER, userId),
             Some(RoleIs(old(users)[userId].role)), RoleIs(role),
             if reason.None? || reason.value == [] then None else Some(Reason(reason.value)))]
    {
      RoleAnswers(View(), actorId, userId, role, reason);
      NextKeepsInv(View(), ChangeRole(actorId, userId, role, reason));
      StillAdmins(View(), ChangeRole(actorId, userId, role, reason));
      hide Inv, ActiveAdmins, SomeActiveAdmin, OnlyActiveAdmin;
      if actorId == userId {
        return Some(CannotChangeOwnRole);
      }
      if userId !in users {
        return Some(UserNotFound);
      }
      var user := users[userId];
      error := AssertLastActiveAdminRemains(user, user.isActive, role);
      if error.Some? {
        return;
      }
      var beforeState := RoleIs(user.role);
      user := user.(role := role);
      users := users[userId := user];
      audit := audit
        + [Entry(actorId, "users.update_role", Resource(USER, userId), Some(beforeState), RoleIs(user.role),
          ReasonGiven(reason))];
    }

    method EndSessions(actorId: Text, userId: Text) returns (error: Option<Error>)
      requires Valid()
      modifies this`users, this`audit
      ensures Outcome(View(), error) == RevokeSessions(old(View()), actorId, userId)
      ensures Valid() && OnlyUser(userId, old(users))
      ensures error == if userId in old(users) then None else Some(UserNotFound)
      ensures error.Some? ==> users == old(users) && audit == old(audit)
      ensures error.None? ==>
        && userId in users && users[userId] == old(users)[userId].(refreshToken := None)
        && audit == old(audit) + [Entry(actorId, "users.revoke_sessions", Resource(USER, userId),
             Some(SessionsAre(old(users)[userId].refreshToken.Some?)), SessionsAre(false), None)]
    {
      NextKeepsInv(View(), Revoke(actorId, userId));
      hide Inv;
      if userId !in users {
        return Some(UserNotFound);
      }
      var user := users[userId];
      var beforeState := SessionsAre(user.refreshToken.Some?);
      user := user.(refreshToken := None);
      users := users[userId := user];
      audit := audit
        + [Entry(actorId, "users.revoke_sessions", Resource(USER, userId), Some(beforeState), SessionsAre(false),
          None)];
      return None;
    }

    /** `updateCourseModeration`, `updateAssignmentModeration` and `updateSubmissionModeration`. */
    method SetModeration(actorId: Text, resource: Resource, isHidden: bool,
      reason: Option<Text>) returns (error: Option<Error>)
      requires Valid()
      modifies this`content, this`audit
      ensures Outcome(View(), error) == UpdateModeration(old(View()), actorId, resource, isHidden, reason)
      ensures Valid() && content.Keys == old(content).Keys
      ensures forall r :: r in content && r != resource ==> content[r] == old(content)[r]
      ensures error == if resource in old(content) then None else Some(ContentNotFound)
      ensures error.Some? ==> content == old(content) && audit == old(audit)
      ensures error.None? ==>
        && resource in content
        && content[resource] == (if isHidden then Moderation(true, reason, Some(clock)) else SHOWN)
        && audit == old(audit) + [Entry(actorId, ModerationAction(resource.kind), resource,
             Some(ModerationIs(old(content)[resource].isAdminHidden, old(content)[resource].adminHiddenReason)),
             ModerationIs(isHidden, if isHidden then reason else None),
             if reason.None? || reason.value == [] then None else Some(Reason(reason.value)))]
      ensures error.None? ==> match resource.kind
        case COURSE => ModerationAction(resource.kind) == "courses.update_moderation"
        case ASSIGNMENT => ModerationAction(resource.kind) == "assignments.update_moderation"
        case SUBMISSION => ModerationAction(resource.kind) == "submissions.update_moderation"
        case _ => false
    {
      NextKeepsInv(View(), Hide(actorId, resource, isHidden, reason));
      if resource in content {
        assert ContentAgrees(View(), resource);
      }
      hide Inv;
      if resource !in content {
        return Some(ContentNotFound);
      }
      var entity := content[resource];
      var beforeState := ModerationIs(entity.isAdminHidden, entity.adminHiddenReason);
      entity := entity.(isAdminHidden := isHidden);
      entity := entity.(adminHiddenReason := if isHidden then reason else None);
      entity := entity.(adminHiddenAt := if isHidden then Some(clock) else None);
      content := content[resource := entity];
      audit := audit
        + [Entry(actorId, ModerationAction(resource.kind), resource, Some(beforeState),
          ModerationIs(entity.isAdminHidden, entity.adminHiddenReason), ReasonGiven(reason))];
      return None;
    }

    /** `loginAdmin`, the credentials being right. */
    method Login(userId: Text, token: Text) returns (error: Option<Error>)
      requires Valid()
      modifies this`users, this`audit
      ensures Outcome(View(), error) == LoginAdmin(old(View()), userId, token)
      ensures Valid() && OnlyUser(userId, old(users))
      ensures error.None? <==> userId in old(users) && IsActiveAdmin(old(users)[userId])
      ensures error.None? ==> users[userId] == old(users)[userId].(refreshToken := Some(token))
    {
      NextKeepsInv(View(), AdminLogin(userId, token));
      hide Inv;
      if userId !in users || users[userId].role != ADMIN || !users[userId].isActive {
        return Some(Unauthorized);
      }
      var user := users[userId];
      users := users[userId := user.(refreshToken := Some(token))];
      audit := audit
        + [Entry(userId, "admin.login", Resource(AUTH, userId), None, RoleIs(ADMIN), Some(Email(user.email)))];
      return None;
    }

    method Serve(a: Action) returns (error: Option<Error>)
      requires Valid()
      modifies this
      ensures Valid() && Outcome(View(), error) == Next(old(View()), a)
      ensures AdminsRemain(old(users))
    {
      NextKeepsInv(View(), a);
      StillAdmins(View(), a);
      hide Inv, ActiveAdmins, SomeActiveAdmin, OnlyActiveAdmin;
      error := None;
      match a
      case Status(actorId, userId, isActive, reason) => error := SetStatus(actorId, userId, isActive, reason);
      case ChangeRole(actorId, userId, role, reason) => error := SetRole(actorId, userId, role, reason);
      case Revoke(actorId, userId) => error := EndSessions(actorId, userId);
      case Hide(actorId, resource, isHidden, reason) => error := SetModeration(actorId, resource, isHidden, reason);
      case Tick(ms) => PassTime(ms);
      case AdminLogin(userId, token) => error := Login(userId, token);
      case Register(id, email, role) => AddUser(id, email, role);
      case SetRefreshToken(id, token) => StoreToken(id, token);
      case CreateContent(resource) => AddContent(resource);
      case RemoveContent(resource) => DropContent(resource);
    }

    method PassTime(ms: nat)
      modifies this`clock
      ensures View() == Next(old(View()), Tick(ms)).state
      ensures clock == old(clock) + ms
    {
      clock := clock + ms;
    }

    /** A new user is active and has no session. */
    method AddUser(id: Text, email: Text, role: Role)
      modifies this`users, this`born, this`created
      ensures View() == Next(old(View()), Register(id, email, role)).state
      ensures users ==
        if Resource(USER, id) in old(created) then old(users) else old(users)[id := User(email, role, true, None)]
    {
      if Resource(USER, id) !in created {
        users := users[id := User(email, role, true, None)];
        born := born[id := role];
        created := created + {Resource(USER, id)};
      }
    }

    method StoreToken(id: Text, token: Option<Text>)
      modifies this`users
      ensures View() == Next(old(View()), SetRefreshToken(id, token)).state
      ensures OnlyUser(id, old(users))
      ensures id in users ==> users[id] == old(users)[id].(refreshToken := token)
    {
      if id in users {
        users := users[id := users[id].(refreshToken := token)];
      }
    }

    /** New content is not hidden. */
    method AddContent(resource: Resource)
      modifies this`content, this`created
      ensures View() == Next(old(View()), CreateContent(resource)).state
      ensures content ==
        if resource in old(created) || resource.kind == USER || resource.kind == AUTH then old(content)
        else old(content)[resource := Moderation(false, None, None)]
    {
      if resource !in created && resource.kind != USER && resource.kind != AUTH {
        content := content[resource := SHOWN];
        created := created + {resource};
      }
    }

    method DropContent(resource: Resource)
      modifies this`content
      ensures View() == Next(old(View()), RemoveContent(resource)).state
      ensures content == old(content) - {resource}
    {
      content := content - {resource};
    }

    /** Requests served one after another keep the log in step with the tables and never lose the last active admin. */
    method ServeAll(requests: seq<Action>)
      requires Valid()
      modifies this
      ensures Valid() && View() == Run(old(View()), requests)
      ensures AdminsRemain(old(users))
    {
      ghost var start := View();
      for i := 0 to |requests|
        invariant Valid() && Run(start, requests) == Run(View(), requests[i..])
        invariant AdminsRemain(start.users)
      {
        assert requests[i..][0] == requests[i] && requests[i..][1..] == requests[i + 1..];
        var _ := Serve(requests[i]);
      }
    }
  }
}
