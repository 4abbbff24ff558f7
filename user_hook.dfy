/**
 * The user-session hook: the backend's record of the signed-in user
 * (`user`), whether the first load is still running (`loading`), and the
 * message of the last failure (`error`), with the bootstrap that fetches or
 * creates the record and the seven operations that change it remotely.
 *
 * Each awaited call is one `ApiService.Call` with the reply as a parameter.
 * The identity provider's state at the time of the call is the
 * `ClerkSession` parameter.
 */
module UserHook {
  import opened Wrappers
  import opened Text
  import opened Model
  import opened Api

  /** The text that, inside the fetch error's message, makes the bootstrap create the user. */
  const NotFoundMarker := "User not found"
  const DefaultName := "User"

  /**
   * The record created for a signed-in user the backend does not know: the
   * identity's id, its full name or else its first name or else "User", and
   * its primary address or else the empty string.
   */
  function SeedUser(cu: ClerkUser): (u: NewUser)
    ensures u.clerkUserId == cu.id
    ensures u.name != ""
    ensures Truthy(cu.fullName) ==> u.name == cu.fullName.value
    ensures !Truthy(cu.fullName) && Truthy(cu.firstName) ==> u.name == cu.firstName.value
    ensures !Truthy(cu.fullName) && !Truthy(cu.firstName) ==> u.name == DefaultName
    ensures u.email == cu.primaryEmailAddress.GetOr("")
  {
    NewUser(cu.id, OrElse(cu.fullName, OrElse(cu.firstName, DefaultName)), OrElse(cu.primaryEmailAddress, ""))
  }

  /** `user?._id` is truthy: there is a local record and the backend has given it an id. */
  predicate HasRemoteId(user: Option<User>) {
    user.Some? && Truthy(user.value.id)
  }

  /** What an operation's promise does: resolves to undefined, resolves to a value, or rejects with a message. */
  datatype Settled<T> = Undefined | Resolved(value: T) | Rejected(message: string)

  /**
   * The state after an operation's call settles: on success the record is
   * replaced by the server's as it is, the error cleared and the record
   * returned; on failure the record is kept, the error set to the message
   * and the promise rejected with it.
   */
  predicate Committed(outcome: Remote<User>, before: Option<User>, after: Option<User>, error: Option<string>, r: Settled<User>) {
    match outcome
    case Success(u) => after == Some(u) && error == None && r == Resolved(u)
    case Failure(m) => after == before && error == Some(m) && r == Rejected(m)
  }

  /** The user, error and requests the bootstrap leaves when it passes its guard. */
  predicate Bootstrapped(base: string, cu: ClerkUser, fetched: Remote<User>, created: Remote<User>,
                         before: Option<User>, after: Option<User>, error: Option<string>, requests: seq<HttpRequest>) {
    var get := RequestFor(base, GetUserByClerkId(cu.id));
    match fetched
    case Success(u) => requests == [get] && after == Some(u) && error == None
    case Failure(m) =>
      if Includes(m, NotFoundMarker) then
        && requests == [get, RequestFor(base, CreateUserWithClerk(SeedUser(cu)))]
        && match created
           case Success(nu) => after == Some(nu) && error == None
           case Failure(m2) => after == before && error == Some(m2)
      else requests == [get] && after == before && error == Some(m)
  }

  class UserSession {
    const api: ApiService
    var user: Option<User>
    var loading: bool
    var error: Option<string>

    constructor(api: ApiService)
      ensures this.api == api && user == None && loading && error == None
    {
      this.api := api;
      user := None;
      loading := true;
      error := None;
    }

    /**
     * The bootstrap run when the identity changes. Before the identity
     * provider has loaded, or with no one signed in, it only ends the
     * loading state. Otherwise it fetches the user's record and, when the
     * fetch fails because the user is not found, creates it; any other
     * failure, or a failed creation, is recorded as the error. Loading ends
     * on every path.
     */
    method FetchOrCreateUser(clerk: ClerkSession, fetchReply: Reply<User>, createReply: Reply<User>)
      modifies this, api
      ensures !loading
      ensures !clerk.isLoaded || clerk.user.None? ==>
        user == old(user) && error == old(error) && api.sent == old(api.sent)
      ensures clerk.isLoaded && clerk.user.Some? ==>
        |old(api.sent)| <= |api.sent| && api.sent[..|old(api.sent)|] == old(api.sent)
        && Bootstrapped(api.baseUrl, clerk.user.value, Outcome(fetchReply), Outcome(createReply),
                        old(user), user, error, api.sent[|old(api.sent)|..])
    {
      if !clerk.isLoaded || clerk.user.None? {
        loading := false;
        return;
      }
      var clerkUser := clerk.user.value;
      ghost var sent0 := api.sent;
      loading := true;
      error := None;
      var fetched := api.Call(GetUserByClerkId(clerkUser.id), fetchReply);
      match fetched {
        case Success(existing) =>
          user := Some(existing);
          assert api.sent == sent0 + [RequestFor(api.baseUrl, GetUserByClerkId(clerkUser.id))];
        case Failure(message) =>
          if Includes(message, NotFoundMarker) {
            var created := api.Call(CreateUserWithClerk(SeedUser(clerkUser)), createReply);
            match created {
              case Success(newUser) => user := Some(newUser);
              case Failure(createMessage) => error := Some(createMessage);
            }
            assert api.sent == sent0 + [RequestFor(api.baseUrl, GetUserByClerkId(clerkUser.id)),
                                        RequestFor(api.baseUrl, CreateUserWithClerk(SeedUser(clerkUser)))];
          } else {
            error := Some(message);
            assert api.sent == sent0 + [RequestFor(api.baseUrl, GetUserByClerkId(clerkUser.id))];
          }
      }
      loading := false;
    }

    /** Clears the error, issues `op` and commits its outcome. */
    method Mutate(op: Operation, reply: Reply<User>) returns (r: Settled<User>)
      modifies this, api
      ensures api.sent == old(api.sent) + [RequestFor(api.baseUrl, op)]
      ensures loading == old(loading)
      ensures Committed(Outcome(reply), old(user), user, error, r)
    {
      error := None;
      var outcome := api.Call(op, reply);
      match outcome {
        case Success(updated) =>
          user := Some(updated);
          r := Resolved(updated);
        case Failure(message) =>
          error := Some(message);
          r := Rejected(message);
      }
    }

    /** `updateUser`: without a signed-in identity or a local record it does nothing and resolves to undefined. */
    method UpdateUser(clerk: ClerkSession, patch: UserPatch, reply: Reply<User>) returns (r: Settled<User>)
      modifies this, api
      ensures loading == old(loading)
      ensures clerk.user.None? || old(user).None? ==>
        r == Undefined && user == old(user) && error == old(error) && api.sent == old(api.sent)
      ensures clerk.user.Some? && old(user).Some? ==>
        api.sent == old(api.sent) + [RequestFor(api.baseUrl, UpdateUserByClerkId(clerk.user.value.id, patch))]
        && Committed(Outcome(reply), old(user), user, error, r)
    {
      if clerk.user.None? || user.None? {
        return Undefined;
      }
      r := Mutate(UpdateUserByClerkId(clerk.user.value.id, patch), reply);
    }

    method AddProject(project: NewProject, reply: Reply<User>) returns (r: Settled<User>)
      modifies this, api
      ensures loading == old(loading)
      ensures !HasRemoteId(old(user)) ==>
        r == Undefined && user == old(user) && error == old(error) && api.sent == old(api.sent)
      ensures HasRemoteId(old(user)) ==>
        api.sent == old(api.sent) + [RequestFor(api.baseUrl, Operation.AddProject(old(user).value.id.value, project))]
        && Committed(Outcome(reply), old(user), user, error, r)
    {
      if !HasRemoteId(user) {
        return Undefined;
      }
      r := Mutate(Operation.AddProject(user.value.id.value, project), reply);
    }

    method UpdateProject(projectId: string, patch: ProjectPatch, reply: Reply<User>) returns (r: Settled<User>)
      modifies this, api
      ensures loading == old(loading)
      ensures !HasRemoteId(old(user)) ==>
        r == Undefined && user == old(user) && error == old(error) && api.sent == old(api.sent)
      ensures HasRemoteId(old(user)) ==>
        api.sent == old(api.sent) + [RequestFor(api.baseUrl, Operation.UpdateProject(old(user).value.id.value, projectId, patch))]
        && Committed(Outcome(reply), old(user), user, error, r)
    {
      if !HasRemoteId(user) {
        return Undefined;
      }
      r := Mutate(Operation.UpdateProject(user.value.id.value, projectId, patch), reply);
    }

    method DeleteProject(projectId: string, reply: Reply<User>) returns (r: Settled<User>)
      modifies this, api
      ensures loading == old(loading)
      ensures !HasRemoteId(old(user)) ==>
        r == Undefined && user == old(user) && error == old(error) && api.sent == old(api.sent)
      ensures HasRemoteId(old(user)) ==>
        api.sent == old(api.sent) + [RequestFor(api.baseUrl, Operation.DeleteProject(old(user).value.id.value, projectId))]
        && Committed(Outcome(reply), old(user), user, error, r)
    {
      if !HasRemoteId(user) {
        return Undefined;
      }
      r := Mutate(Operation.DeleteProject(user.value.id.value, projectId), reply);
    }

    method AddWorkExperience(experience: NewWorkExperience, reply: Reply<User>) returns (r: Settled<User>)
      modifies this, api
      ensures loading == old(loading)
      ensures !HasRemoteId(old(user)) ==>
        r == Undefined && user == old(user) && error == old(error) && api.sent == old(api.sent)
      ensures HasRemoteId(old(user)) ==>
        api.sent == old(api.sent) + [RequestFor(api.baseUrl, Operation.AddWorkExperience(old(user).value.id.value, experience))]
        && Committed(Outcome(reply), old(user), user, error, r)
    {
      if !HasRemoteId(user) {
        return Undefined;
      }
      r := Mutate(Operation.AddWorkExperience(user.value.id.value, experience), reply);
    }

    method UpdateWorkExperience(experienceId: string, patch: WorkExperiencePatch, reply: Reply<User>) returns (r: Settled<User>)
      modifies this, api
      ensures loading == old(loading)
      ensures !HasRemoteId(old(user)) ==>
        r == Undefined && user == old(user) && error == old(error) && api.sent == old(api.sent)
      ensures HasRemoteId(old(user)) ==>
        api.sent == old(api.sent) + [RequestFor(api.baseUrl, Operation.UpdateWorkExperience(old(user).value.id.value, experienceId, patch))]
        && Committed(Outcome(reply), old(user), user, error, r)
    {
      if !HasRemoteId(user) {
        return Undefined;
      }
      r := Mutate(Operation.UpdateWorkExperience(user.value.id.value, experienceId, patch), reply);
    }

    method DeleteWorkExperience(experienceId: string, reply: Reply<User>) returns (r: Settled<User>)
      modifies this, api
      ensures loading == old(loading)
      ensures !HasRemoteId(old(user)) ==>
        r == Undefined && user == old(user) && error == old(error) && api.sent == old(api.sent)
      ensures HasRemoteId(old(user)) ==>
        api.sent == old(api.sent) + [RequestFor(api.baseUrl, Operation.DeleteWorkExperience(old(user).value.id.value, experienceId))]
        && Committed(Outcome(reply), old(user), user, error, r)
    {
      if !HasRemoteId(user) {
        return Undefined;
      }
      r := Mutate(Operation.DeleteWorkExperience(user.value.id.value, experienceId), reply);
    }
  }

  /** A fetch that succeeds is the whole bootstrap: the record is the fetched one and nothing is created. */
  lemma FetchedUserIsKept(base: string, cu: ClerkUser, u: User, created: Remote<User>,
                          before: Option<User>, after: Option<User>, error: Option<string>, requests: seq<HttpRequest>)
    requires Bootstrapped(base, cu, Success(u), created, before, after, error, requests)
    ensures after == Some(u) && error == None && |requests| == 1
  {
  }

  /**
   * The bootstrap creates a record exactly when the fetch failed with a
   * message that mentions "User not found", and the record it creates
   * belongs to the signed-in identity. A bootstrap that records no error
   * always leaves a record.
   */
  lemma CreatesOnlyWhenNotFound(base: string, cu: ClerkUser, fetched: Remote<User>, created: Remote<User>,
                                before: Option<User>, after: Option<User>, error: Option<string>, requests: seq<HttpRequest>)
    requires Bootstrapped(base, cu, fetched, created, before, after, error, requests)
    ensures |requests| == 2 <==> fetched.Failure? && Includes(fetched.message, NotFoundMarker)
    ensures |requests| == 2 ==>
      requests[1] == RequestFor(base, CreateUserWithClerk(SeedUser(cu))) && SeedUser(cu).clerkUserId == cu.id
    ensures error.None? ==> after.Some?
  {
  }

  /**
   * A fetch that fails with a message embedding "User not found" anywhere
   * (the backend's own text, or one wrapped by a prefix and a suffix) is
   * followed by the creation of the identity's record.
   */
  lemma NotFoundMessageCreates(base: string, cu: ClerkUser, pre: string, post: string, created: Remote<User>,
                               before: Option<User>, after: Option<User>, error: Option<string>, requests: seq<HttpRequest>)
    requires Bootstrapped(base, cu, Failure(pre + NotFoundMarker + post), created, before, after, error, requests)
    ensures |requests| == 2
    ensures requests[0] == RequestFor(base, GetUserByClerkId(cu.id))
    ensures requests[1] == RequestFor(base, CreateUserWithClerk(SeedUser(cu)))
  {
    IncludesInfix(pre, NotFoundMarker, post);
  }
}
