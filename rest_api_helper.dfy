/**
 * The directory client of custom_auth/rest_api_helper.py. The module-level state it
 * shares with config.py (the cached bearer token and the default request options) and
 * the audit log it appends to are the fields of a Client; the service it talks to is
 * an IdentityService.Service.
 */
module RestApiHelper {
  import opened Outcomes
  import opened Text
  import opened IdentityService

  const StatusOk := 200         // an existing group, a listing
  const StatusCreated := 201    // a group created, a member added
  const StatusNoContent := 204  // a member removed

  /** config.DEFAULT_REST_KWARGS: the request body and the two media-type headers. */
  datatype RestKwargs = RestKwargs(data: Option<GroupBody>, acceptType: string, contentType: string)

  const DefaultRestKwargs := RestKwargs(None, "application/json", "application/json")

  /** One message appended by logger.log. */
  datatype AuditEvent =
    | GroupCreated(group: GroupId, name: string)
    | UserAdded(group: GroupId, user: UserId)
    | UserRemoved(group: GroupId, user: UserId)

  const GroupsPrefix := "/identities/groups/"

  /** The part of an endpoint after "/identities/groups/", built by concatenation as the client builds it. */
  function Resource(route: Route): string
  {
    match route
    case GroupsRoute => ""
    case GroupRoute(g) => g
    case MembersRoute(g) => g + "/userMembers?depth=-1"
    case MemberRoute(g, u) => g + "/userMembers/" + u
    case SearchRoute(name) => "?filter=startsWith(name,'" + name + "')"
  }

  /** The endpoint of a route. */
  function Path(route: Route): (p: string)
    ensures GroupsPrefix <= p && p[|GroupsPrefix|..] == Resource(route)
  {
    GroupsPrefix + Resource(route)
  }

  /** A group id the endpoints can carry unambiguously: non-empty, without '/' and without '?'. */
  predicate PlainId(g: GroupId)
  {
    |g| > 0 && '/' !in g && '?' !in g
  }

  /** The group ids in a route are plain. */
  predicate PlainRoute(route: Route)
  {
    match route
    case GroupRoute(g) => PlainId(g)
    case MembersRoute(g) => PlainId(g)
    case MemberRoute(g, _) => PlainId(g)
    case _ => true
  }

  /** Two sep-free heads followed by sep: equal strings have equal heads and equal tails. */
  lemma {:induction false} CutAtFirst(a1: string, b1: string, a2: string, b2: string, sep: char)
    requires sep !in a1 && sep !in a2
    requires a1 + [sep] + b1 == a2 + [sep] + b2
    ensures a1 == a2 && b1 == b2
  {
    IndexOfAfter(a1, sep, b1);
    IndexOfAfter(a2, sep, b2);
    var s := a1 + [sep] + b1;
    assert a1 == s[..|a1|] && a2 == s[..|a2|];
    assert b1 == s[|a1| + 1..] && b2 == s[|a2| + 1..];
  }

  /** What follows the group id and its '/' in a member listing or a membership endpoint. */
  function AfterGroup(route: Route): string
    requires route.MembersRoute? || route.MemberRoute?
  {
    if route.MembersRoute? then "userMembers?depth=-1" else "userMembers/" + route.user
  }

  lemma ResourceOfMembers(route: Route)
    requires route.MembersRoute? || route.MemberRoute?
    ensures Resource(route) == route.group + ['/'] + AfterGroup(route)
  {
    if route.MembersRoute? {
      assert "/userMembers?depth=-1" == ['/'] + "userMembers?depth=-1";
    } else {
      assert route.group + "/userMembers/" + route.user == route.group + ['/'] + ("userMembers/" + route.user);
    }
  }

  /** What each kind of resource looks like: empty, led by '?', free of '/', or holding a '/'. */
  lemma ResourceShape(route: Route)
    requires PlainRoute(route)
    ensures |Resource(route)| == 0 <==> route.GroupsRoute?
    ensures route.SearchRoute? ==> Resource(route)[0] == '?'
    ensures !route.GroupsRoute? && !route.SearchRoute? ==> Resource(route)[0] != '?'
    ensures route.GroupRoute? ==> '/' !in Resource(route)
    ensures route.MembersRoute? || route.MemberRoute? ==> '/' in Resource(route)
  {
    if route.MembersRoute? || route.MemberRoute? {
      ResourceOfMembers(route);
      assert Resource(route)[0] == route.group[0];
      assert Resource(route)[|route.group|] == '/';
    }
  }

  /** Member listings and membership endpoints of plain groups determine their route. */
  lemma MembersResourceInjective(r1: Route, r2: Route)
    requires r1.MembersRoute? || r1.MemberRoute?
    requires r2.MembersRoute? || r2.MemberRoute?
    requires PlainRoute(r1) && PlainRoute(r2)
    requires Resource(r1) == Resource(r2)
    ensures r1 == r2
  {
    ResourceOfMembers(r1);
    ResourceOfMembers(r2);
    CutAtFirst(r1.group, AfterGroup(r1), r2.group, AfterGroup(r2), '/');
    var a := AfterGroup(r1);
    assert a[11] == (if r1.MembersRoute? then '?' else '/');
    assert a[11] == (if r2.MembersRoute? then '?' else '/');
    if r1.MemberRoute? {
      assert r1.user == a[12..] == r2.user;
    }
  }

  /** A search endpoint determines the name searched for. */
  lemma SearchResourceInjective(n1: string, n2: string)
    requires Resource(SearchRoute(n1)) == Resource(SearchRoute(n2))
    ensures n1 == n2
  {
    var search := "?filter=startsWith(name,'";
    var t := Resource(SearchRoute(n1));
    assert n1 == t[|search|..|t| - 2];
    assert n2 == t[|search|..|t| - 2];
  }

  /** Distinct plain routes have distinct endpoints, so an endpoint names its route. */
  lemma PathInjective(r1: Route, r2: Route)
    requires PlainRoute(r1) && PlainRoute(r2)
    requires Path(r1) == Path(r2)
    ensures r1 == r2
  {
    assert Resource(r1) == Resource(r2);
    ResourceShape(r1);
    ResourceShape(r2);
    if r1.MembersRoute? || r1.MemberRoute? {
      MembersResourceInjective(r1, r2);
    } else if r1.SearchRoute? {
      SearchResourceInjective(r1.name, r2.name);
    }
  }

  /** The check shared by every operation but the existence probe: any status but `code` raises the response text. */
  function Expect(resp: Response, code: int): (r: Result<()>)
    ensures r.Ok? <==> resp.status == code
    ensures r.Err? ==> r.error == ServiceError(resp.text)
  {
    if resp.status == code then Ok(()) else Err(ServiceError(resp.text))
  }

  /** The audit event of a successful membership change. */
  function MembershipEvent(verb: string, g: GroupId, u: UserId): AuditEvent
  {
    if verb == "put" then UserAdded(g, u) else UserRemoved(g, u)
  }

  /** g's members after a successful membership change. */
  function Changed(verb: string, members: set<UserId>, u: UserId): set<UserId>
  {
    if verb == "put" then members + {u} else members - {u}
  }

  /** The verbs modify_group_membership accepts; any other raises before a request is sent. */
  predicate MembershipVerb(verb: string)
  {
    verb == "put" || verb == "delete"
  }

  /** The k-th request did not make the client raise: a head never does, any other verb needs its success code. */
  ghost predicate Accepted(reqs: seq<Request>, answer: nat -> Response, k: nat)
    requires k < |reqs|
  {
    reqs[k].verb == "head" || answer(k).status == SuccessCode(reqs[k].verb)
  }

  /** Every request from `from` on was accepted. */
  ghost predicate AllAccepted(reqs: seq<Request>, answer: nat -> Response, from: nat)
  {
    from <= |reqs| && forall k | from <= k < |reqs| :: Accepted(reqs, answer, k)
  }

  /**
   * From request `from` on, the client accepted every response, except that a service
   * error ends the work on the one request that raised it: nothing is sent after it.
   */
  ghost predicate StopsAtFirstFailure<T>(reqs: seq<Request>, answer: nat -> Response, from: nat, r: Result<T>)
  {
    if r.Err? && r.error.ServiceError? then
      && from < |reqs|
      && AllAccepted(reqs[..|reqs| - 1], answer, from)
      && !Accepted(reqs, answer, |reqs| - 1)
      && r.error.text == answer(|reqs| - 1).text
    else
      AllAccepted(reqs, answer, from)
  }

  /** One more accepted request keeps the run accepted. */
  lemma AcceptedNext(reqs: seq<Request>, answer: nat -> Response, from: nat, req: Request)
    requires AllAccepted(reqs, answer, from)
    requires Accepted(reqs + [req], answer, |reqs|)
    ensures AllAccepted(reqs + [req], answer, from)
  {
    forall k | from <= k < |reqs| + 1
      ensures Accepted(reqs + [req], answer, k)
    {
      if k < |reqs| {
        assert Accepted(reqs, answer, k);
        assert (reqs + [req])[k] == reqs[k];
      }
    }
  }

  /** A request that is not accepted after an accepted run is the first failure. */
  lemma FailsOn<T>(reqs: seq<Request>, answer: nat -> Response, from: nat, req: Request, r: Result<T>)
    requires AllAccepted(reqs, answer, from)
    requires !Accepted(reqs + [req], answer, |reqs|)
    requires r.Err? && r.error == ServiceError(answer(|reqs|).text)
    ensures StopsAtFirstFailure(reqs + [req], answer, from, r)
  {
    assert (reqs + [req])[..|reqs|] == reqs;
  }

  /** An accepted phase followed by one that stops at its first failure stops at the first failure overall. */
  lemma StopsCompose<T>(reqs: seq<Request>, answer: nat -> Response, a: nat, b: nat, r: Result<T>)
    requires b <= |reqs|
    requires AllAccepted(reqs[..b], answer, a)
    requires StopsAtFirstFailure(reqs, answer, b, r)
    ensures StopsAtFirstFailure(reqs, answer, a, r)
  {
    var upto := if r.Err? && r.error.ServiceError? then |reqs| - 1 else |reqs|;
    forall k | a <= k < upto
      ensures Accepted(reqs, answer, k)
    {
      if k < b {
        assert Accepted(reqs[..b], answer, k);
        assert reqs[..b][k] == reqs[k];
      } else if upto < |reqs| {
        assert Accepted(reqs[..|reqs| - 1], answer, k);
        assert reqs[..|reqs| - 1][k] == reqs[k];
      }
    }
    if upto < |reqs| {
      var prev := reqs[..|reqs| - 1];
      forall k | a <= k < upto
        ensures Accepted(prev, answer, k)
      {
        assert Accepted(reqs, answer, k);
        assert prev[k] == reqs[k];
      }
    }
  }

  class Client {
    var token: Option<string>    // config.OATH_TOKEN
    var defaults: RestKwargs     // config.DEFAULT_REST_KWARGS
    var log: seq<AuditEvent>     // the messages passed to logger.log
    const service: Service
    const credential: string     // what get_oauth_token() hands out

    /** Every request sent so far carries the cached token. */
    ghost predicate Valid()
      reads this`token, service
    {
      forall i :: 0 <= i < |service.received| ==>
        token.Some? && service.received[i].headers.authorization == token.value
    }

    constructor (service: Service, credential: string)
      requires service.received == []
      ensures Valid()
      ensures this.service == service && this.credential == credential
      ensures token == None && defaults == DefaultRestKwargs && log == []
    {
      this.service := service;
      this.credential := credential;
      token := None;
      defaults := DefaultRestKwargs;
      log := [];
    }

    /** The cached token after one more request: fetched when none is cached, otherwise kept. */
    function TokenAfterCall(cached: Option<string>): Option<string>
    {
      if cached.None? then Some(credential) else cached
    }

    /** The headers of a request sent with the default options. */
    function Head(): Headers
      reads this
      requires token.Some?
    {
      Headers(defaults.contentType, defaults.acceptType, token.value)
    }

    /** call_rest_api: fetch the token if none is cached, build the headers from kwargs and send one request. */
    method CallRestApi(route: Route, verb: string, kwargs: RestKwargs) returns (resp: Response)
      requires Valid()
      modifies this`token, service
      ensures Valid()
      ensures token == TokenAfterCall(old(token))
      ensures service.received == old(service.received)
        + [Request(verb, route, Headers(kwargs.contentType, kwargs.acceptType, token.value), kwargs.data)]
      ensures service.Answered(old(service.groups), |old(service.received)|, resp)
    {
      if token.None? {
        token := Some(credential);
      }
      var head := Headers(kwargs.contentType, kwargs.acceptType, token.value);
      resp := service.Handle(Request(verb, route, head, kwargs.data));
    }

    /** create_group: write {id, name} into the shared defaults, post it, and require 201. */
    method CreateGroup(id: GroupId, name: string) returns (r: Result<()>)
      requires Valid()
      modifies this, service
      ensures Valid()
      ensures token == TokenAfterCall(old(token))
      ensures defaults == old(defaults).(data := Some(GroupBody(id, name)))
      ensures service.received == old(service.received) + [Request("post", GroupsRoute, Head(), Some(GroupBody(id, name)))]
      ensures r.Ok? <==> service.answer(|old(service.received)|).status == StatusCreated
      ensures r.Err? ==> r.error == ServiceError(service.answer(|old(service.received)|).text)
      ensures service.groups == if r.Ok? then old(service.groups)[id := {}] else old(service.groups)
      ensures log == old(log) + if r.Ok? then [GroupCreated(id, name)] else []
    {
      defaults := defaults.(data := Some(GroupBody(id, name)));
      var resp := CallRestApi(GroupsRoute, "post", defaults);
      r := Expect(resp, StatusCreated);
      if r.Ok? {
        log := log + [GroupCreated(id, name)];
      }
    }

    /** get_all_ldap_group_users: list g's user members recursively and require 200. */
    method GetAllLdapGroupUsers(g: GroupId) returns (r: Result<seq<Item>>)
      requires Valid()
      modifies this, service
      ensures Valid()
      ensures token == TokenAfterCall(old(token)) && defaults == old(defaults) && log == old(log)
      ensures service.received == old(service.received) + [Request("get", MembersRoute(g), Head(), defaults.data)]
      ensures r.Ok? <==> service.answer(|old(service.received)|).status == StatusOk
      ensures r.Ok? ==> IdSet(r.value) == Members(old(service.groups), g)
      ensures r.Err? ==> r.error == ServiceError(service.answer(|old(service.received)|).text)
      ensures service.groups == old(service.groups)
    {
      var resp := CallRestApi(MembersRoute(g), "get", defaults);
      if resp.status != StatusOk {
        r := Err(ServiceError(resp.text));
      } else {
        r := Ok(resp.items);
      }
    }

    /** check_ldap_group_existence: probe g with a head request; only 200 means "exists", nothing raises. */
    method CheckLdapGroupExistence(g: GroupId) returns (found: bool)
      requires Valid()
      modifies this, service
      ensures Valid()
      ensures token == TokenAfterCall(old(token)) && defaults == old(defaults) && log == old(log)
      ensures service.received == old(service.received) + [Request("head", GroupRoute(g), Head(), defaults.data)]
      ensures found <==> service.answer(|old(service.received)|).status == StatusOk
      ensures service.groups == old(service.groups)
    {
      var resp := CallRestApi(GroupRoute(g), "head", defaults);
      found := resp.status == StatusOk;
    }

    /**
     * modify_group_membership: refuse any verb but "put" and "delete" before sending anything;
     * otherwise send it and require 201 for "put", 204 for "delete"; log only on success.
     */
    method ModifyGroupMembership(verb: string, g: GroupId, u: UserId) returns (r: Result<()>)
      requires Valid()
      modifies this, service
      ensures Valid()
      ensures defaults == old(defaults)
      ensures !MembershipVerb(verb) ==>
        && r == Err(InvalidMethod(verb))
        && token == old(token) && log == old(log)
        && service.received == old(service.received) && service.groups == old(service.groups)
      ensures MembershipVerb(verb) ==>
        && token == TokenAfterCall(old(token))
        && service.received == old(service.received) + [Request(verb, MemberRoute(g, u), Head(), defaults.data)]
        && (r.Ok? <==> service.answer(|old(service.received)|).status == SuccessCode(verb))
        && (r.Err? ==> r.error == ServiceError(service.answer(|old(service.received)|).text))
        && service.groups == (if r.Ok? then old(service.groups)[g := Changed(verb, Members(old(service.groups), g), u)]
                              else old(service.groups))
        && log == old(log) + if r.Ok? then [MembershipEvent(verb, g, u)] else []
    {
      if !MembershipVerb(verb) {
        return Err(InvalidMethod(verb));
      }
      var resp := CallRestApi(MemberRoute(g, u), verb, defaults);
      if verb == "put" {
        r := Expect(resp, StatusCreated);
      } else {
        r := Expect(resp, StatusNoContent);
      }
      if r.Ok? {
        log := log + [MembershipEvent(verb, g, u)];
      }
    }
  }
}
