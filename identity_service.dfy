/**
 * The remote Identities service, abstracted. It stores, for each group id, the set of
 * member ids; it answers the n-th request it receives with the status and text chosen
 * by an oracle (`answer`). A request whose status is its verb's success code takes
 * effect on the store, and a successful member listing returns the stored members.
 */
module IdentityService {
  import opened Outcomes

  type GroupId = string
  type UserId = string

  /** One object of a response's "items" array; the core reads only its "id" field. */
  datatype Item = Item(id: string)

  /** The ids of a list of returned objects: set([item["id"] for item in items]). */
  function IdSet(items: seq<Item>): (ids: set<string>)
    ensures forall i :: 0 <= i < |items| ==> items[i].id in ids
    ensures forall x :: x in ids ==> exists i :: 0 <= i < |items| && items[i].id == x
    ensures |ids| <= |items|
  {
    if |items| == 0 then {}
    else
      var init := items[..|items| - 1];
      assert forall i :: 0 <= i < |init| ==> init[i] == items[i];
      IdSet(init) + {items[|items| - 1].id}
  }

  /** An item repeated in a listing does not change the member set. */
  lemma IdSetIgnoresDuplicates(items: seq<Item>, j: nat)
    requires j < |items|
    ensures IdSet(items + [items[j]]) == IdSet(items)
  {
    assert (items + [items[j]])[..|items|] == items;
  }

  /** The member set does not depend on the order (or multiplicity pattern) of a listing. */
  lemma IdSetIgnoresOrder(a: seq<Item>, b: seq<Item>)
    requires multiset(a) == multiset(b)
    ensures IdSet(a) == IdSet(b)
  {
    forall x | x in IdSet(a) ensures x in IdSet(b) {
      var i :| 0 <= i < |a| && a[i].id == x;
      assert a[i] in multiset(b);
      var j :| 0 <= j < |b| && b[j] == a[i];
    }
    forall x | x in IdSet(b) ensures x in IdSet(a) {
      var j :| 0 <= j < |b| && b[j].id == x;
      assert b[j] in multiset(a);
      var i :| 0 <= i < |a| && a[i] == b[j];
    }
  }

  /** The resources of the service the client addresses. */
  datatype Route =
    | GroupsRoute                                // the group collection
    | GroupRoute(group: GroupId)                 // one group
    | MembersRoute(group: GroupId)               // a group's user members, to the bottom of its member tree
    | MemberRoute(group: GroupId, user: UserId)  // one user's membership of a group
    | SearchRoute(name: string)                  // the groups whose name starts with `name`

  datatype Headers = Headers(contentType: string, accept: string, authorization: string)

  /** The JSON body {"id": ..., "name": ...} of a group creation. */
  datatype GroupBody = GroupBody(id: GroupId, name: string)

  datatype Request = Request(verb: string, route: Route, headers: Headers, body: Option<GroupBody>)

  datatype Response = Response(status: int, text: string, items: seq<Item>)

  type Directory = map<GroupId, set<UserId>>

  /** The members of g; a group the store does not hold has none. */
  function Members(dir: Directory, g: GroupId): set<UserId>
  {
    if g in dir then dir[g] else {}
  }

  /** a and b agree on every group other than g. */
  ghost predicate SameElsewhere(a: Directory, b: Directory, g: GroupId)
  {
    forall h :: h != g ==> Members(a, h) == Members(b, h)
  }

  /** The status that means a request was carried out: 201 for post and put, 204 for delete, 200 otherwise. */
  function SuccessCode(verb: string): int
  {
    if verb == "post" || verb == "put" then 201
    else if verb == "delete" then 204
    else 200
  }

  /** What a request answered with `status` does to the store. */
  function Effect(dir: Directory, req: Request, status: int): Directory
  {
    if status != SuccessCode(req.verb) then dir
    else match req.route
      case GroupsRoute =>
        if req.verb == "post" && req.body.Some? then dir[req.body.value.id := {}] else dir
      case MemberRoute(g, u) =>
        if req.verb == "put" then dir[g := Members(dir, g) + {u}]
        else if req.verb == "delete" then dir[g := Members(dir, g) - {u}]
        else dir
      case _ => dir
  }

  predicate IsListing(req: Request)
  {
    req.verb == "get" && req.route.MembersRoute?
  }

  /** Some listing of the ids in s, in an order the service chooses. */
  method ListItems(s: set<UserId>) returns (items: seq<Item>)
    ensures IdSet(items) == s
  {
    items := [];
    var rest := s;
    while rest != {}
      invariant IdSet(items) + rest == s
      decreases rest
    {
      var u :| u in rest;
      assert (items + [Item(u)])[..|items|] == items;
      items := items + [Item(u)];
      rest := rest - {u};
    }
  }

  class Service {
    var groups: Directory
    var received: seq<Request>
    const answer: nat -> Response

    constructor (groups: Directory, answer: nat -> Response)
      ensures this.groups == groups && this.answer == answer && received == []
    {
      this.groups := groups;
      this.answer := answer;
      received := [];
    }

    /** The n-th request was answered with resp, and the store went from `before` to its current value. */
    ghost predicate Answered(before: Directory, n: nat, resp: Response)
      reads this
    {
      && n < |received|
      && resp.status == answer(n).status
      && resp.text == answer(n).text
      && groups == Effect(before, received[n], resp.status)
      && if IsListing(received[n]) && resp.status == 200
         then IdSet(resp.items) == Members(before, received[n].route.group)
         else resp.items == answer(n).items
    }

    method Handle(req: Request) returns (resp: Response)
      modifies this
      ensures received == old(received) + [req]
      ensures Answered(old(groups), |old(received)|, resp)
    {
      var a := answer(|received|);
      var before := groups;
      received := received + [req];
      groups := Effect(groups, req, a.status);
      if IsListing(req) && a.status == 200 {
        var items := ListItems(Members(before, req.route.group));
        resp := Response(a.status, a.text, items);
      } else {
        resp := a;
      }
    }
  }
}
