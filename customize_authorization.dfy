/**
 * The reconciler of custom_auth/customize_authorization.py: for each row of the
 * definition file it makes the derived group's membership the intersection of the
 * input groups' memberships, through the directory client.
 */
module CustomizeAuthorization {
  import opened Outcomes
  import opened Text
  import opened IdentityService
  import opened RestApiHelper

  /** One row of the definition file: the derived group's name and id, then the input group ids. */
  datatype Definition = Definition(name: string, id: GroupId, inputs: seq<GroupId>)

  /** One line of the definition file as its columns: `l.strip().split(',')`. */
  function Columns(line: string): (row: seq<string>)
    ensures |row| >= 1 && Join(row, ',') == Strip(line)
    ensures forall j :: 0 <= j < |row| ==> ',' !in row[j]
  {
    Split(Strip(line), ',')
  }

  /** The columns of each line, in order. */
  function RowsOf(lines: seq<string>): (rows: seq<seq<string>>)
    ensures |rows| == |lines|
    ensures forall i :: 0 <= i < |rows| ==> |rows[i]| >= 1 && Join(rows[i], ',') == Strip(lines[i])
    ensures forall i, j :: 0 <= i < |rows| && 0 <= j < |rows[i]| ==> ',' !in rows[i][j]
  {
    seq(|lines|, i requires 0 <= i < |lines| => Columns(lines[i]))
  }

  /** Lines 56-61, the rows of the definition file: every line after the header, as its columns. */
  function DefinitionRows(text: string): (rows: seq<seq<string>>)
    ensures |rows| == if |ReadLines(text)| == 0 then 0 else |ReadLines(text)| - 1
    ensures forall i :: 0 <= i < |rows| ==> |rows[i]| >= 1 && Join(rows[i], ',') == Strip(ReadLines(text)[i + 1])
    ensures forall i, j :: 0 <= i < |rows| && 0 <= j < |rows[i]| ==> ',' !in rows[i][j]
  {
    var lines := ReadLines(text);
    if |lines| == 0 then []
    else
      var body := lines[1..];
      assert forall i :: 0 <= i < |body| ==> body[i] == lines[i + 1];
      RowsOf(body)
  }

  /** `name, id = row[0:2]` and `inputs = row[2:]`; the unpacking raises ValueError on fewer than two columns. */
  function ParseRow(row: seq<string>): (r: Result<Definition>)
    ensures r.Ok? <==> |row| >= 2
    ensures r.Ok? ==> [r.value.name, r.value.id] + r.value.inputs == row
    ensures r.Err? ==> r.error == UnpackError(|row|)
  {
    if |row| < 2 then Err(UnpackError(|row|))
    else
      assert [row[0], row[1]] + row[2..] == row;
      Ok(Definition(row[0], row[1], row[2..]))
  }

  /** A blank (or whitespace-only) line after the header is a one-column row, and it aborts the run. */
  lemma BlankLineFails(line: string)
    requires forall i :: 0 <= i < |line| ==> IsSpace(line[i])
    ensures Split(Strip(line), ',') == [""]
    ensures ParseRow(Split(Strip(line), ',')) == Err(UnpackError(1))
  {
  }

  /** The running intersection of main: the first set, then each later set intersected in; no sets give {}. */
  function Intersection(sets: seq<set<UserId>>): (r: set<UserId>)
    ensures forall x :: x in r <==> |sets| > 0 && forall i :: 0 <= i < |sets| ==> x in sets[i]
  {
    if |sets| == 0 then {}
    else if |sets| == 1 then sets[0]
    else sets[|sets| - 1] * Intersection(sets[..|sets| - 1])
  }

  /** The member sets of the given groups, in order. */
  function MemberSets(dir: Directory, ids: seq<GroupId>): (sets: seq<set<UserId>>)
    ensures |sets| == |ids|
    ensures forall i :: 0 <= i < |ids| ==> sets[i] == Members(dir, ids[i])
  {
    seq(|ids|, i requires 0 <= i < |ids| => Members(dir, ids[i]))
  }

  /** The target membership: the users in every input group, and nobody when there is no input group. */
  function Target(dir: Directory, inputs: seq<GroupId>): (t: set<UserId>)
    ensures forall u :: u in t <==> |inputs| > 0 && forall i :: 0 <= i < |inputs| ==> u in Members(dir, inputs[i])
  {
    Intersection(MemberSets(dir, inputs))
  }

  /** One step of the running intersection of main: the i-th input's members fold into the first i. */
  lemma TargetStep(dir: Directory, inputs: seq<GroupId>, i: nat)
    requires i < |inputs|
    ensures Target(dir, inputs[..i + 1]) ==
      if i == 0 then Members(dir, inputs[i]) else Members(dir, inputs[i]) * Target(dir, inputs[..i])
  {
    var sets := MemberSets(dir, inputs[..i + 1]);
    assert sets[..i] == MemberSets(dir, inputs[..i]);
  }

  datatype Plan = Plan(toAdd: set<UserId>, toRemove: set<UserId>)

  /** users_to_add and users_to_remove for the current and the target membership. */
  function Diff(current: set<UserId>, target: set<UserId>): (p: Plan)
    ensures p.toAdd !! p.toRemove
    ensures p.toAdd !! current && p.toRemove <= current
    ensures forall u :: u in p.toAdd + p.toRemove <==> (u in current <==> u !in target)
    ensures (current + p.toAdd) - p.toRemove == target
    ensures p == Plan({}, {}) <==> current == target
  {
    Plan(target - current, current - target)
  }

  /** Any additions and removals that turn current into target include the planned ones. */
  lemma DiffIsMinimal(current: set<UserId>, target: set<UserId>, adds: set<UserId>, removes: set<UserId>)
    requires (current + adds) - removes == target
    ensures Diff(current, target).toAdd <= adds
    ensures Diff(current, target).toRemove <= removes
  {
  }

  /** The store once the derived group d is known: as probed when it is present, else freshly created without members. */
  function AfterProbe(dir: Directory, d: GroupId, present: bool): (after: Directory)
    ensures Members(after, d) == if present then Members(dir, d) else {}
    ensures SameElsewhere(after, dir, d)
  {
    if present then dir else dir[d := {}]
  }

  /** Writing the target into the derived group leaves the target unchanged, even when d is one of the inputs. */
  lemma TargetStable(before: Directory, after: Directory, d: GroupId, inputs: seq<GroupId>)
    requires Members(after, d) == Target(before, inputs)
    requires SameElsewhere(after, before, d)
    ensures Target(after, inputs) == Target(before, inputs)
  {
    forall u ensures u in Target(after, inputs) <==> u in Target(before, inputs) {
      if u in Target(before, inputs) {
        forall i | 0 <= i < |inputs| ensures u in Members(after, inputs[i]) {
          if inputs[i] != d {
            assert Members(after, inputs[i]) == Members(before, inputs[i]);
          }
        }
      }
      if u in Target(after, inputs) && u !in Members(after, d) {
        forall i | 0 <= i < |inputs| ensures u in Members(before, inputs[i]) {
          assert u in Members(after, inputs[i]);
          assert Members(after, inputs[i]) == Members(before, inputs[i]);
        }
      }
    }
  }

  /** Once a row has converged, planning it again yields nothing to add and nothing to remove. */
  lemma RerunPlanIsEmpty(before: Directory, after: Directory, d: GroupId, inputs: seq<GroupId>)
    requires Members(after, d) == Target(before, inputs)
    requires SameElsewhere(after, before, d)
    ensures Diff(Members(after, d), Target(after, inputs)) == Plan({}, {})
  {
    TargetStable(before, after, d, inputs);
  }

  /** Lines 84-91 with exactly one input group: the target is that group's membership. */
  lemma SingleInputTarget(dir: Directory, g: GroupId)
    ensures Target(dir, [g]) == Members(dir, g)
  {
    TargetStep(dir, [g], 0);
    assert [g][..1] == [g];
  }

  /** Lines 84, 95 and 99: a row without input groups targets nobody, so every current member is removed. */
  lemma NoInputsRemovesAll(dir: Directory, d: GroupId)
    ensures Diff(Members(dir, d), Target(dir, [])) == Plan({}, Members(dir, d))
  {
  }

  /** Lines 71 and 79-81: a derived group reported absent is created empty, so the plan adds the whole target. */
  lemma AbsentGroupAddsTarget(dir: Directory, d: GroupId, inputs: seq<GroupId>)
    ensures var probed := AfterProbe(dir, d, false);
      Diff(Members(probed, d), Target(probed, inputs)) == Plan(Target(probed, inputs), {})
  {
  }

  ghost function Elems(s: seq<UserId>): set<UserId>
  {
    set x | x in s
  }

  ghost predicate Distinct(s: seq<UserId>)
  {
    forall i, j :: 0 <= i < j < |s| ==> s[i] != s[j]
  }

  lemma ElemsHead(s: seq<UserId>)
    requires |s| > 0
    ensures s[0] in Elems(s)
  {
  }

  /** A sequence with no elements is empty. */
  lemma NothingListed(s: seq<UserId>)
    requires Elems(s) <= {}
    ensures s == []
  {
    if |s| > 0 {
      ElemsHead(s);
      assert false;
    }
  }

  lemma AppendFresh(s: seq<UserId>, x: UserId)
    requires Distinct(s) && x !in Elems(s)
    ensures Distinct(s + [x]) && Elems(s + [x]) == Elems(s) + {x}
  {
  }

  /** The audit events of a phase that changed the given users, in order. */
  function Events(verb: string, d: GroupId, users: seq<UserId>): (events: seq<AuditEvent>)
    ensures |events| == |users|
    ensures forall k :: 0 <= k < |users| ==> events[k] == MembershipEvent(verb, d, users[k])
  {
    seq(|users|, k requires 0 <= k < |users| => MembershipEvent(verb, d, users[k]))
  }

  /** The members after changing every user of `users`: all added for "put", all removed for "delete". */
  function ChangedAll(verb: string, members: set<UserId>, users: set<UserId>): set<UserId>
  {
    if verb == "put" then members + users else members - users
  }

  /** The store after changing the given users of d (no request, no change). */
  function Applied(verb: string, dir: Directory, d: GroupId, users: set<UserId>): (after: Directory)
    ensures Members(after, d) == ChangedAll(verb, Members(dir, d), users)
    ensures SameElsewhere(after, dir, d)
  {
    if users == {} then dir else dir[d := ChangedAll(verb, Members(dir, d), users)]
  }

  /** One more successful membership request extends the applied set by that user. */
  lemma AppliedStep(verb: string, dir: Directory, d: GroupId, users: set<UserId>, u: UserId)
    ensures var now := Applied(verb, dir, d, users);
      now[d := Changed(verb, Members(now, d), u)] == Applied(verb, dir, d, users + {u})
  {
    var now := Applied(verb, dir, d, users);
    assert Changed(verb, Members(now, d), u) == ChangedAll(verb, Members(dir, d), users + {u});
  }

  /** What the row's trace records of a request: its verb and its route. */
  datatype Call = Call(verb: string, route: Route)

  /** Requests n0.. are, in order, the calls of `script`. */
  ghost predicate Traced(reqs: seq<Request>, n0: nat, script: seq<Call>)
  {
    && |reqs| == n0 + |script|
    && forall k | n0 <= k < |reqs| :: Call(reqs[k].verb, reqs[k].route) == script[k - n0]
  }

  lemma TracedNext(reqs: seq<Request>, n0: nat, script: seq<Call>, req: Request)
    requires Traced(reqs, n0, script)
    ensures Traced(reqs + [req], n0, script + [Call(req.verb, req.route)])
  {
    var all := reqs + [req];
    forall k | n0 <= k < |all|
      ensures Call(all[k].verb, all[k].route) == (script + [Call(req.verb, req.route)])[k - n0]
    {
      if k < |reqs| {
        assert all[k] == reqs[k];
      }
    }
  }

  /** Two traced phases, one after the other, trace their scripts one after the other. */
  lemma TracedCompose(reqs: seq<Request>, a: nat, b: nat, first: seq<Call>, second: seq<Call>)
    requires b <= |reqs|
    requires Traced(reqs[..b], a, first)
    requires Traced(reqs, b, second)
    ensures Traced(reqs, a, first + second)
  {
    var prefix := reqs[..b];
    forall k | a <= k < |reqs|
      ensures Call(reqs[k].verb, reqs[k].route) == (first + second)[k - a]
    {
      if k < b {
        assert prefix[k] == reqs[k];
        assert Call(prefix[k].verb, prefix[k].route) == first[k - a];
      }
    }
  }

  /** A phase that was traced and accepted, followed by one more phase: their scripts and failure behaviour compose. */
  lemma PhaseAfter<T>(mid: seq<Request>, reqs: seq<Request>, answer: nat -> Response, n0: nat,
                      first: seq<Call>, second: seq<Call>, r: Result<T>)
    requires mid <= reqs
    requires Traced(mid, n0, first) && AllAccepted(mid, answer, n0)
    requires Traced(reqs, |mid|, second) && StopsAtFirstFailure(reqs, answer, |mid|, r)
    ensures Traced(reqs, n0, first + second)
    ensures StopsAtFirstFailure(reqs, answer, n0, r)
  {
    assert reqs[..|mid|] == mid;
    TracedCompose(reqs, n0, |mid|, first, second);
    StopsCompose(reqs, answer, n0, |mid|, r);
  }

  /** Lines 71-81: the existence probe, then the listing of the derived group or its creation. */
  function Probe(d: GroupId, present: bool): (calls: seq<Call>)
    ensures |calls| == 2 && calls[0] == Call("head", GroupRoute(d))
    ensures calls[1] == if present then Call("get", MembersRoute(d)) else Call("post", GroupsRoute)
  {
    [Call("head", GroupRoute(d)), if present then Call("get", MembersRoute(d)) else Call("post", GroupsRoute)]
  }

  /** Lines 85-86: one member listing per input group, in file order. */
  function Listings(inputs: seq<GroupId>): (calls: seq<Call>)
    ensures |calls| == |inputs|
    ensures forall k :: 0 <= k < |inputs| ==> calls[k] == Call("get", MembersRoute(inputs[k]))
  {
    seq(|inputs|, k requires 0 <= k < |inputs| => Call("get", MembersRoute(inputs[k])))
  }

  /** Lines 98-99: one membership request per user, in order. */
  function Writes(verb: string, d: GroupId, users: seq<UserId>): (calls: seq<Call>)
    ensures |calls| == |users|
    ensures forall k :: 0 <= k < |users| ==> calls[k] == Call(verb, MemberRoute(d, users[k]))
  {
    seq(|users|, k requires 0 <= k < |users| => Call(verb, MemberRoute(d, users[k])))
  }

  /** The requests of a row: the probe, the listings of the first `listed` inputs, the additions, the removals. */
  function RowScript(def: Definition, present: bool, listed: nat, adds: seq<UserId>, removes: seq<UserId>): (calls: seq<Call>)
    requires listed <= |def.inputs|
    ensures |calls| == 2 + listed + |adds| + |removes|
  {
    Probe(def.id, present) + Listings(def.inputs[..listed]) + Writes("put", def.id, adds) + Writes("delete", def.id, removes)
  }

  /** The audit events of a row: the creation when the group was absent, then the additions, then the removals. */
  function RowEvents(def: Definition, present: bool, adds: seq<UserId>, removes: seq<UserId>): (events: seq<AuditEvent>)
    ensures |events| == (if present then 0 else 1) + |adds| + |removes|
  {
    (if present then [] else [GroupCreated(def.id, def.name)]) + Events("put", def.id, adds) + Events("delete", def.id, removes)
  }

  /** A row's script is that of its planning phase followed by its writes. */
  lemma RowScriptSplit(def: Definition, present: bool, listed: nat, adds: seq<UserId>, removes: seq<UserId>)
    requires listed <= |def.inputs|
    ensures RowScript(def, present, listed, adds, removes) ==
      (Probe(def.id, present) + Listings(def.inputs[..listed])) + (Writes("put", def.id, adds) + Writes("delete", def.id, removes))
  {
  }

  /**
   * Lines 70-81: probe the derived group; list its members if it is present, otherwise create it
   * and take it to have none.
   */
  method FetchCurrent(client: Client, def: Definition) returns (r: Result<set<UserId>>)
    requires client.Valid()
    modifies client, client.service
    ensures client.Valid()
    ensures var n0 := old(|client.service.received|);
      var present := client.service.answer(n0).status == StatusOk;
      var probed := AfterProbe(old(client.service.groups), def.id, present);
      && old(client.service.received) <= client.service.received
      && Traced(client.service.received, n0, Probe(def.id, present))
      && StopsAtFirstFailure(client.service.received, client.service.answer, n0, r)
      && (r.Err? ==> r.error.ServiceError? && client.service.groups == old(client.service.groups))
      && (r.Ok? ==> r.value == Members(probed, def.id) && client.service.groups == probed)
      && client.log == old(client.log) + (if !present && r.Ok? then [GroupCreated(def.id, def.name)] else [])
  {
    ghost var n0 := |client.service.received|;
    var present := client.CheckLdapGroupExistence(def.id);
    ghost var sent := client.service.received;
    assert AllAccepted(sent, client.service.answer, n0);
    assert Traced(sent, n0, [Call("head", GroupRoute(def.id))]);
    if present {
      var users := client.GetAllLdapGroupUsers(def.id);
      ghost var req := client.service.received[|sent|];
      assert client.service.received == sent + [req];
      TracedNext(sent, n0, [Call("head", GroupRoute(def.id))], req);
      if users.Err? {
        FailsOn(sent, client.service.answer, n0, req, users);
        return Err(users.error);
      }
      AcceptedNext(sent, client.service.answer, n0, req);
      r := Ok(IdSet(users.value));
    } else {
      var created := client.CreateGroup(def.id, def.name);
      ghost var req := client.service.received[|sent|];
      assert client.service.received == sent + [req];
      TracedNext(sent, n0, [Call("head", GroupRoute(def.id))], req);
      if created.Err? {
        FailsOn(sent, client.service.answer, n0, req, created);
        return Err(created.error);
      }
      AcceptedNext(sent, client.service.answer, n0, req);
      r := Ok({});
    }
  }

  /** Lines 84-91: list every input group in order and intersect the member sets as they come. */
  method IntersectInputs(client: Client, inputs: seq<GroupId>) returns (r: Result<set<UserId>>)
    requires client.Valid()
    modifies client, client.service
    ensures client.Valid()
    ensures client.service.groups == old(client.service.groups) && client.log == old(client.log)
    ensures var n0 := old(|client.service.received|);
      && old(client.service.received) <= client.service.received
      && n0 <= |client.service.received| <= n0 + |inputs|
      && Traced(client.service.received, n0, Listings(inputs[..|client.service.received| - n0]))
      && StopsAtFirstFailure(client.service.received, client.service.answer, n0, r)
      && (r.Err? ==> r.error.ServiceError?)
      && (r.Ok? ==> |client.service.received| == n0 + |inputs| && r.value == Target(old(client.service.groups), inputs))
  {
    ghost var n0 := |client.service.received|;
    ghost var dir := client.service.groups;
    var target: set<UserId> := {};
    var i := 0;
    assert inputs[..0] == [] && MemberSets(dir, []) == [];
    while i < |inputs|
      invariant 0 <= i <= |inputs|
      invariant client.Valid()
      invariant client.service.groups == dir && client.log == old(client.log)
      invariant old(client.service.received) <= client.service.received
      invariant Traced(client.service.received, n0, Listings(inputs[..i]))
      invariant AllAccepted(client.service.received, client.service.answer, n0)
      invariant target == Target(dir, inputs[..i])
    {
      ghost var sent := client.service.received;
      var users := client.GetAllLdapGroupUsers(inputs[i]);
      ghost var req := client.service.received[|sent|];
      assert client.service.received == sent + [req];
      TracedNext(sent, n0, Listings(inputs[..i]), req);
      assert Listings(inputs[..i + 1]) == Listings(inputs[..i]) + [Call(req.verb, req.route)];
      if users.Err? {
        FailsOn(sent, client.service.answer, n0, req, users);
        return Err(users.error);
      }
      AcceptedNext(sent, client.service.answer, n0, req);
      var members := IdSet(users.value);
      assert members == Members(dir, inputs[i]);
      TargetStep(dir, inputs, i);
      target := if i == 0 then members else members * target;
      assert target == Target(dir, inputs[..i + 1]);
      i := i + 1;
    }
    assert inputs[..i] == inputs;
    r := Ok(target);
  }

  /** A write phase after the users of `order`: each sent once and in order, accepted, applied and logged. */
  ghost predicate Issuing(reqs: seq<Request>, answer: nat -> Response, n0: nat, verb: string, d: GroupId,
                          dir: Directory, groups: Directory, log0: seq<AuditEvent>, log: seq<AuditEvent>, order: seq<UserId>)
  {
    && Distinct(order)
    && Traced(reqs, n0, Writes(verb, d, order))
    && AllAccepted(reqs, answer, n0)
    && groups == Applied(verb, dir, d, Elems(order))
    && log == log0 + Events(verb, d, order)
  }

  /** One more user whose request got the verb's success code. */
  lemma IssuingNext(reqs: seq<Request>, answer: nat -> Response, n0: nat, verb: string, d: GroupId,
                    dir: Directory, groups: Directory, log0: seq<AuditEvent>, log: seq<AuditEvent>, order: seq<UserId>,
                    u: UserId, req: Request)
    requires Issuing(reqs, answer, n0, verb, d, dir, groups, log0, log, order) && u !in Elems(order)
    requires req.verb == verb && req.route == MemberRoute(d, u) && answer(|reqs|).status == SuccessCode(verb)
    ensures Elems(order + [u]) == Elems(order) + {u}
    ensures Issuing(reqs + [req], answer, n0, verb, d, dir, groups[d := Changed(verb, Members(groups, d), u)],
                    log0, log + [MembershipEvent(verb, d, u)], order + [u])
  {
    var next := order + [u];
    AppendFresh(order, u);
    TracedNext(reqs, n0, Writes(verb, d, order), req);
    assert Writes(verb, d, next) == Writes(verb, d, order) + [Call(req.verb, req.route)];
    AcceptedNext(reqs, answer, n0, req);
    AppliedStep(verb, dir, d, Elems(order), u);
    assert Events(verb, d, next) == Events(verb, d, order) + [MembershipEvent(verb, d, u)];
  }

  /** One more user whose request missed the verb's success code: the phase ends on it. */
  lemma IssuingFails(reqs: seq<Request>, answer: nat -> Response, n0: nat, verb: string, d: GroupId,
                     dir: Directory, groups: Directory, log0: seq<AuditEvent>, log: seq<AuditEvent>, order: seq<UserId>,
                     u: UserId, req: Request)
    requires Issuing(reqs, answer, n0, verb, d, dir, groups, log0, log, order) && u !in Elems(order) && verb != "head"
    requires req.verb == verb && req.route == MemberRoute(d, u) && answer(|reqs|).status != SuccessCode(verb)
    ensures var next := order + [u];
      && Distinct(next) && Elems(next) == Elems(order) + {u} && next[..|next| - 1] == order
      && Traced(reqs + [req], n0, Writes(verb, d, next))
      && StopsAtFirstFailure(reqs + [req], answer, n0, Result<()>.Err(ServiceError(answer(|reqs|).text)))
  {
    var next := order + [u];
    AppendFresh(order, u);
    assert next[..|next| - 1] == order;
    TracedNext(reqs, n0, Writes(verb, d, order), req);
    assert Writes(verb, d, next) == Writes(verb, d, order) + [Call(req.verb, req.route)];
    FailsOn(reqs, answer, n0, req, Result<()>.Err(ServiceError(answer(|reqs|).text)));
  }

  /** One membership request of a write phase: on success the phase extends by u, on failure it ends on u. */
  method IssueOne(client: Client, verb: string, d: GroupId, u: UserId, ghost n0: nat, ghost dir: Directory,
                  ghost log0: seq<AuditEvent>, ghost order: seq<UserId>) returns (r: Result<()>)
    requires client.Valid() && MembershipVerb(verb) && u !in Elems(order)
    requires Issuing(client.service.received, client.service.answer, n0, verb, d, dir, client.service.groups, log0, client.log, order)
    modifies client, client.service
    ensures client.Valid()
    ensures old(client.service.received) <= client.service.received
    ensures Elems(order + [u]) == Elems(order) + {u}
    ensures r.Ok? ==>
      Issuing(client.service.received, client.service.answer, n0, verb, d, dir, client.service.groups, log0, client.log, order + [u])
    ensures r.Err? ==>
      && r.error.ServiceError?
      && Distinct(order + [u])
      && Traced(client.service.received, n0, Writes(verb, d, order + [u]))
      && StopsAtFirstFailure(client.service.received, client.service.answer, n0, r)
      && client.service.groups == Applied(verb, dir, d, Elems(order))
      && client.log == log0 + Events(verb, d, order)
  {
    assert verb != "head";
    ghost var sent := client.service.received;
    ghost var groups := client.service.groups;
    ghost var log := client.log;
    r := client.ModifyGroupMembership(verb, d, u);
    ghost var req := client.service.received[|sent|];
    assert client.service.received == sent + [req];
    if r.Err? {
      IssuingFails(sent, client.service.answer, n0, verb, d, dir, groups, log0, log, order, u, req);
    } else {
      IssuingNext(sent, client.service.answer, n0, verb, d, dir, groups, log0, log, order, u, req);
    }
  }

  /** Lines 98 and 99: one request per user in an order the set chooses, stopping at the first error. */
  method IssueAll(client: Client, verb: string, d: GroupId, users: set<UserId>) returns (r: Result<()>, ghost order: seq<UserId>)
    requires client.Valid()
    requires MembershipVerb(verb)
    modifies client, client.service
    ensures client.Valid()
    ensures r.Err? ==> r.error.ServiceError? && |order| >= 1
    ensures old(client.service.received) <= client.service.received
    ensures Traced(client.service.received, old(|client.service.received|), Writes(verb, d, order))
    ensures Distinct(order) && Elems(order) <= users
    ensures r.Ok? ==> Elems(order) == users
    ensures StopsAtFirstFailure(client.service.received, client.service.answer, old(|client.service.received|), r)
    ensures client.service.groups == Applied(verb, old(client.service.groups), d, Elems(Kept(order, r.Err?)))
    ensures client.log == old(client.log) + Events(verb, d, Kept(order, r.Err?))
  {
    ghost var n0 := |client.service.received|;
    ghost var dir := client.service.groups;
    ghost var log0 := client.log;
    order := [];
    var pending := users;
    assert Writes(verb, d, []) == [] && Events(verb, d, []) == [];
    while pending != {}
      invariant client.Valid()
      invariant Elems(order) + pending == users && Elems(order) !! pending
      invariant old(client.service.received) <= client.service.received
      invariant Issuing(client.service.received, client.service.answer, n0, verb, d, dir, client.service.groups, log0, client.log, order)
      decreases pending
    {
      var u :| u in pending;
      var res := IssueOne(client, verb, d, u, n0, dir, log0, order);
      if res.Err? {
        ghost var done := order;
        order := order + [u];
        assert order[..|order| - 1] == done;
        return res, order;
      }
      order := order + [u];
      pending := pending - {u};
    }
    r := Ok(());
  }

  /** Where the work of a row ended. */
  datatype Stop =
    | AtFetch      // the listing or the creation of the derived group raised
    | AtListing    // the listing of an input group raised
    | AtPut        // an addition raised
    | AtDelete     // a removal raised
    | Completed    // every request of the row was accepted

  /**
   * What one row did: whether the probe found the derived group, how many input groups it listed,
   * the additions and the removals it sent (in the order sent), and where it stopped.
   */
  datatype RowRun = RowRun(present: bool, listed: nat, adds: seq<UserId>, removes: seq<UserId>, stop: Stop)

  /** The users of a write phase whose change took effect: all of them, or all but the last when the phase stopped on it. */
  function Kept(s: seq<UserId>, stopped: bool): (k: seq<UserId>)
    ensures stopped && |s| > 0 ==> s == k + [s[|s| - 1]]
    ensures !stopped || s == [] ==> k == s
  {
    if stopped && |s| > 0 then s[..|s| - 1] else s
  }

  /** The store after a row that got past the fetch: as probed, then its kept additions, then its kept removals. */
  ghost function RowStore(dir: Directory, def: Definition, run: RowRun): Directory
  {
    Applied("delete", Applied("put", AfterProbe(dir, def.id, run.present), def.id, Elems(Kept(run.adds, run.stop.AtPut?))),
            def.id, Elems(Kept(run.removes, run.stop.AtDelete?)))
  }

  /** The audit events of a row that got past the fetch: the creation if any, then its kept additions and removals. */
  function RowLog(def: Definition, run: RowRun): seq<AuditEvent>
  {
    RowEvents(def, run.present, Kept(run.adds, run.stop.AtPut?), Kept(run.removes, run.stop.AtDelete?))
  }

  /**
   * The requests from `from` on are those of one row for `def`, and they took the store from dir0 to
   * dir1 and the log from log0 to log1. Every accepted request took effect and nothing was undone: a
   * row that stopped leaves the store and the log as its last accepted request left them, and a row
   * that completed leaves the derived group at its target.
   */
  ghost predicate RowEffect(reqs: seq<Request>, answer: nat -> Response, from: nat, def: Definition, run: RowRun,
                            dir0: Directory, dir1: Directory, log0: seq<AuditEvent>, log1: seq<AuditEvent>)
  {
    var probed := AfterProbe(dir0, def.id, run.present);
    var plan := Diff(Members(probed, def.id), Target(probed, def.inputs));
    && run.listed <= |def.inputs|
    && run.present == (answer(from).status == StatusOk)
    && Traced(reqs, from, RowScript(def, run.present, run.listed, run.adds, run.removes))
    && Distinct(run.adds) && Elems(run.adds) <= plan.toAdd
    && Distinct(run.removes) && Elems(run.removes) <= plan.toRemove
    && (match run.stop
        case AtFetch => run.listed == 0 && run.adds == [] && run.removes == [] && dir1 == dir0 && log1 == log0
        case AtListing => run.adds == [] && run.removes == []
        case AtPut => run.listed == |def.inputs| && |run.adds| > 0 && run.removes == []
        case AtDelete => run.listed == |def.inputs| && |run.removes| > 0 && Elems(run.adds) == plan.toAdd
        case Completed =>
          && run.listed == |def.inputs| && Elems(run.adds) == plan.toAdd && Elems(run.removes) == plan.toRemove
          && Members(dir1, def.id) == Target(probed, def.inputs)
          && Members(dir1, def.id) == Target(dir1, def.inputs))
    && (!run.stop.AtFetch? ==> dir1 == RowStore(dir0, def, run) && log1 == log0 + RowLog(def, run))
  }

  /** A row changes no group but its derived group, and only appends to the log. */
  lemma RowIsLocal(reqs: seq<Request>, answer: nat -> Response, from: nat, def: Definition, run: RowRun,
                   dir0: Directory, dir1: Directory, log0: seq<AuditEvent>, log1: seq<AuditEvent>)
    requires RowEffect(reqs, answer, from, def, run, dir0, dir1, log0, log1)
    ensures SameElsewhere(dir1, dir0, def.id)
    ensures log0 <= log1
  {
    if !run.stop.AtFetch? {
      var probed := AfterProbe(dir0, def.id, run.present);
      var added := Applied("put", probed, def.id, Elems(Kept(run.adds, run.stop.AtPut?)));
      assert SameElsewhere(added, probed, def.id);
    }
  }

  /** Lines 70-95: the derived group's current members, the target, and the plan between them. */
  method PlanRow(client: Client, def: Definition)
    returns (r: Result<Plan>, ghost present: bool, ghost listed: nat, ghost fetched: bool)
    requires client.Valid()
    modifies client, client.service
    ensures client.Valid()
    ensures var n0 := old(|client.service.received|);
      && present == (client.service.answer(n0).status == StatusOk)
      && old(client.service.received) <= client.service.received
      && listed <= |def.inputs|
      && Traced(client.service.received, n0, Probe(def.id, present) + Listings(def.inputs[..listed]))
      && StopsAtFirstFailure(client.service.received, client.service.answer, n0, r)
    ensures r.Err? ==> r.error.ServiceError?
    ensures !fetched ==>
      && r.Err? && listed == 0
      && client.service.groups == old(client.service.groups) && client.log == old(client.log)
    ensures var probed := AfterProbe(old(client.service.groups), def.id, present);
      && (fetched ==> client.service.groups == probed && client.log == old(client.log) + RowEvents(def, present, [], []))
      && (r.Ok? ==>
            && fetched && listed == |def.inputs|
            && r.value == Diff(Members(probed, def.id), Target(probed, def.inputs)))
  {
    ghost var n0 := |client.service.received|;
    present := client.service.answer(n0).status == StatusOk;
    listed, fetched := 0, false;
    assert RowEvents(def, present, [], []) == if present then [] else [GroupCreated(def.id, def.name)];
    var current := FetchCurrent(client, def);
    assert def.inputs[..0] == [];
    if current.Err? {
      return Err(current.error), present, listed, fetched;
    }
    fetched := true;
    ghost var sent := client.service.received;
    var target := IntersectInputs(client, def.inputs);
    listed := |client.service.received| - |sent|;
    PhaseAfter(sent, client.service.received, client.service.answer, n0,
               Probe(def.id, present), Listings(def.inputs[..listed]), target);
    if target.Err? {
      return Err(target.error), present, listed, fetched;
    }
    assert def.inputs[..listed] == def.inputs;
    r := Ok(Diff(current.value, target.value));
  }

  /**
   * Lines 98 and 99: all additions, then all removals, stopping at the first error. Every accepted
   * request stays applied and logged; the one that raised changed nothing.
   */
  method ApplyPlan(client: Client, d: GroupId, plan: Plan) returns (r: Result<()>, ghost adds: seq<UserId>, ghost removes: seq<UserId>)
    requires client.Valid()
    modifies client, client.service
    ensures client.Valid()
    ensures old(client.service.received) <= client.service.received
    ensures Traced(client.service.received, old(|client.service.received|), Writes("put", d, adds) + Writes("delete", d, removes))
    ensures StopsAtFirstFailure(client.service.received, client.service.answer, old(|client.service.received|), r)
    ensures r.Err? ==> r.error.ServiceError?
    ensures Distinct(adds) && Elems(adds) <= plan.toAdd && Distinct(removes) && Elems(removes) <= plan.toRemove
    ensures |removes| > 0 ==> Elems(adds) == plan.toAdd
    ensures r.Ok? ==> Elems(adds) == plan.toAdd && Elems(removes) == plan.toRemove
    ensures r.Err? && removes == [] ==> |adds| > 0
    ensures var keptAdds, keptRemoves := Kept(adds, r.Err? && removes == []), Kept(removes, r.Err?);
      && client.service.groups == Applied("delete", Applied("put", old(client.service.groups), d, Elems(keptAdds)), d, Elems(keptRemoves))
      && client.log == old(client.log) + Events("put", d, keptAdds) + Events("delete", d, keptRemoves)
  {
    ghost var n0 := |client.service.received|;
    var added;
    added, adds := IssueAll(client, "put", d, plan.toAdd);
    removes := [];
    assert Writes("delete", d, []) == [] && Events("delete", d, []) == [] && Elems(removes) == {};
    assert Writes("put", d, adds) + [] == Writes("put", d, adds);
    if added.Err? {
      return added, adds, removes;
    }
    ghost var sent := client.service.received;
    var removed;
    removed, removes := IssueAll(client, "delete", d, plan.toRemove);
    PhaseAfter(sent, client.service.received, client.service.answer, n0,
               Writes("put", d, adds), Writes("delete", d, removes), removed);
    r := removed;
  }

  /** A row that raised while fetching its derived group or listing an input group. */
  lemma PlanningStopped(reqs: seq<Request>, answer: nat -> Response, n0: nat, def: Definition, present: bool,
                        listed: nat, fetched: bool, dir0: Directory, dir1: Directory, log0: seq<AuditEvent>, log1: seq<AuditEvent>)
    requires listed <= |def.inputs| && present == (answer(n0).status == StatusOk)
    requires Traced(reqs, n0, Probe(def.id, present) + Listings(def.inputs[..listed]))
    requires !fetched ==> listed == 0 && dir1 == dir0 && log1 == log0
    requires fetched ==> dir1 == AfterProbe(dir0, def.id, present) && log1 == log0 + RowEvents(def, present, [], [])
    ensures RowEffect(reqs, answer, n0, def, RowRun(present, listed, [], [], if fetched then AtListing else AtFetch),
                      dir0, dir1, log0, log1)
  {
    assert Writes("put", def.id, []) == [] && Writes("delete", def.id, []) == [];
    assert RowScript(def, present, listed, [], []) == Probe(def.id, present) + Listings(def.inputs[..listed]);
    var empty: seq<UserId> := [];
    assert Elems(empty) == {};
  }

  /** The events of a row are those of its planning phase followed by those of its writes. */
  lemma PlanningThenWrites(log0: seq<AuditEvent>, def: Definition, present: bool, adds: seq<UserId>, removes: seq<UserId>)
    ensures log0 + RowEvents(def, present, [], []) + Events("put", def.id, adds) + Events("delete", def.id, removes)
            == log0 + RowEvents(def, present, adds, removes)
  {
    var created: seq<AuditEvent> := if present then [] else [GroupCreated(def.id, def.name)];
    assert Events("put", def.id, []) == [] && Events("delete", def.id, []) == [];
    assert RowEvents(def, present, [], []) == created;
    assert log0 + created + Events("put", def.id, adds) + Events("delete", def.id, removes)
           == log0 + (created + Events("put", def.id, adds) + Events("delete", def.id, removes));
  }

  /**
   * A row whose planning succeeded, followed by its write phase (`ok` when no write raised): its
   * trace, its store and its log; a row that completed leaves the derived group at its target.
   */
  lemma RowWritten(reqs: seq<Request>, answer: nat -> Response, n0: nat, def: Definition, present: bool,
                   adds: seq<UserId>, removes: seq<UserId>, ok: bool,
                   dir0: Directory, dir1: Directory, log0: seq<AuditEvent>, log1: seq<AuditEvent>)
    requires present == (answer(n0).status == StatusOk)
    requires Traced(reqs, n0, (Probe(def.id, present) + Listings(def.inputs[..|def.inputs|]))
                              + (Writes("put", def.id, adds) + Writes("delete", def.id, removes)))
    requires var probed := AfterProbe(dir0, def.id, present);
      var plan := Diff(Members(probed, def.id), Target(probed, def.inputs));
      && Distinct(adds) && Elems(adds) <= plan.toAdd && Distinct(removes) && Elems(removes) <= plan.toRemove
      && (|removes| > 0 ==> Elems(adds) == plan.toAdd)
      && (ok ==> Elems(adds) == plan.toAdd && Elems(removes) == plan.toRemove)
      && (!ok && removes == [] ==> |adds| > 0)
      && dir1 == Applied("delete", Applied("put", probed, def.id, Elems(Kept(adds, !ok && removes == []))),
                         def.id, Elems(Kept(removes, !ok)))
      && log1 == log0 + RowEvents(def, present, [], []) + Events("put", def.id, Kept(adds, !ok && removes == []))
                 + Events("delete", def.id, Kept(removes, !ok))
    ensures RowEffect(reqs, answer, n0, def,
                      RowRun(present, |def.inputs|, adds, removes, if ok then Completed else if removes == [] then AtPut else AtDelete),
                      dir0, dir1, log0, log1)
  {
    var run := RowRun(present, |def.inputs|, adds, removes, if ok then Completed else if removes == [] then AtPut else AtDelete);
    RowScriptSplit(def, present, |def.inputs|, adds, removes);
    assert Kept(adds, run.stop.AtPut?) == Kept(adds, !ok && removes == []);
    assert Kept(removes, run.stop.AtDelete?) == Kept(removes, !ok);
    PlanningThenWrites(log0, def, present, Kept(adds, !ok && removes == []), Kept(removes, !ok));
    if ok {
      var probed := AfterProbe(dir0, def.id, present);
      var added := Applied("put", probed, def.id, Elems(adds));
      assert SameElsewhere(added, probed, def.id);
      TargetStable(probed, dir1, def.id, def.inputs);
    }
  }

  /**
   * Lines 64-99 for one row. The requests follow the row's script and stop at the first one the client
   * rejects; each accepted request stays applied, nothing is undone when a later one raises, and a row
   * that completes leaves the derived group holding exactly the users that are in every input group.
   */
  method ReconcileDefinition(client: Client, def: Definition) returns (r: Result<()>, ghost run: RowRun)
    requires client.Valid()
    modifies client, client.service
    ensures client.Valid()
    ensures old(client.service.received) <= client.service.received
    ensures StopsAtFirstFailure(client.service.received, client.service.answer, old(|client.service.received|), r)
    ensures r.Err? ==> r.error.ServiceError?
    ensures r.Ok? <==> run.stop.Completed?
    ensures RowEffect(client.service.received, client.service.answer, old(|client.service.received|), def, run,
                      old(client.service.groups), client.service.groups, old(client.log), client.log)
  {
    ghost var n0 := |client.service.received|;
    var plan;
    ghost var present, listed, fetched;
    plan, present, listed, fetched := PlanRow(client, def);
    if plan.Err? {
      PlanningStopped(client.service.received, client.service.answer, n0, def, present, listed, fetched,
                      old(client.service.groups), client.service.groups, old(client.log), client.log);
      run := RowRun(present, listed, [], [], if fetched then AtListing else AtFetch);
      return Err(plan.error), run;
    }
    ghost var sent := client.service.received;
    ghost var adds, removes;
    r, adds, removes := ApplyPlan(client, def.id, plan.value);
    PhaseAfter(sent, client.service.received, client.service.answer, n0, Probe(def.id, present) + Listings(def.inputs[..listed]),
               Writes("put", def.id, adds) + Writes("delete", def.id, removes), r);
    RowWritten(client.service.received, client.service.answer, n0, def, present, adds, removes, r.Ok?,
               old(client.service.groups), client.service.groups, old(client.log), client.log);
    run := RowRun(present, listed, adds, removes, if r.Ok? then Completed else if removes == [] then AtPut else AtDelete);
  }

  /**
   * Lines 94-99 on a second pass: once the derived group holds the target and the probe reports it
   * present, a pass issues no addition and no removal, and leaves the store and the log as they were.
   */
  lemma ConvergedRowWritesNothing(reqs: seq<Request>, answer: nat -> Response, from: nat, def: Definition, run: RowRun,
                                  dir0: Directory, dir1: Directory, log0: seq<AuditEvent>, log1: seq<AuditEvent>)
    requires RowEffect(reqs, answer, from, def, run, dir0, dir1, log0, log1)
    requires run.present && Members(dir0, def.id) == Target(dir0, def.inputs)
    ensures run.adds == [] && run.removes == []
    ensures dir1 == dir0 && log1 == log0
  {
    RerunPlanIsEmpty(dir0, dir0, def.id, def.inputs);
    NothingListed(run.adds);
    NothingListed(run.removes);
    var empty: seq<UserId> := [];
    assert Elems(empty) == {};
    assert Events("put", def.id, []) == [] && Events("delete", def.id, []) == [];
  }

  /**
   * The same row twice in a row: when the first pass completed and the second probe finds the derived
   * group, the second pass sends no write and changes neither the store nor the log.
   */
  lemma SecondPassIsNoOp(reqs1: seq<Request>, reqs2: seq<Request>, answer: nat -> Response, from1: nat, from2: nat,
                         def: Definition, run1: RowRun, run2: RowRun, dir0: Directory, dir1: Directory, dir2: Directory,
                         log0: seq<AuditEvent>, log1: seq<AuditEvent>, log2: seq<AuditEvent>)
    requires RowEffect(reqs1, answer, from1, def, run1, dir0, dir1, log0, log1) && run1.stop.Completed?
    requires RowEffect(reqs2, answer, from2, def, run2, dir1, dir2, log1, log2) && run2.present
    ensures run2.adds == [] && run2.removes == []
    ensures dir2 == dir1 && log2 == log1
  {
    ConvergedRowWritesNothing(reqs2, answer, from2, def, run2, dir1, dir2, log1, log2);
  }

  /**
   * The rows a run has done, in file order: row i unpacked, its requests are those from starts[i] up
   * to starts[i + 1], and they took the store from dirs[i] to dirs[i + 1] and the log from logs[i] to
   * logs[i + 1].
   */
  ghost predicate RowsDone(reqs: seq<Request>, answer: nat -> Response, rows: seq<seq<string>>, runs: seq<RowRun>,
                           starts: seq<nat>, dirs: seq<Directory>, logs: seq<seq<AuditEvent>>)
  {
    && |runs| <= |rows| && |starts| == |runs| + 1 && |dirs| == |runs| + 1 && |logs| == |runs| + 1
    && forall i: nat | i < |runs| :: RowDoneAt(reqs, answer, rows, runs, starts, dirs, logs, i)
  }

  /** Row i of a run: it unpacked, and its requests and their effect are as RowEffect says. */
  ghost predicate RowDoneAt(reqs: seq<Request>, answer: nat -> Response, rows: seq<seq<string>>, runs: seq<RowRun>,
                            starts: seq<nat>, dirs: seq<Directory>, logs: seq<seq<AuditEvent>>, i: nat)
  {
    && i < |runs| && i < |rows| && i + 1 < |starts| && i + 1 < |dirs| && i + 1 < |logs|
    && ParseRow(rows[i]).Ok?
    && starts[i] < starts[i + 1] <= |reqs|
    && RowEffect(reqs[..starts[i + 1]], answer, starts[i], ParseRow(rows[i]).value, runs[i],
                 dirs[i], dirs[i + 1], logs[i], logs[i + 1])
  }

  /** A row's requests are at least its probe and the listing or creation of its derived group. */
  lemma RowEffectSends(reqs: seq<Request>, answer: nat -> Response, from: nat, def: Definition, run: RowRun,
                       dir0: Directory, dir1: Directory, log0: seq<AuditEvent>, log1: seq<AuditEvent>)
    requires RowEffect(reqs, answer, from, def, run, dir0, dir1, log0, log1)
    ensures from + 2 <= |reqs|
  {
    assert |reqs| == from + |RowScript(def, run.present, run.listed, run.adds, run.removes)|;
  }

  /** A row already done stays done when later requests are appended and later rows recorded. */
  lemma RowDoneAtKept(before: seq<Request>, after: seq<Request>, answer: nat -> Response, rows: seq<seq<string>>,
                      runs: seq<RowRun>, starts: seq<nat>, dirs: seq<Directory>, logs: seq<seq<AuditEvent>>,
                      run: RowRun, start: nat, dir1: Directory, log1: seq<AuditEvent>, i: nat)
    requires RowDoneAt(before, answer, rows, runs, starts, dirs, logs, i)
    requires before <= after
    ensures RowDoneAt(after, answer, rows, runs + [run], starts + [start], dirs + [dir1], logs + [log1], i)
  {
    var runs', starts', dirs', logs' := runs + [run], starts + [start], dirs + [dir1], logs + [log1];
    assert runs'[i] == runs[i] && starts'[i] == starts[i] && starts'[i + 1] == starts[i + 1];
    assert dirs'[i] == dirs[i] && dirs'[i + 1] == dirs[i + 1] && logs'[i] == logs[i] && logs'[i + 1] == logs[i + 1];
    assert after[..starts[i + 1]] == before[..starts[i + 1]];
  }

  /** One more row done on top of an accepted run of earlier rows. */
  lemma RowsDoneNext<T>(before: seq<Request>, after: seq<Request>, answer: nat -> Response, n0: nat,
                        rows: seq<seq<string>>, runs: seq<RowRun>, starts: seq<nat>, dirs: seq<Directory>,
                        logs: seq<seq<AuditEvent>>, run: RowRun, dir1: Directory, log1: seq<AuditEvent>, res: Result<T>)
    requires RowsDone(before, answer, rows, runs, starts, dirs, logs) && |runs| < |rows|
    requires starts[|runs|] == |before| && AllAccepted(before, answer, n0)
    requires before <= after && ParseRow(rows[|runs|]).Ok?
    requires RowEffect(after, answer, |before|, ParseRow(rows[|runs|]).value, run, dirs[|runs|], dir1, logs[|runs|], log1)
    requires StopsAtFirstFailure(after, answer, |before|, res)
    ensures RowsDone(after, answer, rows, runs + [run], starts + [|after|], dirs + [dir1], logs + [log1])
    ensures StopsAtFirstFailure(after, answer, n0, res)
  {
    assert after[..|before|] == before;
    StopsCompose(after, answer, n0, |before|, res);
    RowEffectSends(after, answer, |before|, ParseRow(rows[|runs|]).value, run, dirs[|runs|], dir1, logs[|runs|], log1);
    assert after[..|after|] == after;
    var runs', starts', dirs', logs' := runs + [run], starts + [|after|], dirs + [dir1], logs + [log1];
    forall i: nat | i < |runs'|
      ensures RowDoneAt(after, answer, rows, runs', starts', dirs', logs', i)
    {
      if i < |runs| {
        RowDoneAtKept(before, after, answer, rows, runs, starts, dirs, logs, run, |after|, dir1, log1, i);
      } else {
        assert runs'[i] == run && starts'[i] == |before| && starts'[i + 1] == |after|;
        assert dirs'[i] == dirs[|runs|] && dirs'[i + 1] == dir1 && logs'[i] == logs[|runs|] && logs'[i + 1] == log1;
      }
    }
  }

  /**
   * Lines 66-99, the body of the loop over rows: unpack the row, then reconcile it. A row that does
   * not unpack raises before any request for it and changes nothing.
   */
  method RunRow(client: Client, row: seq<string>) returns (r: Result<()>, ghost run: RowRun)
    requires client.Valid()
    modifies client, client.service
    ensures client.Valid()
    ensures old(client.service.received) <= client.service.received
    ensures StopsAtFirstFailure(client.service.received, client.service.answer, old(|client.service.received|), r)
    ensures ParseRow(row).Err? ==>
      && r == Err(UnpackError(|row|))
      && client.service.received == old(client.service.received)
      && client.service.groups == old(client.service.groups) && client.log == old(client.log)
    ensures ParseRow(row).Ok? ==>
      && (r.Err? ==> r.error.ServiceError?)
      && (r.Ok? <==> run.stop.Completed?)
      && RowEffect(client.service.received, client.service.answer, old(|client.service.received|), ParseRow(row).value,
                   run, old(client.service.groups), client.service.groups, old(client.log), client.log)
  {
    var parsed := ParseRow(row);
    if parsed.Err? {
      run := RowRun(false, 0, [], [], AtFetch);
      return Err(parsed.error), run;
    }
    r, run := ReconcileDefinition(client, parsed.value);
  }

  /**
   * A run so far: the rows in `runs` were done one after the other, from request n0, store dir0 and
   * log log0 up to the current requests, store and log; every row but the last completed.
   */
  ghost predicate RunSoFar(reqs: seq<Request>, answer: nat -> Response, n0: nat, rows: seq<seq<string>>,
                           runs: seq<RowRun>, starts: seq<nat>, dirs: seq<Directory>, logs: seq<seq<AuditEvent>>,
                           dir0: Directory, log0: seq<AuditEvent>, dir: Directory, log: seq<AuditEvent>)
  {
    && RowsDone(reqs, answer, rows, runs, starts, dirs, logs)
    && starts[0] == n0 && dirs[0] == dir0 && logs[0] == log0
    && starts[|runs|] == |reqs| && dirs[|runs|] == dir && logs[|runs|] == log
    && (forall i | 0 <= i < |runs| - 1 :: runs[i].stop.Completed?)
  }

  /** A run of completed rows, followed by one more row, is a run so far. */
  lemma RunSoFarNext<T>(before: seq<Request>, after: seq<Request>, answer: nat -> Response, n0: nat,
                        rows: seq<seq<string>>, runs: seq<RowRun>, starts: seq<nat>, dirs: seq<Directory>,
                        logs: seq<seq<AuditEvent>>, dir0: Directory, log0: seq<AuditEvent>, dir: Directory, log: seq<AuditEvent>,
                        run: RowRun, dir1: Directory, log1: seq<AuditEvent>, res: Result<T>)
    requires RunSoFar(before, answer, n0, rows, runs, starts, dirs, logs, dir0, log0, dir, log) && |runs| < |rows|
    requires forall k | 0 <= k < |runs| :: runs[k].stop.Completed?
    requires AllAccepted(before, answer, n0)
    requires before <= after && ParseRow(rows[|runs|]).Ok?
    requires RowEffect(after, answer, |before|, ParseRow(rows[|runs|]).value, run, dir, dir1, log, log1)
    requires StopsAtFirstFailure(after, answer, |before|, res)
    requires res.Ok? <==> run.stop.Completed?
    ensures RunSoFar(after, answer, n0, rows, runs + [run], starts + [|after|], dirs + [dir1], logs + [log1],
                     dir0, log0, dir1, log1)
    ensures StopsAtFirstFailure(after, answer, n0, res)
    ensures res.Ok? ==> forall k | 0 <= k < |runs| + 1 :: (runs + [run])[k].stop.Completed?
  {
    RowsDoneNext(before, after, answer, n0, rows, runs, starts, dirs, logs, run, dir1, log1, res);
    var runs' := runs + [run];
    forall k | 0 <= k < |runs| ensures runs'[k].stop.Completed? {
      assert runs'[k] == runs[k];
    }
  }

  /**
   * How a run over `rows` ended: the rows in `runs` were done one after the other; it stopped at the
   * first request the client rejected; it succeeded only after every row; a service error ended it in
   * the last row done, which is then the one row that did not complete.
   */
  ghost predicate RunEnded(reqs: seq<Request>, answer: nat -> Response, n0: nat, rows: seq<seq<string>>,
                           runs: seq<RowRun>, starts: seq<nat>, dirs: seq<Directory>, logs: seq<seq<AuditEvent>>,
                           dir0: Directory, log0: seq<AuditEvent>, dir: Directory, log: seq<AuditEvent>, r: Result<()>)
  {
    && StopsAtFirstFailure(reqs, answer, n0, r)
    && RunSoFar(reqs, answer, n0, rows, runs, starts, dirs, logs, dir0, log0, dir, log)
    && (r.Ok? ==> |runs| == |rows|)
    && (r.Err? && r.error.ServiceError? ==> |runs| > 0)
    && (|runs| > 0 ==> (runs[|runs| - 1].stop.Completed? <==> !(r.Err? && r.error.ServiceError?)))
  }

  lemma RunEnds(reqs: seq<Request>, answer: nat -> Response, n0: nat, rows: seq<seq<string>>,
                runs: seq<RowRun>, starts: seq<nat>, dirs: seq<Directory>, logs: seq<seq<AuditEvent>>,
                dir0: Directory, log0: seq<AuditEvent>, dir: Directory, log: seq<AuditEvent>, r: Result<()>)
    requires RunSoFar(reqs, answer, n0, rows, runs, starts, dirs, logs, dir0, log0, dir, log)
    requires StopsAtFirstFailure(reqs, answer, n0, r)
    requires r.Ok? ==> |runs| == |rows|
    requires r.Err? && r.error.ServiceError? ==> |runs| > 0 && !runs[|runs| - 1].stop.Completed?
    requires !(r.Err? && r.error.ServiceError?) ==> forall k | 0 <= k < |runs| :: runs[k].stop.Completed?
    ensures RunEnded(reqs, answer, n0, rows, runs, starts, dirs, logs, dir0, log0, dir, log, r)
  {
  }

  /** One turn of the loop of Run: the next row, done after the rows already done, and its record appended. */
  method RunStep(client: Client, rows: seq<seq<string>>, i: nat, ghost n0: nat, ghost dir0: Directory, ghost log0: seq<AuditEvent>,
                 ghost runs: seq<RowRun>, ghost starts: seq<nat>, ghost dirs: seq<Directory>, ghost logs: seq<seq<AuditEvent>>)
    returns (r: Result<()>, ghost runs': seq<RowRun>, ghost starts': seq<nat>, ghost dirs': seq<Directory>,
             ghost logs': seq<seq<AuditEvent>>)
    requires client.Valid() && i == |runs| < |rows|
    requires RunSoFar(client.service.received, client.service.answer, n0, rows, runs, starts, dirs, logs,
                      dir0, log0, client.service.groups, client.log)
    requires forall k | 0 <= k < |runs| :: runs[k].stop.Completed?
    requires AllAccepted(client.service.received, client.service.answer, n0)
    modifies client, client.service
    ensures client.Valid()
    ensures old(client.service.received) <= client.service.received
    ensures r.Err? && !r.error.ServiceError? ==>
      && ParseRow(rows[i]).Err? && r.error == UnpackError(|rows[i]|)
      && client.service.received == old(client.service.received)
      && client.service.groups == old(client.service.groups) && client.log == old(client.log)
    ensures !(r.Err? && !r.error.ServiceError?) ==>
      && RunSoFar(client.service.received, client.service.answer, n0, rows, runs', starts', dirs', logs',
                  dir0, log0, client.service.groups, client.log)
      && |runs'| == |runs| + 1
      && StopsAtFirstFailure(client.service.received, client.service.answer, n0, r)
      && (r.Ok? <==> runs'[|runs|].stop.Completed?)
      && (r.Ok? ==> forall k | 0 <= k < |runs'| :: runs'[k].stop.Completed?)
  {
    ghost var before := client.service.received;
    ghost var run;
    r, run := RunRow(client, rows[i]);
    runs', starts', dirs', logs' := runs, starts, dirs, logs;
    if r.Err? && !r.error.ServiceError? {
      return;
    }
    RunSoFarNext(before, client.service.received, client.service.answer, n0, rows, runs, starts, dirs, logs,
                 dir0, log0, old(client.service.groups), old(client.log), run, client.service.groups, client.log, r);
    runs', starts' := runs + [run], starts + [|client.service.received|];
    dirs', logs' := dirs + [client.service.groups], logs + [client.log];
  }

  /**
   * Lines 56-99: every row of the definition file, in file order. Row i's record is runs[i]; a row
   * that does not unpack, or a client call that raises, ends the run, and the store and the log stay
   * as the rows already run left them.
   */
  method Run(client: Client, file: string)
    returns (r: Result<()>, ghost runs: seq<RowRun>, ghost starts: seq<nat>, ghost dirs: seq<Directory>,
             ghost logs: seq<seq<AuditEvent>>)
    requires client.Valid()
    modifies client, client.service
    ensures client.Valid()
    ensures old(client.service.received) <= client.service.received
    ensures var rows := DefinitionRows(file);
      && RunEnded(client.service.received, client.service.answer, old(|client.service.received|), rows, runs, starts, dirs, logs,
                  old(client.service.groups), old(client.log), client.service.groups, client.log, r)
      && (r.Err? && !r.error.ServiceError? ==>
            |runs| < |rows| && ParseRow(rows[|runs|]).Err? && r.error == UnpackError(|rows[|runs|]|))
  {
    ghost var n0 := |client.service.received|;
    ghost var dir0, log0 := client.service.groups, client.log;
    var rows := DefinitionRows(file);
    runs, starts, dirs, logs := [], [n0], [dir0], [log0];
    var i := 0;
    while i < |rows|
      invariant 0 <= i <= |rows| && |runs| == i
      invariant client.Valid()
      invariant old(client.service.received) <= client.service.received
      invariant AllAccepted(client.service.received, client.service.answer, n0)
      invariant RunSoFar(client.service.received, client.service.answer, n0, rows, runs, starts, dirs, logs,
                         dir0, log0, client.service.groups, client.log)
      invariant forall k | 0 <= k < |runs| :: runs[k].stop.Completed?
    {
      var res;
      ghost var runs', starts', dirs', logs';
      res, runs', starts', dirs', logs' := RunStep(client, rows, i, n0, dir0, log0, runs, starts, dirs, logs);
      if res.Err? && !res.error.ServiceError? {
        RunEnds(client.service.received, client.service.answer, n0, rows, runs, starts, dirs, logs,
                dir0, log0, client.service.groups, client.log, res);
        return res, runs, starts, dirs, logs;
      }
      runs, starts, dirs, logs := runs', starts', dirs', logs';
      if res.Err? {
        RunEnds(client.service.received, client.service.answer, n0, rows, runs, starts, dirs, logs,
                dir0, log0, client.service.groups, client.log, res);
        return res, runs, starts, dirs, logs;
      }
      i := i + 1;
    }
    r := Ok(());
    RunEnds(client.service.received, client.service.answer, n0, rows, runs, starts, dirs, logs,
            dir0, log0, client.service.groups, client.log, r);
  }
}
