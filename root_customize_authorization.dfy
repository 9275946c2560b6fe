/**
 * The reconciler of the root customize_authorization.py. It differs from the custom_auth one only
 * in how a row is unpacked: by indexing, so a short row raises IndexError. The rest of a row's work
 * is CustomizeAuthorization.ReconcileDefinition.
 */
module RootCustomizeAuthorization {
  import opened Outcomes
  import opened IdentityService
  import opened RestApiHelper
  import opened CustomizeAuthorization

  /** Lines 41-43: `row[0]`, `row[1]` and `row[2:]`; the first index past the end raises IndexError. */
  function ParseRowIndexed(row: seq<string>): (r: Result<Definition>)
    ensures r.Ok? <==> |row| >= 2
    ensures r.Ok? ==> [r.value.name, r.value.id] + r.value.inputs == row
    ensures r.Err? ==> r.error == IndexError(|row|)
  {
    if |row| == 0 then Err(IndexError(0))
    else if |row| == 1 then Err(IndexError(1))
    else
      assert [row[0], row[1]] + row[2..] == row;
      Ok(Definition(row[0], row[1], row[2..]))
  }

  /** Both ways of unpacking accept the same rows with the same result, and reject the same rows. */
  lemma ParseVariantsAgree(row: seq<string>)
    ensures ParseRowIndexed(row).Ok? <==> ParseRow(row).Ok?
    ensures ParseRowIndexed(row).Ok? ==> ParseRowIndexed(row).value == ParseRow(row).value
    ensures ParseRowIndexed(row).Err? ==> ParseRowIndexed(row).error == IndexError(|row|) && ParseRow(row).error == UnpackError(|row|)
  {
    if |row| >= 2 {
      var a := ParseRowIndexed(row).value;
      var b := ParseRow(row).value;
      assert [a.name, a.id] + a.inputs == [b.name, b.id] + b.inputs;
      assert a.name == row[0] == b.name && a.id == row[1] == b.id;
      assert a.inputs == row[2..] == b.inputs;
    }
  }

  /** A row that unpacks by indexing unpacks by slicing to the same definition. */
  lemma IndexedRowUnpacks(row: seq<string>)
    requires ParseRowIndexed(row).Ok?
    ensures ParseRow(row) == ParseRowIndexed(row)
  {
    ParseVariantsAgree(row);
  }

  /**
   * Lines 41-74, one row: unpack it by indexing, then reconcile it. A short row raises before any
   * request and changes nothing.
   */
  method RunRootRow(client: Client, row: seq<string>) returns (r: Result<()>, ghost run: RowRun)
    requires client.Valid()
    modifies client, client.service
    ensures client.Valid()
    ensures old(client.service.received) <= client.service.received
    ensures StopsAtFirstFailure(client.service.received, client.service.answer, old(|client.service.received|), r)
    ensures ParseRowIndexed(row).Err? ==>
      && r == Err(IndexError(|row|))
      && client.service.received == old(client.service.received)
      && client.service.groups == old(client.service.groups) && client.log == old(client.log)
    ensures ParseRowIndexed(row).Ok? ==>
      && (r.Err? ==> r.error.ServiceError?)
      && (r.Ok? <==> run.stop.Completed?)
      && RowEffect(client.service.received, client.service.answer, old(|client.service.received|),
                   ParseRowIndexed(row).value, run, old(client.service.groups), client.service.groups,
                   old(client.log), client.log)
  {
    var parsed := ParseRowIndexed(row);
    if parsed.Err? {
      run := RowRun(false, 0, [], [], AtFetch);
      return Err(parsed.error), run;
    }
    r, run := ReconcileDefinition(client, parsed.value);
  }

  /** One turn of the loop of RunRoot: the next row, done after the rows already done, and its record appended. */
  method RunRootStep(client: Client, rows: seq<seq<string>>, i: nat, ghost n0: nat, ghost dir0: Directory,
                     ghost log0: seq<AuditEvent>, ghost runs: seq<RowRun>, ghost starts: seq<nat>,
                     ghost dirs: seq<Directory>, ghost logs: seq<seq<AuditEvent>>)
    returns (r: Result<()>, ghost runs': seq<RowRun>, ghost starts': seq<nat>, ghost dirs': seq<Directory>,
             ghost logs': seq<seq<AuditEvent>>)
    requires client.Valid() && i == |runs| < |rows|
    requires RunSoFar(client.service.received, client.service.answer, n0, rows, runs, starts, dirs, logs,
                      dir0, log0, client.service.groups, client.log)
    requires forall k | 0 <= k < |runs| :: runs[k].stop.Completed?
    requires AllAccepted(client.service.received, client.service.answer, n0)
    modifies client, client.service
    ensures client.Valid()
    ensures old(client.service.received) <= client.service.received
    ensures r.Err? && !r.error.ServiceError? ==>
      && ParseRowIndexed(rows[i]).Err? && r.error == IndexError(|rows[i]|)
      && client.service.received == old(client.service.received)
      && client.service.groups == old(client.service.groups) && client.log == old(client.log)
    ensures !(r.Err? && !r.error.ServiceError?) ==>
      && RunSoFar(client.service.received, client.service.answer, n0, rows, runs', starts', dirs', logs',
                  dir0, log0, client.service.groups, client.log)
      && |runs'| == |runs| + 1
      && StopsAtFirstFailure(client.service.received, client.service.answer, n0, r)
      && (r.Ok? <==> runs'[|runs|].stop.Completed?)
      && (r.Ok? ==> forall k | 0 <= k < |runs'| :: runs'[k].stop.Completed?)
  {
    ghost var before := client.service.received;
    ghost var run;
    r, run := RunRootRow(client, rows[i]);
    runs', starts', dirs', logs' := runs, starts, dirs, logs;
    if r.Err? && !r.error.ServiceError? {
      return;
    }
    IndexedRowUnpacks(rows[i]);
    RunSoFarNext(before, client.service.received, client.service.answer, n0, rows, runs, starts, dirs, logs,
                 dir0, log0, old(client.service.groups), old(client.log), run, client.service.groups, client.log, r);
    runs', starts' := runs + [run], starts + [|client.service.received|];
    dirs', logs' := dirs + [client.service.groups], logs + [client.log];
  }

  /**
   * Lines 30-74: every row of the definition file, in file order, stopping at the first error; row
   * i's record is runs[i], and the store and the log stay as the rows already run left them. The
   * rows done are stated with ParseRow, which ParseVariantsAgree shows to agree with the indexing.
   */
  method RunRoot(client: Client, file: string)
    returns (r: Result<()>, ghost runs: seq<RowRun>, ghost starts: seq<nat>, ghost dirs: seq<Directory>,
             ghost logs: seq<seq<AuditEvent>>)
    requires client.Valid()
    modifies client, client.service
    ensures client.Valid()
    ensures old(client.service.received) <= client.service.received
    ensures var rows := DefinitionRows(file);
      && RunEnded(client.service.received, client.service.answer, old(|client.service.received|), rows, runs, starts, dirs, logs,
                  old(client.service.groups), old(client.log), client.service.groups, client.log, r)
      && (r.Err? && !r.error.ServiceError? ==>
            |runs| < |rows| && ParseRowIndexed(rows[|runs|]).Err? && r.error == IndexError(|rows[|runs|]|))
  {
    ghost var n0 := |client.service.received|;
    ghost var dir0, log0 := client.service.groups, client.log;
    var rows := DefinitionRows(file);
    runs, starts, dirs, logs := [], [n0], [dir0], [log0];
    var i := 0;
    while i < |rows|
      invariant 0 <= i <= |rows| && |runs| == i
      invariant client.Valid()
      invariant old(client.service.received) <= client.service.received
      invariant AllAccepted(client.service.received, client.service.answer, n0)
      invariant RunSoFar(client.service.received, client.service.answer, n0, rows, runs, starts, dirs, logs,
                         dir0, log0, client.service.groups, client.log)
      invariant forall k | 0 <= k < |runs| :: runs[k].stop.Completed?
    {
      var res;
      ghost var runs', starts', dirs', logs';
      res, runs', starts', dirs', logs' := RunRootStep(client, rows, i, n0, dir0, log0, runs, starts, dirs, logs);
      if res.Err? && !res.error.ServiceError? {
        RunEnds(client.service.received, client.service.answer, n0, rows, runs, starts, dirs, logs,
                dir0, log0, client.service.groups, client.log, res);
        return res, runs, starts, dirs, logs;
      }
      runs, starts, dirs, logs := runs', starts', dirs', logs';
      if res.Err? {
        RunEnds(client.service.received, client.service.answer, n0, rows, runs, starts, dirs, logs,
                dir0, log0, client.service.groups, client.log, res);
        return res, runs, starts, dirs, logs;
      }
      i := i + 1;
    }
    r := Ok(());
    RunEnds(client.service.received, client.service.answer, n0, rows, runs, starts, dirs, logs,
            dir0, log0, client.service.groups, client.log, r);
  }
}
