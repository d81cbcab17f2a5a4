/**
 * The request sequences of `_checkSettingsConsistency`,
 * `_checkMappingConsistency` and `ensure`, as functions of what the cluster
 * holds and of whether each request succeeds.
 *
 * Whether a request succeeds is read off a `Script`: the answers to the
 * requests in the order they are made, every request past the end of the
 * script succeeding. "Fails" covers both an error from the client and a
 * non-200 status, which the source treats alike for close, open and every
 * task (`next(err || !success)`); for exists, create and the two reads only
 * the error counts, as in the source.
 */
module Protocol {
  import opened Schema
  import opened DynamicTemplates
  import opened SettingsAudit
  import opened MappingAudit
  import opened MappingLaws

  /** The requests made of the cluster, in the order they are made. */
  datatype Request = Exists | Create | GetSettings | GetMappings | Close | Open | Send(task: Task)

  /** The error `ensure` reports. */
  datatype Error =
    | RequestFailed(request: Request)  // the client reported an error (or a close/open was refused)
    | JackedIndex                      // the read-back lacks `settings.index` or `mappings`
    | TaskFailed(task: Task)           // a mapping task failed, which stops the series

  /** Whether each request succeeds, in the order the requests are made. */
  datatype Script = Done | Answer(ok: bool, later: Script)

  /** What the script answers to the next request. */
  function NextAnswer(answers: Script): bool {
    answers.Done? || answers.ok
  }

  /** The script after one request. */
  function Later(answers: Script): Script {
    if answers.Done? then Done else answers.later
  }

  /** The script after `n` requests. */
  function Drop(answers: Script, n: nat): Script {
    if n == 0 then answers else Drop(Later(answers), n - 1)
  }

  /** A result, the requests made to reach it, and the script left over. */
  datatype Run<R> = Run(result: R, sent: seq<Request>, rest: Script)

  function Sends(tasks: seq<Task>): (r: seq<Request>)
    ensures |r| == |tasks| && forall i :: 0 <= i < |tasks| ==> r[i] == Send(tasks[i])
  {
    seq(|tasks|, i requires 0 <= i < |tasks| => Send(tasks[i]))
  }

  /** `Async.series(tasks)`: the tasks in order until the first that fails. */
  function Series(tasks: seq<Task>, answers: Script): Run<Option<Task>> {
    SeriesFrom(tasks, 0, answers)
  }

  /** The series from the `i`-th task on. */
  function SeriesFrom(tasks: seq<Task>, i: nat, answers: Script): Run<Option<Task>>
    requires i <= |tasks|
    decreases |tasks| - i
  {
    if i == |tasks| then Run(None, [], answers)
    else if !NextAnswer(answers) then Run(Some(tasks[i]), [Send(tasks[i])], Later(answers))
    else
      var r := SeriesFrom(tasks, i + 1, Later(answers));
      Run(r.result, [Send(tasks[i])] + r.sent, r.rest)
  }

  /** The outcome of one consistency check: error, consistent, number of tasks queued. */
  datatype Checked = Checked(err: Option<Error>, consistent: bool, taskCount: nat)

  /**
   * `_checkSettingsConsistency`, given the audit of what the read returns
   * (None when it lacks `settings.index`): read the settings; if the audit
   * queued analyzers, close the index, run them, and reopen it.
   */
  function SettingsRun(audit: Option<Audit>, answers: Script): Run<Checked> {
    var ok := NextAnswer(answers);
    var r := AfterSettingsRead(ok, if ok then audit else None, Later(answers));
    Run(r.result, [GetSettings] + r.sent, r.rest)
  }

  /** What follows the settings read, given whether it succeeded. */
  function AfterSettingsRead(ok: bool, audit: Option<Audit>, answers: Script): Run<Checked> {
    if !ok then Run(Checked(Some(RequestFailed(GetSettings)), false, 0), [], answers)
    else if audit.None? then Run(Checked(Some(JackedIndex), false, 0), [], answers)
    else BracketRun(audit.value, answers)
  }

  /**
   * What follows a successful settings read. A failed task does not make an
   * error, only an inconsistency, because the error handed on is the
   * reopen's.
   */
  function BracketRun(audit: Audit, answers: Script): Run<Checked> {
    var n := |audit.tasks|;
    if n == 0 then Run(Checked(None, audit.consistent, 0), [], answers)
    else if !NextAnswer(answers) then Run(Checked(Some(RequestFailed(Close)), false, n), [Close], Later(answers))
    else
      var series := Series(audit.tasks, Later(answers));
      var sent := [Close] + series.sent + [Open];
      if !NextAnswer(series.rest) then Run(Checked(Some(RequestFailed(Open)), false, n), sent, Later(series.rest))
      else Run(Checked(None, audit.consistent && series.result.None?, n), sent, Later(series.rest))
  }

  /**
   * `_checkMappingConsistency`, given the audit of what the read returns
   * (None when it lacks `mappings`): read the mappings, then run the queued
   * tasks.
   */
  function MappingRun(audit: Option<Audit>, answers: Script): Run<Checked> {
    var ok := NextAnswer(answers);
    var r := AfterMappingRead(ok, if ok then audit else None, Later(answers));
    Run(r.result, [GetMappings] + r.sent, r.rest)
  }

  /** What follows the mappings read, given whether it succeeded. */
  function AfterMappingRead(ok: bool, audit: Option<Audit>, answers: Script): Run<Checked> {
    if !ok then Run(Checked(Some(RequestFailed(GetMappings)), false, 0), [], answers)
    else if audit.None? then Run(Checked(Some(JackedIndex), false, 0), [], answers)
    else ApplyRun(audit.value, answers)
  }

  /** What follows a successful mappings read: a failed task is an error. */
  function ApplyRun(audit: Audit, answers: Script): Run<Checked> {
    var n := |audit.tasks|;
    if n == 0 then Run(Checked(None, audit.consistent, 0), [], answers)
    else
      var series := Series(audit.tasks, answers);
      if series.result.Some? then Run(Checked(Some(TaskFailed(series.result.value)), false, n), series.sent, series.rest)
      else Run(Checked(None, audit.consistent, n), series.sent, series.rest)
  }

  /** What the cluster holds when `ensure` starts; None stands for a read-back lacking the expected object. */
  datatype ClusterState = ClusterState(
    present: bool,
    settings: Option<LiveSettings>,
    mappings: Option<seq<(string, TypeMapping)>>)

  /** Whether the index exists, and the audits of what the two reads return. */
  datatype Audits = Audits(present: bool, settings: Option<Audit>, mappings: Option<Audit>)

  function SettingsAuditOf(schema: IndexSchema, live: Option<LiveSettings>): Option<Audit> {
    if live.None? then None else Some(AuditOfSettings(schema.analyzers, live.value))
  }

  function MappingAuditOf(lib: PatternLib, schema: IndexSchema, live: Option<seq<(string, TypeMapping)>>): Option<Audit> {
    if live.None? then None else Some(AuditOfMappings(lib, schema.mappings, live.value))
  }

  function AuditsOf(lib: PatternLib, schema: IndexSchema, state: ClusterState): Audits {
    Audits(state.present, SettingsAuditOf(schema, state.settings), MappingAuditOf(lib, schema, state.mappings))
  }

  /** The arguments `ensure` passes to its callback. */
  datatype Ensured = Ensured(err: Option<Error>, consistent: bool, created: bool, settingsConsistent: bool, mappingsConsistent: bool)

  /**
   * `ensure`: the waterfall exists → create or check settings → check
   * mappings. The final callback receives the error and the `exists` value
   * of the step that stopped the waterfall, so an exists error reports
   * `created` true.
   */
  function EnsureRun(audits: Audits, answers: Script): Run<Ensured> {
    if !NextAnswer(answers) then Run(Ensured(Some(RequestFailed(Exists)), false, true, false, false), [Exists], Later(answers))
    else
      var r := if audits.present then CheckRun(audits, Later(answers)) else CreateRun(Later(answers));
      Run(r.result, [Exists] + r.sent, r.rest)
  }

  /** The index was missing: create it from the schema. */
  function CreateRun(answers: Script): Run<Ensured> {
    if !NextAnswer(answers) then Run(Ensured(Some(RequestFailed(Create)), false, true, false, false), [Create], Later(answers))
    else Run(Ensured(None, true, true, true, true), [Create], Later(answers))
  }

  /** The index exists: check its settings, then, unless that failed, its mappings. */
  function CheckRun(audits: Audits, answers: Script): Run<Ensured> {
    AfterSettings(audits.mappings, SettingsRun(audits.settings, answers))
  }

  function AfterSettings(mappings: Option<Audit>, s: Run<Checked>): Run<Ensured> {
    if s.result.err.Some? then
      Run(Ensured(s.result.err, false, false, s.result.consistent, false), s.sent, s.rest)
    else Join(s, MappingRun(mappings, s.rest))
  }

  /** Both checks ran: the verdict is the conjunction of theirs, the error the mapping check's. */
  function Join(s: Run<Checked>, m: Run<Checked>): Run<Ensured> {
    Run(Ensured(m.result.err, s.result.consistent && m.result.consistent, false, s.result.consistent, m.result.consistent),
        s.sent + m.sent, m.rest)
  }

  /** The check of an existing index, spelled out on what the cluster holds. */
  lemma CheckRunOf(lib: PatternLib, schema: IndexSchema, state: ClusterState, answers: Script)
    ensures CheckRun(AuditsOf(lib, schema, state), answers) ==
            AfterSettings(MappingAuditOf(lib, schema, state.mappings), SettingsRun(SettingsAuditOf(schema, state.settings), answers))
  {
  }

  // ---------------------------------------------------------------------
  // The series.

  /** The first `n` requests succeed. */
  predicate AllSucceed(answers: Script, n: nat) {
    n == 0 || (NextAnswer(answers) && AllSucceed(Later(answers), n - 1))
  }

  /** When every task succeeds, all are sent in order and none is reported failed. */
  lemma {:induction false} SeriesFromAllSucceed(tasks: seq<Task>, i: nat, answers: Script)
    requires i <= |tasks| && AllSucceed(answers, |tasks| - i)
    ensures SeriesFrom(tasks, i, answers) == Run(None, Sends(tasks[i..]), Drop(answers, |tasks| - i))
    decreases |tasks| - i
  {
    if i < |tasks| {
      SeriesFromAllSucceed(tasks, i + 1, Later(answers));
      assert Sends(tasks[i..]) == [Send(tasks[i])] + Sends(tasks[i + 1..]);
    }
  }

  lemma SeriesAllSucceed(tasks: seq<Task>, answers: Script)
    requires AllSucceed(answers, |tasks|)
    ensures Series(tasks, answers) == Run(None, Sends(tasks), Drop(answers, |tasks|))
  {
    SeriesFromAllSucceed(tasks, 0, answers);
    assert tasks[0..] == tasks;
  }

  lemma {:induction false} SeriesFromSendsPrefix(tasks: seq<Task>, i: nat, answers: Script)
    requires i <= |tasks|
    ensures var r := SeriesFrom(tasks, i, answers);
            && i + |r.sent| <= |tasks|
            && (forall j :: 0 <= j < |r.sent| ==> r.sent[j] == Send(tasks[i + j]))
            && (r.result.None? ==> i + |r.sent| == |tasks|)
            && (i + |r.sent| < |tasks| ==> r.result.Some?)
            && (r.result.Some? ==> |r.sent| > 0 && r.result.value == tasks[i + |r.sent| - 1])
    decreases |tasks| - i
  {
    if i < |tasks| && NextAnswer(answers) {
      SeriesFromSendsPrefix(tasks, i + 1, Later(answers));
      var r := SeriesFrom(tasks, i + 1, Later(answers));
      var sent := [Send(tasks[i])] + r.sent;
      assert SeriesFrom(tasks, i, answers).sent == sent;
      forall j | 0 <= j < |sent|
        ensures sent[j] == Send(tasks[i + j])
      {
        if j > 0 {
          assert sent[j] == r.sent[j - 1];
        }
      }
    }
  }

  /**
   * The series sends a prefix of the tasks, one request each; it reports
   * the last task sent as failed, or none when it sent them all.
   */
  lemma SeriesSendsPrefix(tasks: seq<Task>, answers: Script)
    ensures var r := Series(tasks, answers);
            && |r.sent| <= |tasks|
            && r.sent == Sends(tasks[..|r.sent|])
            && (r.result.None? ==> |r.sent| == |tasks|)
            && (|r.sent| < |tasks| ==> r.result.Some?)
            && (r.result.Some? ==> r.result.value == tasks[|r.sent| - 1])
  {
    SeriesFromSendsPrefix(tasks, 0, answers);
    var r := Series(tasks, answers);
    assert r.sent == Sends(tasks[..|r.sent|]);
  }

  /** Only the queued tasks are ever sent. */
  lemma SeriesSendsOnlyTasks(tasks: seq<Task>, answers: Script, t: Task)
    requires Send(t) in Series(tasks, answers).sent
    ensures t in tasks
  {
    SeriesSendsPrefix(tasks, answers);
    var r := Series(tasks, answers);
    var i :| 0 <= i < |r.sent| && r.sent[i] == Send(t);
    assert t == tasks[..|r.sent|][i];
  }

  /** From position `i`, with the tasks before `k` succeeding and task `k` failing, the series stops at task `k`. */
  lemma {:induction false} SeriesFromStopsAt(tasks: seq<Task>, i: nat, k: nat, answers: Script)
    requires i <= k < |tasks|
    requires AllSucceed(answers, k - i) && !NextAnswer(Drop(answers, k - i))
    ensures SeriesFrom(tasks, i, answers) == Run(Some(tasks[k]), Sends(tasks[i..k + 1]), Drop(answers, k - i + 1))
    decreases k - i
  {
    if i < k {
      SeriesFromStopsAt(tasks, i + 1, k, Later(answers));
      assert Sends(tasks[i..k + 1]) == [Send(tasks[i])] + Sends(tasks[i + 1..k + 1]);
    } else {
      assert Sends(tasks[i..k + 1]) == [Send(tasks[k])];
    }
  }

  /**
   * `Async.series` stops at the first failure: when the first `k` tasks
   * succeed and task `k` fails, exactly the tasks up to `k` are sent and
   * task `k` is the one reported.
   */
  lemma SeriesStopsAtFirstFailure(tasks: seq<Task>, answers: Script, k: nat)
    requires k < |tasks| && AllSucceed(answers, k) && !NextAnswer(Drop(answers, k))
    ensures Series(tasks, answers) == Run(Some(tasks[k]), Sends(tasks[..k + 1]), Drop(answers, k + 1))
  {
    SeriesFromStopsAt(tasks, 0, k, answers);
    assert tasks[0..k + 1] == tasks[..k + 1];
  }

  // ---------------------------------------------------------------------
  // The settings bracket.

  /** Any error from the settings check comes with an inconsistent verdict. */
  lemma SettingsErrorInconsistent(audit: Option<Audit>, answers: Script)
    ensures SettingsRun(audit, answers).result.err.Some? ==> !SettingsRun(audit, answers).result.consistent
  {
  }

  /**
   * Analyzers are only sent while the index is closed: after the read come
   * no requests when nothing is queued, a refused close alone, or the close,
   * a prefix of the analyzer tasks and the reopen.
   */
  lemma SettingsBracket(audit: Audit, answers: Script)
    ensures var r := BracketRun(audit, answers);
            || (r.sent == [] && audit.tasks == [])
            || (r.sent == [Close] && r.result.err == Some(RequestFailed(Close)))
            || (exists k :: 0 < k <= |audit.tasks| && r.sent == [Close] + Sends(audit.tasks[..k]) + [Open])
  {
    if |audit.tasks| > 0 && NextAnswer(answers) {
      SeriesSendsPrefix(audit.tasks, Later(answers));
      var series := Series(audit.tasks, Later(answers));
      assert 0 < |series.sent|;
      assert BracketRun(audit, answers).sent == [Close] + Sends(audit.tasks[..|series.sent|]) + [Open];
    }
  }

  /**
   * A failed analyzer task followed by a successful reopen is not an
   * error: whichever task `k` fails, the series stops there, the index is
   * reopened, and the check reports no error and an inconsistent verdict.
   */
  lemma SettingsTaskFailureNotAnError(audit: Audit, answers: Script, k: nat)
    requires k < |audit.tasks|
    requires NextAnswer(answers) && NextAnswer(Later(answers))
    requires AllSucceed(Later(Later(answers)), k) && !NextAnswer(Drop(Later(Later(answers)), k))
    requires NextAnswer(Drop(Later(Later(answers)), k + 1))
    ensures SettingsRun(Some(audit), answers).result == Checked(None, false, |audit.tasks|)
    ensures SettingsRun(Some(audit), answers).sent == [GetSettings, Close] + Sends(audit.tasks[..k + 1]) + [Open]
  {
    SeriesStopsAtFirstFailure(audit.tasks, Later(Later(answers)), k);
  }

  // ---------------------------------------------------------------------
  // The mapping check.

  /** Any error from the mapping check comes with an inconsistent verdict; a failed task is one the audit queued. */
  lemma MappingErrorInconsistent(audit: Option<Audit>, answers: Script)
    ensures var r := MappingRun(audit, answers);
            && (r.result.err.Some? ==> !r.result.consistent)
            && (r.result.err.Some? && r.result.err.value.TaskFailed? ==>
                  audit.Some? && r.result.err.value.task in audit.value.tasks)
  {
    if NextAnswer(answers) && audit.Some? && |audit.value.tasks| > 0 {
      SeriesSendsPrefix(audit.value.tasks, Later(answers));
    }
  }

  /** A failed mapping task stops the series: the tasks after it are not sent, and it is the error reported. */
  lemma MappingTaskFailureStops(audit: Audit, answers: Script, k: nat)
    requires k < |audit.tasks| && AllSucceed(answers, k) && !NextAnswer(Drop(answers, k))
    ensures ApplyRun(audit, answers) ==
            Run(Checked(Some(TaskFailed(audit.tasks[k])), false, |audit.tasks|), Sends(audit.tasks[..k + 1]), Drop(answers, k + 1))
  {
    SeriesStopsAtFirstFailure(audit.tasks, answers, k);
  }

  // ---------------------------------------------------------------------
  // `ensure`.

  /**
   * `consistent` is true exactly when there is no error and both checks
   * are consistent; in particular any error means inconsistent.
   */
  lemma EnsureConsistentIff(audits: Audits, answers: Script)
    ensures var r := EnsureRun(audits, answers).result;
            r.consistent <==> r.err.None? && r.settingsConsistent && r.mappingsConsistent
  {
    if NextAnswer(answers) && audits.present {
      var s := SettingsRun(audits.settings, Later(answers));
      SettingsErrorInconsistent(audits.settings, Later(answers));
      MappingErrorInconsistent(audits.mappings, s.rest);
    }
  }

  /** A missing index is created from the schema and reported consistent and created, with no other request. */
  lemma EnsureCreatesMissingIndex(audits: Audits, answers: Script)
    requires !audits.present && AllSucceed(answers, 2)
    ensures EnsureRun(audits, answers).result == Ensured(None, true, true, true, true)
    ensures EnsureRun(audits, answers).sent == [Exists, Create]
  {
    assert NextAnswer(answers) && AllSucceed(Later(answers), 1);
  }

  /** A failed existence check reports the index as created: the waterfall hands on `exists` as false. */
  lemma EnsureExistsErrorReportsCreated(audits: Audits, answers: Script)
    requires !NextAnswer(answers)
    ensures EnsureRun(audits, answers).result == Ensured(Some(RequestFailed(Exists)), false, true, false, false)
    ensures EnsureRun(audits, answers).sent == [Exists]
  {
  }

  /** An index whose audits find nothing to do: only the three reads are made, and all is consistent. */
  lemma EnsureOnMatchingIndex(audits: Audits, answers: Script)
    requires audits == Audits(true, Some(Audit(true, [])), Some(Audit(true, [])))
    requires AllSucceed(answers, 3)
    ensures var r := EnsureRun(audits, answers);
            r.result == Ensured(None, true, false, true, true) && r.sent == [Exists, GetSettings, GetMappings]
  {
    assert NextAnswer(answers) && AllSucceed(Later(answers), 2);
    assert NextAnswer(Later(answers)) && AllSucceed(Later(Later(answers)), 1);
  }

  /** The settings an index created from the schema reports. */
  function CreatedSettings(schema: IndexSchema): LiveSettings {
    if schema.analyzers.Some? then LiveSettings(Some(LiveAnalysis(Some(schema.analyzers.value)))) else LiveSettings(None)
  }

  /**
   * `ensure` is idempotent: on an index holding exactly what the schema
   * declares, it makes only the three reads and reports everything
   * consistent, nothing created.
   */
  lemma EnsureIdempotent(lib: PatternLib, schema: IndexSchema, answers: Script)
    requires DistinctTemplateNames(schema.mappings)
    requires AllSucceed(answers, 3)
    ensures var r := EnsureRun(AuditsOf(lib, schema, ClusterState(true, Some(CreatedSettings(schema)), Some(schema.mappings))), answers);
            r.result == Ensured(None, true, false, true, true) && r.sent == [Exists, GetSettings, GetMappings]
  {
    if schema.analyzers.Some? {
      SettingsAuditSelf(schema.analyzers.value);
    } else {
      NoDeclaredAnalyzers(CreatedSettings(schema));
    }
    AuditSelf(lib, schema.mappings);
    EnsureOnMatchingIndex(AuditsOf(lib, schema, ClusterState(true, Some(CreatedSettings(schema)), Some(schema.mappings))), answers);
  }

  // ---------------------------------------------------------------------
  // A cluster that accepts every request.

  /** Every request of the script succeeds. */
  predicate AllTrue(answers: Script) {
    answers.Done? || (answers.ok && AllTrue(answers.later))
  }

  /** The requests of a settings update: none, or the tasks between a close and a reopen. */
  function Bracketed(tasks: seq<Task>): seq<Request> {
    if tasks == [] then [] else [Close] + Sends(tasks) + [Open]
  }

  lemma {:induction false} AllTrueDrop(answers: Script, n: nat)
    requires AllTrue(answers)
    ensures AllSucceed(answers, n) && AllTrue(Drop(answers, n))
  {
    if n > 0 {
      AllTrueDrop(Later(answers), n - 1);
    }
  }

  lemma AllTrueSeries(tasks: seq<Task>, answers: Script)
    requires AllTrue(answers)
    ensures Series(tasks, answers) == Run(None, Sends(tasks), Drop(answers, |tasks|))
    ensures AllTrue(Drop(answers, |tasks|))
  {
    AllTrueDrop(answers, |tasks|);
    SeriesAllSucceed(tasks, answers);
  }

  lemma AllTrueLater(answers: Script)
    requires AllTrue(answers)
    ensures NextAnswer(answers) && AllTrue(Later(answers))
  {
  }

  /** With every request succeeding, the settings check reports the audit's verdict and sends all its tasks. */
  lemma SettingsAllSucceed(audit: Audit, answers: Script)
    requires AllTrue(answers)
    ensures var r := SettingsRun(Some(audit), answers);
            && r.result == Checked(None, audit.consistent, |audit.tasks|)
            && r.sent == [GetSettings] + Bracketed(audit.tasks) && AllTrue(r.rest)
  {
    AllTrueLater(answers);
    var a := Later(answers);
    if audit.tasks != [] {
      AllTrueLater(a);
      AllTrueSeries(audit.tasks, Later(a));
      AllTrueLater(Drop(Later(a), |audit.tasks|));
    }
  }

  /** With every request succeeding, the mapping check reports the audit's verdict and sends all its tasks. */
  lemma MappingAllSucceed(audit: Audit, answers: Script)
    requires AllTrue(answers)
    ensures var r := MappingRun(Some(audit), answers);
            && r.result == Checked(None, audit.consistent, |audit.tasks|)
            && r.sent == [GetMappings] + Sends(audit.tasks) && AllTrue(r.rest)
  {
    AllTrueLater(answers);
    AllTrueSeries(audit.tasks, Later(answers));
  }

  /**
   * When the cluster accepts every request, `ensure` on an existing index
   * reports no error, the two audits' verdicts, and sends every queued
   * analyzer (inside a close and a reopen) and then every mapping task.
   */
  lemma EnsureAllSucceed(settings: Audit, mappings: Audit, answers: Script)
    requires AllTrue(answers)
    ensures var r := EnsureRun(Audits(true, Some(settings), Some(mappings)), answers);
            && r.result == Ensured(None, settings.consistent && mappings.consistent, false, settings.consistent, mappings.consistent)
            && r.sent == [Exists, GetSettings] + Bracketed(settings.tasks) + [GetMappings] + Sends(mappings.tasks)
  {
    AllTrueLater(answers);
    SettingsAllSucceed(settings, Later(answers));
    var s := SettingsRun(Some(settings), Later(answers));
    MappingAllSucceed(mappings, s.rest);
    var b := Bracketed(settings.tasks);
    var t := Sends(mappings.tasks);
    assert [Exists] + (([GetSettings] + b) + ([GetMappings] + t)) == [Exists, GetSettings] + b + [GetMappings] + t;
  }

  // ---------------------------------------------------------------------
  // What is sent.

  lemma BracketSendsOnlyTasks(audit: Audit, answers: Script, t: Task)
    requires Send(t) in BracketRun(audit, answers).sent
    ensures t in audit.tasks
  {
    var series := Series(audit.tasks, Later(answers));
    assert BracketRun(audit, answers).sent == [Close] + series.sent + [Open];
    SeriesSendsOnlyTasks(audit.tasks, Later(answers), t);
  }

  /** Every analyzer or mapping task `ensure` sends is one the audits queued. */
  lemma EnsureSendsOnlyAuditTasks(audits: Audits, answers: Script, t: Task)
    requires Send(t) in EnsureRun(audits, answers).sent
    ensures audits.present
    ensures (audits.settings.Some? && t in audits.settings.value.tasks) ||
            (audits.mappings.Some? && t in audits.mappings.value.tasks)
  {
    var rest := Later(answers);
    assert audits.present;
    var s := SettingsRun(audits.settings, rest);
    if Send(t) in s.sent {
      assert s.sent == [GetSettings] + BracketRun(audits.settings.value, Later(rest)).sent;
      BracketSendsOnlyTasks(audits.settings.value, Later(rest), t);
    } else {
      var m := MappingRun(audits.mappings, s.rest);
      assert Send(t) in m.sent;
      assert m.sent == [GetMappings] + ApplyRun(audits.mappings.value, Later(s.rest)).sent;
      SeriesSendsOnlyTasks(audits.mappings.value.tasks, Later(s.rest), t);
    }
  }
}
