/**
 * `ElasticService` as an object: it holds the declared schema and a client
 * for one index, and its checks talk to that client one request at a time.
 * Each method is proved to make exactly the requests, and to hand on
 * exactly the result, that the protocol functions describe.
 */
module Service {
  import opened Schema
  import opened DynamicTemplates
  import opened SettingsAudit
  import opened MappingAudit
  import opened Protocol

  /**
   * The Elasticsearch client of one index. What the index holds does not
   * change while `ensure` runs; whether each request succeeds is read off
   * `answers`, and every request made is appended to `log`.
   */
  class Cluster {
    const present: bool
    const settings: Option<LiveSettings>
    const mappings: Option<seq<(string, TypeMapping)>>
    var answers: Script
    var log: seq<Request>

    constructor (state: ClusterState, answers: Script)
      ensures State() == state && this.answers == answers && log == []
    {
      present := state.present;
      settings := state.settings;
      mappings := state.mappings;
      this.answers := answers;
      log := [];
    }

    function State(): ClusterState {
      ClusterState(present, settings, mappings)
    }

    /** Make one request; `ok` says whether it succeeded. */
    method Call(r: Request) returns (ok: bool)
      modifies this
      ensures ok == NextAnswer(old(answers))
      ensures answers == Later(old(answers))
      ensures log == old(log) + [r]
    {
      ok := NextAnswer(answers);
      answers := Later(answers);
      log := log + [r];
    }
  }

  /**
   * A method followed `run`: it returned `run.result`, made exactly the
   * requests `run.sent` after those already in `log0`, and left the script
   * at `run.rest`.
   */
  predicate Followed<R(==)>(run: Run<R>, result: R, log0: seq<Request>, log: seq<Request>, answers: Script) {
    result == run.result && log == log0 + run.sent && answers == run.rest
  }

  class ElasticService {
    const lib: PatternLib
    const schema: IndexSchema
    const cluster: Cluster

    constructor (lib: PatternLib, schema: IndexSchema, cluster: Cluster)
      ensures this.lib == lib && this.schema == schema && this.cluster == cluster
    {
      this.lib := lib;
      this.schema := schema;
      this.cluster := cluster;
    }

    /** `Async.series`: send the tasks in order, stopping at the first that fails. */
    method RunSeries(tasks: seq<Task>) returns (failed: Option<Task>)
      modifies cluster
      ensures Followed(Series(tasks, old(cluster.answers)), failed, old(cluster.log), cluster.log, cluster.answers)
    {
      failed := None;
      ghost var sent: seq<Request> := [];
      var i := 0;
      while i < |tasks| && failed.None?
        invariant 0 <= i <= |tasks|
        invariant cluster.log == old(cluster.log) + sent
        invariant failed.None? ==>
                    var rest := SeriesFrom(tasks, i, cluster.answers);
                    Series(tasks, old(cluster.answers)) == Run(rest.result, sent + rest.sent, rest.rest)
        invariant failed.Some? ==> Series(tasks, old(cluster.answers)) == Run(failed, sent, cluster.answers)
      {
        var ok := cluster.Call(Send(tasks[i]));
        if !ok {
          failed := Some(tasks[i]);
        } else {
          ghost var rest := SeriesFrom(tasks, i + 1, cluster.answers);
          assert sent + ([Send(tasks[i])] + rest.sent) == (sent + [Send(tasks[i])]) + rest.sent;
        }
        sent := sent + [Send(tasks[i])];
        i := i + 1;
      }
    }

    /** `_checkSettingsConsistency`. */
    method CheckSettingsConsistency() returns (result: Checked)
      modifies cluster
      ensures Followed(SettingsRun(SettingsAuditOf(schema, cluster.settings), old(cluster.answers)),
                       result, old(cluster.log), cluster.log, cluster.answers)
    {
      var ok, audit := ReadSettings();
      ghost var afterRead := cluster.log;
      ghost var rest := AfterSettingsRead(ok, audit, cluster.answers);
      result := FinishSettingsCheck(ok, audit);
      assert cluster.log == old(cluster.log) + ([GetSettings] + rest.sent);
    }

    /** Read the settings and, when the read succeeds, audit the analyzers they hold. */
    method ReadSettings() returns (ok: bool, audit: Option<Audit>)
      modifies cluster
      ensures ok == NextAnswer(old(cluster.answers)) && cluster.answers == Later(old(cluster.answers))
      ensures cluster.log == old(cluster.log) + [GetSettings]
      ensures audit == if ok then SettingsAuditOf(schema, cluster.settings) else None
    {
      ok := cluster.Call(GetSettings);
      audit := None;
      if ok && cluster.settings.Some? {
        var a := AuditSettings(schema.analyzers, cluster.settings.value);
        audit := Some(a);
      }
    }

    /** The rest of the settings check, once the read is done. */
    method FinishSettingsCheck(ok: bool, audit: Option<Audit>) returns (result: Checked)
      modifies cluster
      ensures Followed(AfterSettingsRead(ok, audit, old(cluster.answers)), result, old(cluster.log), cluster.log, cluster.answers)
    {
      if !ok {
        result := Checked(Some(RequestFailed(GetSettings)), false, 0);
      } else if audit.None? {
        result := Checked(Some(JackedIndex), false, 0);
      } else {
        result := UpdateSettings(audit.value);
      }
    }

    /** Add the analyzers the audit queued, with the index closed meanwhile. */
    method UpdateSettings(audit: Audit) returns (result: Checked)
      modifies cluster
      ensures Followed(BracketRun(audit, old(cluster.answers)), result, old(cluster.log), cluster.log, cluster.answers)
    {
      var n := |audit.tasks|;
      if n == 0 {
        return Checked(None, audit.consistent, 0);
      }
      var ok := cluster.Call(Close);
      if !ok {
        return Checked(Some(RequestFailed(Close)), false, n);
      }
      ghost var afterClose := cluster.log;
      ghost var series := Series(audit.tasks, cluster.answers);
      var failed := RunSeries(audit.tasks);
      ok := cluster.Call(Open);
      assert cluster.log == afterClose + series.sent + [Open];
      assert cluster.log == old(cluster.log) + ([Close] + series.sent + [Open]);
      if !ok {
        return Checked(Some(RequestFailed(Open)), false, n);
      }
      return Checked(None, audit.consistent && failed.None?, n);
    }

    /** `_checkMappingConsistency`. */
    method CheckMappingConsistency() returns (result: Checked)
      modifies cluster
      ensures Followed(MappingRun(MappingAuditOf(lib, schema, cluster.mappings), old(cluster.answers)),
                       result, old(cluster.log), cluster.log, cluster.answers)
    {
      var ok, audit := ReadMappings();
      ghost var rest := AfterMappingRead(ok, audit, cluster.answers);
      result := FinishMappingCheck(ok, audit);
      assert cluster.log == old(cluster.log) + ([GetMappings] + rest.sent);
    }

    /** Read the mappings and, when the read succeeds, audit them against the schema. */
    method ReadMappings() returns (ok: bool, audit: Option<Audit>)
      modifies cluster
      ensures ok == NextAnswer(old(cluster.answers)) && cluster.answers == Later(old(cluster.answers))
      ensures cluster.log == old(cluster.log) + [GetMappings]
      ensures audit == if ok then MappingAuditOf(lib, schema, cluster.mappings) else None
    {
      ok := cluster.Call(GetMappings);
      audit := None;
      if ok && cluster.mappings.Some? {
        var a := AuditMappings(lib, schema.mappings, cluster.mappings.value);
        audit := Some(a);
      }
    }

    /** The rest of the mapping check, once the read is done. */
    method FinishMappingCheck(ok: bool, audit: Option<Audit>) returns (result: Checked)
      modifies cluster
      ensures Followed(AfterMappingRead(ok, audit, old(cluster.answers)), result, old(cluster.log), cluster.log, cluster.answers)
    {
      if !ok {
        result := Checked(Some(RequestFailed(GetMappings)), false, 0);
      } else if audit.None? {
        result := Checked(Some(JackedIndex), false, 0);
      } else {
        result := UpdateMappings(audit.value);
      }
    }

    /** Run the mapping tasks the audit queued. */
    method UpdateMappings(audit: Audit) returns (result: Checked)
      modifies cluster
      ensures Followed(ApplyRun(audit, old(cluster.answers)), result, old(cluster.log), cluster.log, cluster.answers)
    {
      var n := |audit.tasks|;
      if n == 0 {
        return Checked(None, audit.consistent, 0);
      }
      var failed := RunSeries(audit.tasks);
      if failed.Some? {
        return Checked(Some(TaskFailed(failed.value)), false, n);
      }
      return Checked(None, audit.consistent, n);
    }

    /** `ensure`: create the index, or check its settings and then its mappings. */
    method Ensure() returns (result: Ensured)
      modifies cluster
      ensures Followed(EnsureRun(AuditsOf(lib, schema, cluster.State()), old(cluster.answers)),
                       result, old(cluster.log), cluster.log, cluster.answers)
    {
      var ok := cluster.Call(Exists);
      if !ok {
        result := Ensured(Some(RequestFailed(Exists)), false, true, false, false);
      } else {
        ghost var afterExists := cluster.log;
        CheckRunOf(lib, schema, cluster.State(), cluster.answers);
        ghost var r := if cluster.present then CheckRun(AuditsOf(lib, schema, cluster.State()), cluster.answers)
                       else CreateRun(cluster.answers);
        if !cluster.present {
          result := CreateIndex();
        } else {
          result := CheckIndex();
        }
        assert cluster.log == old(cluster.log) + ([Exists] + r.sent);
      }
    }

    /** `create` as `ensure` uses it: its success flag is not looked at. */
    method CreateIndex() returns (result: Ensured)
      modifies cluster
      ensures Followed(CreateRun(old(cluster.answers)), result, old(cluster.log), cluster.log, cluster.answers)
    {
      var ok := cluster.Call(Create);
      if !ok {
        return Ensured(Some(RequestFailed(Create)), false, true, false, false);
      }
      return Ensured(None, true, true, true, true);
    }

    /** The settings check, then, unless it reported an error, the mapping check. */
    method CheckIndex() returns (result: Ensured)
      modifies cluster
      ensures Followed(AfterSettings(MappingAuditOf(lib, schema, cluster.mappings),
                                     SettingsRun(SettingsAuditOf(schema, cluster.settings), old(cluster.answers))),
                       result, old(cluster.log), cluster.log, cluster.answers)
    {
      ghost var settingsRun := SettingsRun(SettingsAuditOf(schema, cluster.settings), cluster.answers);
      var s := CheckSettingsConsistency();
      if s.err.Some? {
        result := Ensured(s.err, false, false, s.consistent, false);
      } else {
        ghost var mappingRun := MappingRun(MappingAuditOf(lib, schema, cluster.mappings), settingsRun.rest);
        var m := CheckMappingConsistency();
        assert cluster.log == old(cluster.log) + (settingsRun.sent + mappingRun.sent);
        result := Ensured(m.err, s.consistent && m.consistent, false, s.consistent, m.consistent);
      }
    }
  }
}
