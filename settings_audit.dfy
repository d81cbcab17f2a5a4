/**
 * The audit half of `_checkSettingsConsistency`: which declared analyzers
 * must be added, and whether the live analyzers still agree with the
 * declared ones. Closing, updating and reopening the index is modelled in
 * the service module.
 */
module SettingsAudit {
  import opened Schema
  import opened Analyzers

  /** `settings.index.analysis.analyzer` of the live index, with the empty containers the source fills in. */
  function LiveAnalyzers(live: LiveSettings): (r: seq<(string, Analyzer)>)
    ensures live.analysis.None? || live.analysis.value.analyzer.None? ==> r == []
  {
    if live.analysis.Some? && live.analysis.value.analyzer.Some? then live.analysis.value.analyzer.value else []
  }

  /** One `PutAnalyzer` per declared analyzer among the first `n` that the index lacks, in declaration order. */
  function AnalyzerTasks(declared: seq<(string, Analyzer)>, live: seq<(string, Analyzer)>, n: nat): seq<Task>
    requires n <= |declared|
  {
    if n == 0 then []
    else AnalyzerTasks(declared, live, n - 1) +
         (if declared[n - 1].0 in Keys(live) then [] else [PutAnalyzer(declared[n - 1].0)])
  }

  /** Every analyzer present on both sides has the same definition. */
  predicate AnalyzersUnchanged(declared: seq<(string, Analyzer)>, live: seq<(string, Analyzer)>) {
    forall k :: k in Keys(declared) && k in Keys(live) ==> SameAnalyzer(Lookup(declared, k), Lookup(live, k))
  }

  /** Every live analyzer is still declared. */
  predicate NoDeadAnalyzers(declared: seq<(string, Analyzer)>, live: seq<(string, Analyzer)>) {
    forall k :: k in Keys(live) ==> k in Keys(declared)
  }

  /**
   * The audit: without declared analyzers nothing is checked at all, not
   * even analyzers that only the index has.
   */
  function AuditOfSettings(declared: Option<seq<(string, Analyzer)>>, live: LiveSettings): Audit {
    if declared.None? then Audit(true, [])
    else
      var liveAnalyzers := LiveAnalyzers(live);
      Audit(AnalyzersUnchanged(declared.value, liveAnalyzers) && NoDeadAnalyzers(declared.value, liveAnalyzers),
            AnalyzerTasks(declared.value, liveAnalyzers, |declared.value|))
  }

  /**
   * The audit loop of `_checkSettingsConsistency`: a pass over the declared
   * analyzers queueing the missing ones and comparing the present ones,
   * then a pass over the live analyzers looking for unchecked ones.
   */
  method AuditSettings(declared: Option<seq<(string, Analyzer)>>, live: LiveSettings) returns (audit: Audit)
    ensures audit == AuditOfSettings(declared, live)
  {
    if declared.None? {
      return Audit(true, []);
    }
    var expected := declared.value;
    var actual := LiveAnalyzers(live);
    var consistent, tasks, checked := CheckDeclaredAnalyzers(expected, actual);
    var names := Keys(actual);
    var dead := false;
    for i := 0 to |names|
      invariant dead <==> exists j :: 0 <= j < i && names[j] !in Keys(expected)
    {
      if names[i] !in checked {
        dead := true;
      }
    }
    if dead {
      consistent := false;
    }
    audit := Audit(consistent, tasks);
  }

  /**
   * The first pass: queues every declared analyzer the index lacks, compares
   * the others with their live definitions, and records every name it saw.
   */
  method CheckDeclaredAnalyzers(expected: seq<(string, Analyzer)>, actual: seq<(string, Analyzer)>)
    returns (consistent: bool, tasks: seq<Task>, checked: set<string>)
    ensures tasks == AnalyzerTasks(expected, actual, |expected|)
    ensures consistent <==> AnalyzersUnchanged(expected, actual)
    ensures forall k :: k in checked <==> k in Keys(expected)
  {
    consistent := true;
    tasks := [];
    checked := {};
    for i := 0 to |expected|
      invariant tasks == AnalyzerTasks(expected, actual, i)
      invariant forall k :: k in checked <==> k in Keys(expected)[..i]
      invariant consistent <==> UnchangedUpTo(expected, actual, i)
    {
      var name := expected[i].0;
      assert Keys(expected)[i] == name;
      assert Keys(expected)[..i + 1] == Keys(expected)[..i] + [name];
      if name !in Keys(actual) {
        tasks := tasks + [PutAnalyzer(name)];
      } else if !SameAnalyzer(Lookup(expected, name), Lookup(actual, name)) {
        consistent := false;
      }
      checked := checked + {name};
    }
    assert Keys(expected)[..|expected|] == Keys(expected);
    UnchangedByIndex(expected, actual);
  }

  /** The first `n` declared analyzers that the index has are unchanged there. */
  predicate UnchangedUpTo(declared: seq<(string, Analyzer)>, live: seq<(string, Analyzer)>, n: nat)
    requires n <= |declared|
  {
    forall j :: 0 <= j < n && declared[j].0 in Keys(live) ==>
      SameAnalyzer(Lookup(declared, declared[j].0), Lookup(live, declared[j].0))
  }

  /** The per-entry form of `AnalyzersUnchanged` the audit loop establishes. */
  lemma UnchangedByIndex(declared: seq<(string, Analyzer)>, live: seq<(string, Analyzer)>)
    ensures AnalyzersUnchanged(declared, live) <==> UnchangedUpTo(declared, live, |declared|)
  {
    forall j | 0 <= j < |declared|
      ensures declared[j].0 in Keys(declared)
    {
      assert Keys(declared)[j] == declared[j].0;
    }
  }

  // ---------------------------------------------------------------------
  // Properties of the audit.

  lemma {:induction false} AnalyzerTasksMember(declared: seq<(string, Analyzer)>, live: seq<(string, Analyzer)>, n: nat, t: Task)
    requires n <= |declared|
    ensures t in AnalyzerTasks(declared, live, n) <==>
            t.PutAnalyzer? && exists j :: 0 <= j < n && declared[j].0 == t.analyzerName && t.analyzerName !in Keys(live)
  {
    if n > 0 {
      AnalyzerTasksMember(declared, live, n - 1, t);
    }
  }

  /** Exactly the declared analyzers the index lacks are queued, and nothing else. */
  lemma SettingsTasksIff(declared: Option<seq<(string, Analyzer)>>, live: LiveSettings, t: Task)
    ensures t in AuditOfSettings(declared, live).tasks <==>
            t.PutAnalyzer? && declared.Some? && t.analyzerName in Keys(declared.value) &&
            t.analyzerName !in Keys(LiveAnalyzers(live))
  {
    if declared.Some? {
      var d := declared.value;
      AnalyzerTasksMember(d, LiveAnalyzers(live), |d|, t);
      if t.PutAnalyzer? && t.analyzerName in Keys(d) {
        var j :| 0 <= j < |d| && Keys(d)[j] == t.analyzerName;
        assert d[j].0 == t.analyzerName;
      }
    }
  }

  /** An index whose analyzers are exactly the declared ones needs nothing and is consistent. */
  lemma {:induction false} SettingsAuditSelf(declared: seq<(string, Analyzer)>)
    ensures AuditOfSettings(Some(declared), LiveSettings(Some(LiveAnalysis(Some(declared))))) == Audit(true, [])
  {
    var live := LiveSettings(Some(LiveAnalysis(Some(declared))));
    forall k | k in Keys(declared) && k in Keys(declared)
      ensures SameAnalyzer(Lookup(declared, k), Lookup(declared, k))
    {
      SameAnalyzerReflexive(Lookup(declared, k));
    }
    var tasks := AuditOfSettings(Some(declared), live).tasks;
    if tasks != [] {
      SettingsTasksIff(Some(declared), live, tasks[0]);
      assert false;
    }
  }

  /** A schema without analyzers never flags the index, whatever analyzers it holds. */
  lemma NoDeclaredAnalyzers(live: LiveSettings)
    ensures AuditOfSettings(None, live) == Audit(true, [])
  {
  }

  /** An index without analysis settings gets every declared analyzer and is otherwise consistent. */
  lemma {:induction false} EmptyIndexGetsAll(declared: seq<(string, Analyzer)>)
    ensures AuditOfSettings(Some(declared), LiveSettings(None)) == Audit(true, AllAnalyzers(declared, |declared|))
  {
    AllMissing(declared, |declared|);
  }

  function AllAnalyzers(declared: seq<(string, Analyzer)>, n: nat): seq<Task>
    requires n <= |declared|
  {
    if n == 0 then [] else AllAnalyzers(declared, n - 1) + [PutAnalyzer(declared[n - 1].0)]
  }

  lemma {:induction false} AllMissing(declared: seq<(string, Analyzer)>, n: nat)
    requires n <= |declared|
    ensures AnalyzerTasks(declared, [], n) == AllAnalyzers(declared, n)
  {
    if n > 0 {
      AllMissing(declared, n - 1);
    }
  }

  /** A declared analyzer whose live definition differs makes the settings inconsistent and is not re-sent. */
  lemma ChangedAnalyzerFlagged(declared: seq<(string, Analyzer)>, live: LiveSettings, k: string)
    requires k in Keys(declared) && k in Keys(LiveAnalyzers(live))
    requires !SameAnalyzer(Lookup(declared, k), Lookup(LiveAnalyzers(live), k))
    ensures !AuditOfSettings(Some(declared), live).consistent
    ensures PutAnalyzer(k) !in AuditOfSettings(Some(declared), live).tasks
  {
    SettingsTasksIff(Some(declared), live, PutAnalyzer(k));
  }

  /** A live analyzer the schema no longer declares makes the settings inconsistent. */
  lemma DeadAnalyzerFlagged(declared: seq<(string, Analyzer)>, live: LiveSettings, k: string)
    requires k in Keys(LiveAnalyzers(live)) && k !in Keys(declared)
    ensures !AuditOfSettings(Some(declared), live).consistent
  {
  }
}
