/**
 * What the mapping audit promises: which tasks it queues (exactly the
 * missing pieces, and only declared ones), that an index built from the
 * schema needs nothing, and which differences make it report the mappings
 * inconsistent.
 */
module MappingLaws {
  import opened Schema
  import opened Flattening
  import opened FieldDiff
  import opened DynamicTemplates
  import opened MappingAudit

  /** The declared template `name` of a present doc type is queued. */
  predicate TemplateQueued(declared: Option<seq<NamedTemplate>>, live: Option<seq<NamedTemplate>>, name: string) {
    declared.Some? && name in Keys(declared.value) && name !in Keys(TemplatesToSearch(declared, live))
  }

  /** The task is for doc type `name`. */
  predicate OfType(t: Task, name: string) {
    !t.PutAnalyzer? && t.typeName == name
  }

  /** The tasks the audit should queue, described without the loops. */
  predicate Queued(declared: seq<(string, TypeMapping)>, live: seq<(string, TypeMapping)>, t: Task) {
    match t
    case PutType(name) => name in Keys(declared) && name !in Keys(live)
    case PutTemplates(name, template) =>
      name in Keys(declared) && name in Keys(live) &&
      TemplateQueued(Lookup(declared, name).dynamicTemplates, Lookup(live, name).dynamicTemplates, template)
    case PutField(name, property) =>
      name in Keys(declared) && name in Keys(live) &&
      property in Keys(Lookup(declared, name).properties) && property !in Keys(Lookup(live, name).properties)
    case PutAnalyzer(_) => false
  }

  lemma {:induction false} MissingTemplatesMember(typeName: string, declared: seq<NamedTemplate>, search: seq<NamedTemplate>, n: nat, t: Task)
    requires n <= |declared|
    ensures t in MissingTemplates(typeName, declared, search, n) <==>
            t.PutTemplates? && t.typeName == typeName && t.templateName !in Keys(search) &&
            exists j :: 0 <= j < n && declared[j].0 == t.templateName
  {
    if n > 0 {
      MissingTemplatesMember(typeName, declared, search, n - 1, t);
    }
  }

  lemma {:induction false} FieldTasksMember(typeName: string, declared: seq<(string, Field)>, live: seq<(string, Field)>, n: nat, t: Task)
    requires n <= |declared|
    ensures t in FieldTasks(typeName, declared, live, n) <==>
            t.PutField? && t.typeName == typeName && t.field !in Keys(live) &&
            exists j :: 0 <= j < n && declared[j].0 == t.field
  {
    if n > 0 {
      FieldTasksMember(typeName, declared, live, n - 1, t);
    }
  }

  /** An entry's key is among the keys. */
  lemma KeyAt<T>(s: seq<(string, T)>, j: nat)
    requires j < |s|
    ensures s[j].0 in Keys(s)
  {
    assert Keys(s)[j] == s[j].0;
  }

  /** Some entry carries each key. */
  lemma EntryOf<T>(s: seq<(string, T)>, k: string) returns (j: nat)
    requires k in Keys(s)
    ensures j < |s| && s[j].0 == k
  {
    var i :| 0 <= i < |Keys(s)| && Keys(s)[i] == k;
    j := i;
  }

  /** The tasks of a present doc type, described without the loops. */
  lemma TypeTasksMember(typeName: string, declared: TypeMapping, live: TypeMapping, t: Task)
    ensures t in TypeTasks(typeName, declared, live) <==>
            OfType(t, typeName) && !t.PutType? &&
            (t.PutTemplates? ==> TemplateQueued(declared.dynamicTemplates, live.dynamicTemplates, t.templateName)) &&
            (t.PutField? ==> t.field in Keys(declared.properties) && t.field !in Keys(live.properties))
  {
    var d := declared.dynamicTemplates;
    if d.Some? {
      MissingTemplatesMember(typeName, d.value, TemplatesToSearch(d, live.dynamicTemplates), |d.value|, t);
      if t.PutTemplates? && t.templateName in Keys(d.value) {
        var j := EntryOf(d.value, t.templateName);
      }
      if t.PutTemplates? && (exists j :: 0 <= j < |d.value| && d.value[j].0 == t.templateName) {
        var j :| 0 <= j < |d.value| && d.value[j].0 == t.templateName;
        KeyAt(d.value, j);
      }
    }
    FieldTasksMember(typeName, declared.properties, live.properties, |declared.properties|, t);
    if t.PutField? && t.field in Keys(declared.properties) {
      var j := EntryOf(declared.properties, t.field);
    }
    if t.PutField? && (exists j :: 0 <= j < |declared.properties| && declared.properties[j].0 == t.field) {
      var j :| 0 <= j < |declared.properties| && declared.properties[j].0 == t.field;
      KeyAt(declared.properties, j);
    }
  }

  /** What one declared doc type contributes. */
  lemma TypeChunkMember(declared: seq<(string, TypeMapping)>, live: seq<(string, TypeMapping)>, name: string, t: Task)
    requires name in Keys(declared)
    ensures t in TypeChunk(declared, live, name) <==> OfType(t, name) && Queued(declared, live, t)
  {
    if name in Keys(live) {
      TypeTasksMember(name, Lookup(declared, name), Lookup(live, name), t);
    }
  }

  lemma {:induction false} MappingTasksMember(declared: seq<(string, TypeMapping)>, live: seq<(string, TypeMapping)>, n: nat, t: Task)
    requires n <= |declared|
    ensures t in MappingTasks(declared, live, n) <==>
            (exists j :: 0 <= j < n && OfType(t, declared[j].0)) && Queued(declared, live, t)
  {
    if n > 0 {
      var name := declared[n - 1].0;
      KeyAt(declared, n - 1);
      assert MappingTasks(declared, live, n) == MappingTasks(declared, live, n - 1) + TypeChunk(declared, live, name);
      MappingTasksMember(declared, live, n - 1, t);
      TypeChunkMember(declared, live, name, t);
      var before := exists j :: 0 <= j < n - 1 && OfType(t, declared[j].0);
      var now := exists j :: 0 <= j < n && OfType(t, declared[j].0);
      assert now <==> before || OfType(t, name) by {
        if now {
          var j :| 0 <= j < n && OfType(t, declared[j].0);
          if j < n - 1 {
            assert before;
          }
        }
        if before {
          var j :| 0 <= j < n - 1 && OfType(t, declared[j].0);
          assert 0 <= j < n;
        }
      }
    }
  }

  /**
   * The audit queues exactly the missing pieces of declared doc types: a
   * whole doc type the index lacks, a declared template the index lacks (or
   * every declared template when the index has none), a declared property
   * the index lacks; never an analyzer, never anything only the index has.
   */
  lemma {:induction false} MappingTasksIff(lib: PatternLib, declared: seq<(string, TypeMapping)>, live: seq<(string, TypeMapping)>, t: Task)
    ensures t in AuditOfMappings(lib, declared, live).tasks <==> Queued(declared, live, t)
  {
    MappingTasksMember(declared, live, |declared|, t);
    if Queued(declared, live, t) {
      var j := EntryOf(declared, t.typeName);
      assert OfType(t, declared[j].0);
    }
  }

  /** Declared templates carry distinct names. */
  predicate DistinctTemplateNames(m: seq<(string, TypeMapping)>) {
    forall i :: 0 <= i < |m| && m[i].1.dynamicTemplates.Some? ==> DistinctKeys(m[i].1.dynamicTemplates.value)
  }

  /** The first entry of a key with distinct keys is the entry itself. */
  lemma LookupDistinct<T>(s: seq<(string, T)>, j: nat)
    requires DistinctKeys(s) && j < |s|
    ensures s[j].0 in Keys(s) && Lookup(s, s[j].0) == s[j].1
  {
    KeyAt(s, j);
  }

  lemma TemplatesSelf(d: Option<seq<NamedTemplate>>)
    requires d.Some? ==> DistinctKeys(d.value)
    ensures TemplatesConsistent(d, d)
  {
    if d.Some? {
      forall i | 0 <= i < |d.value| && d.value[i].0 in Keys(d.value)
        ensures SameTemplate(d.value[i].1, Lookup(d.value, d.value[i].0))
      {
        LookupDistinct(d.value, i);
        FieldReflexive(d.value[i].1.mapping);
      }
    }
  }

  lemma PropertiesSelf(lib: PatternLib, templates: Option<seq<NamedTemplate>>, p: seq<(string, Field)>)
    ensures PropertiesConsistent(lib, templates, p, p)
  {
    forall k | k in Keys(p)
      ensures FieldConsistent(Lookup(p, k), Lookup(p, k))
    {
      FieldReflexive(Lookup(p, k));
    }
  }

  /**
   * An index whose mappings are exactly the declared ones is consistent and
   * needs no task: running the audit again after a successful run finds
   * nothing to do.
   */
  lemma AuditSelf(lib: PatternLib, m: seq<(string, TypeMapping)>)
    requires DistinctTemplateNames(m)
    ensures AuditOfMappings(lib, m, m) == Audit(true, [])
  {
    ConsistentSelf(lib, m);
    NoTasksSelf(m);
  }

  lemma ConsistentSelf(lib: PatternLib, m: seq<(string, TypeMapping)>)
    requires DistinctTemplateNames(m)
    ensures MappingsConsistent(lib, m, m)
  {
    forall k | k in Keys(m) && k in Keys(m)
      ensures TypeConsistent(lib, Lookup(m, k), Lookup(m, k))
    {
      var t := Lookup(m, k);
      assert (k, t) in m;
      var i :| 0 <= i < |m| && m[i] == (k, t);
      TemplatesSelf(t.dynamicTemplates);
      PropertiesSelf(lib, t.dynamicTemplates, t.properties);
    }
  }

  lemma NoTasksSelf(m: seq<(string, TypeMapping)>)
    ensures MappingTasks(m, m, |m|) == []
  {
    var tasks := MappingTasks(m, m, |m|);
    if tasks != [] {
      MappingTasksMember(m, m, |m|, tasks[0]);
      NothingQueuedSelf(m, tasks[0]);
      assert false;
    }
  }

  /** Mappings compared with themselves call for no task. */
  lemma NothingQueuedSelf(m: seq<(string, TypeMapping)>, t: Task)
    ensures !Queued(m, m, t)
  {
    if t.PutTemplates? && t.typeName in Keys(m) {
      var d := Lookup(m, t.typeName).dynamicTemplates;
      if d.Some? && t.templateName in Keys(d.value) {
        assert TemplatesToSearch(d, d) == d.value;
      }
    }
  }

  /** A declared doc type the index lacks is queued whole, and nothing else is queued for it. */
  lemma MissingTypeQueuedWhole(lib: PatternLib, declared: seq<(string, TypeMapping)>, live: seq<(string, TypeMapping)>, name: string, t: Task)
    requires name in Keys(declared) && name !in Keys(live)
    ensures PutType(name) in AuditOfMappings(lib, declared, live).tasks
    ensures t in AuditOfMappings(lib, declared, live).tasks && OfType(t, name) ==> t == PutType(name)
  {
    MappingTasksIff(lib, declared, live, PutType(name));
    MappingTasksIff(lib, declared, live, t);
  }

  /** A property present on both sides with a different mapping makes the audit inconsistent and is not re-sent. */
  lemma ChangedPropertyFlagged(lib: PatternLib, declared: seq<(string, TypeMapping)>, live: seq<(string, TypeMapping)>,
                               name: string, property: string)
    requires name in Keys(declared) && name in Keys(live)
    requires property in Keys(Lookup(declared, name).properties) && property in Keys(Lookup(live, name).properties)
    requires !FieldConsistent(Lookup(Lookup(declared, name).properties, property), Lookup(Lookup(live, name).properties, property))
    ensures !AuditOfMappings(lib, declared, live).consistent
    ensures PutField(name, property) !in AuditOfMappings(lib, declared, live).tasks
  {
    MappingTasksIff(lib, declared, live, PutField(name, property));
  }

  /** A live property that is neither declared nor produced by a declared template makes the audit inconsistent. */
  lemma DeadPropertyFlagged(lib: PatternLib, declared: seq<(string, TypeMapping)>, live: seq<(string, TypeMapping)>,
                            name: string, property: string)
    requires name in Keys(declared) && name in Keys(live)
    requires property in Keys(Lookup(live, name).properties) && property !in Keys(Lookup(declared, name).properties)
    requires !IsDynamicField(lib, Lookup(declared, name).dynamicTemplates, property,
                             Lookup(Lookup(live, name).properties, property))
    ensures !AuditOfMappings(lib, declared, live).consistent
  {
  }

  /** A live doc type the schema no longer declares makes the audit inconsistent. */
  lemma DeadTypeFlagged(lib: PatternLib, declared: seq<(string, TypeMapping)>, live: seq<(string, TypeMapping)>, name: string)
    requires name in Keys(live) && name !in Keys(declared)
    ensures !AuditOfMappings(lib, declared, live).consistent
  {
  }

  /** A live template the type no longer declares makes the audit inconsistent. */
  lemma DeadTemplateFlagged(lib: PatternLib, declared: seq<(string, TypeMapping)>, live: seq<(string, TypeMapping)>,
                            name: string, template: string)
    requires name in Keys(declared) && name in Keys(live)
    requires Lookup(live, name).dynamicTemplates.Some?
    requires template in Keys(Lookup(live, name).dynamicTemplates.value)
    requires Lookup(declared, name).dynamicTemplates.None? ||
             template !in Keys(Lookup(declared, name).dynamicTemplates.value)
    ensures !AuditOfMappings(lib, declared, live).consistent
  {
    assert template in Keys(LiveTemplateList(Lookup(live, name).dynamicTemplates));
    assert !TypeConsistent(lib, Lookup(declared, name), Lookup(live, name));
  }

  /** `obj[k]` of an object that gained a fresh key at the end. */
  lemma LookupAppend<T>(s: seq<(string, T)>, k: string, v: T, x: string)
    requires k !in Keys(s) && (x in Keys(s) || x == k)
    ensures x in Keys(s + [(k, v)])
    ensures Lookup(s + [(k, v)], x) == if x == k then v else Lookup(s, x)
    decreases |s|
  {
    assert Keys(s + [(k, v)]) == Keys(s) + [k];
    if s != [] && s[0].0 != x {
      assert (s + [(k, v)])[1..] == s[1..] + [(k, v)];
      assert Keys(s[1..]) == Keys(s)[1..];
      LookupAppend(s[1..], k, v, x);
    }
  }

  /**
   * A live property that a declared dynamic template produces is tolerated:
   * adding it to the index leaves the verdict on the properties unchanged.
   */
  lemma DynamicPropertyTolerated(lib: PatternLib, templates: Option<seq<NamedTemplate>>,
                                 declared: seq<(string, Field)>, live: seq<(string, Field)>, name: string, field: Field)
    requires name !in Keys(declared) && name !in Keys(live)
    requires IsDynamicField(lib, templates, name, field)
    ensures PropertiesConsistent(lib, templates, declared, live + [(name, field)]) ==
            PropertiesConsistent(lib, templates, declared, live)
  {
    var grown := live + [(name, field)];
    assert Keys(grown) == Keys(live) + [name];
    forall x | x in Keys(grown)
      ensures Lookup(grown, x) == if x == name then field else Lookup(live, x)
    {
      LookupAppend(live, name, field, x);
    }
  }

  /** `match_mapping_type` is not among the attributes a template is compared on. */
  lemma MatchMappingTypeNotCompared(t: Template, other: Option<string>)
    ensures SameTemplate(t, t.(matchMappingType := other))
  {
    FieldReflexive(t.mapping);
  }

  /** A matched template whose `match` changed makes the audit inconsistent and is not re-sent. */
  lemma TemplateChangeFlagged(lib: PatternLib, declared: seq<(string, TypeMapping)>, live: seq<(string, TypeMapping)>,
                              name: string, i: nat)
    requires name in Keys(declared) && name in Keys(live)
    requires Lookup(declared, name).dynamicTemplates.Some? && Lookup(live, name).dynamicTemplates.Some?
    requires i < |Lookup(declared, name).dynamicTemplates.value|
    requires Lookup(declared, name).dynamicTemplates.value[i].0 in Keys(Lookup(live, name).dynamicTemplates.value)
    requires Lookup(declared, name).dynamicTemplates.value[i].1.matchName !=
             Lookup(Lookup(live, name).dynamicTemplates.value, Lookup(declared, name).dynamicTemplates.value[i].0).matchName
    ensures !AuditOfMappings(lib, declared, live).consistent
    ensures PutTemplates(name, Lookup(declared, name).dynamicTemplates.value[i].0) !in AuditOfMappings(lib, declared, live).tasks
  {
    var d := Lookup(declared, name).dynamicTemplates;
    var l := Lookup(live, name).dynamicTemplates;
    assert l.value != [];
    MappingTasksIff(lib, declared, live, PutTemplates(name, d.value[i].0));
  }
}
