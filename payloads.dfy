/**
 * The request bodies `_putMapping`, `_putDynamicTemplate`,
 * `_putMappingField` and `_putAnalyzer` build for a queued task, and the
 * guarantee that every task an audit queues carries the declared
 * definition it names.
 */
module Payloads {
  import opened Schema
  import opened DynamicTemplates
  import opened MappingAudit
  import opened MappingLaws
  import opened SettingsAudit
  import opened Protocol

  /** The body of a put-mapping or put-settings request, for the doc type it targets. */
  datatype Payload =
    | TypeBody(typeName: string, mapping: TypeMapping)                            // the whole doc type section
    | TemplatesBody(typeName: string, templates: Option<seq<NamedTemplate>>)    // `{ dynamic_templates }`
    | PropertyBody(typeName: string, properties: seq<(string, Field)>)          // `{ properties: { name: field } }`
    | AnalysisBody(analyzers: seq<(string, Analyzer)>)                          // `{ analysis: { analyzer: { name: a } } }`

  /**
   * The body sent for a task, read from the declared schema; None when the
   * schema does not declare what the task names (the source would send an
   * undefined body or fail on a missing object).
   */
  function PayloadOf(schema: IndexSchema, t: Task): Option<Payload> {
    match t
    case PutType(name) =>
      if name in Keys(schema.mappings) then Some(TypeBody(name, Lookup(schema.mappings, name))) else None
    case PutTemplates(name, _) =>
      if name in Keys(schema.mappings) then Some(TemplatesBody(name, Lookup(schema.mappings, name).dynamicTemplates)) else None
    case PutField(name, property) =>
      if name in Keys(schema.mappings) && property in Keys(Lookup(schema.mappings, name).properties)
      then Some(PropertyBody(name, [(property, Lookup(Lookup(schema.mappings, name).properties, property))]))
      else None
    case PutAnalyzer(name) =>
      if schema.analyzers.Some? && name in Keys(schema.analyzers.value)
      then Some(AnalysisBody([(name, Lookup(schema.analyzers.value, name))]))
      else None
  }

  /**
   * Every task the mapping audit queues has a body carrying the declared
   * definition: the whole doc type, the single declared property, or the
   * full declared template list, which contains the template named.
   */
  lemma MappingTaskPayload(lib: PatternLib, schema: IndexSchema, live: seq<(string, TypeMapping)>, t: Task)
    requires t in AuditOfMappings(lib, schema.mappings, live).tasks
    ensures PayloadOf(schema, t).Some?
    ensures t.PutType? ==> PayloadOf(schema, t) == Some(TypeBody(t.typeName, Lookup(schema.mappings, t.typeName)))
    ensures t.PutField? ==>
              (t.field in Keys(Lookup(schema.mappings, t.typeName).properties) &&
               PayloadOf(schema, t) ==
                 Some(PropertyBody(t.typeName, [(t.field, Lookup(Lookup(schema.mappings, t.typeName).properties, t.field))])))
    ensures t.PutTemplates? ==>
              (PayloadOf(schema, t).value.templates.Some? &&
               t.templateName in Keys(PayloadOf(schema, t).value.templates.value))
    ensures !t.PutAnalyzer?
  {
    MappingTasksIff(lib, schema.mappings, live, t);
  }

  /** Every task the settings audit queues carries the declared analyzer under its name. */
  lemma SettingsTaskPayload(schema: IndexSchema, live: LiveSettings, t: Task)
    requires t in AuditOfSettings(schema.analyzers, live).tasks
    ensures t.PutAnalyzer? && schema.analyzers.Some?
    ensures t.analyzerName in Keys(schema.analyzers.value)
    ensures PayloadOf(schema, t) == Some(AnalysisBody([(t.analyzerName, Lookup(schema.analyzers.value, t.analyzerName))]))
  {
    SettingsTasksIff(schema.analyzers, live, t);
  }

  /** A template task resends every declared template of the type, whichever template it was queued for. */
  lemma TemplatePayloadIgnoresName(schema: IndexSchema, typeName: string, a: string, b: string)
    ensures PayloadOf(schema, PutTemplates(typeName, a)) == PayloadOf(schema, PutTemplates(typeName, b))
  {
  }

  /**
   * A template task replaces the type's whole live template list: when one
   * declared template is missing and another was changed on the index, the
   * audit reports the change and queues the missing template, and the body
   * sent for it carries the declared definition of the changed template too.
   */
  lemma MissingTemplateResendsChanged(lib: PatternLib, schema: IndexSchema, live: seq<(string, TypeMapping)>,
                                      name: string, d: seq<NamedTemplate>, l: seq<NamedTemplate>, i: nat, j: nat)
    requires name in Keys(schema.mappings) && name in Keys(live)
    requires Lookup(schema.mappings, name).dynamicTemplates == Some(d)
    requires Lookup(live, name).dynamicTemplates == Some(l) && l != []
    requires i < |d| && d[i].0 !in Keys(l)
    requires j < |d| && d[j].0 in Keys(l) && d[j].1.matchName != Lookup(l, d[j].0).matchName
    ensures !AuditOfMappings(lib, schema.mappings, live).consistent
    ensures PutTemplates(name, d[i].0) in AuditOfMappings(lib, schema.mappings, live).tasks
    ensures PayloadOf(schema, PutTemplates(name, d[i].0)) == Some(TemplatesBody(name, Some(d)))
    ensures d[j].1 != Lookup(l, d[j].0)
  {
    TemplateChangeFlagged(lib, schema.mappings, live, name, j);
    KeyAt(d, i);
    MappingTasksIff(lib, schema.mappings, live, PutTemplates(name, d[i].0));
  }

  /** Every task `ensure` sends has a body built from the declared schema. */
  lemma EnsureSendsDeclaredBodies(lib: PatternLib, schema: IndexSchema, state: ClusterState, answers: Script, t: Task)
    requires Send(t) in EnsureRun(AuditsOf(lib, schema, state), answers).sent
    ensures PayloadOf(schema, t).Some?
  {
    EnsureSendsOnlyAuditTasks(AuditsOf(lib, schema, state), answers, t);
    if state.settings.Some? && t in AuditOfSettings(schema.analyzers, state.settings.value).tasks {
      SettingsTaskPayload(schema, state.settings.value, t);
    } else {
      MappingTaskPayload(lib, schema, state.mappings.value, t);
    }
  }
}
