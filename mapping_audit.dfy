/**
 * The audit half of `_checkMappingConsistency`: which doc types, dynamic
 * templates and properties must be added to the live index, and whether
 * everything already there still agrees with the declared schema. Running
 * the queued tasks is modelled in the service module.
 */
module MappingAudit {
  import opened Schema
  import opened Flattening
  import opened FieldDiff
  import opened DynamicTemplates

  // ---------------------------------------------------------------------
  // Dynamic templates of one doc type.

  /** `actualDynamicTemplates || []` */
  function LiveTemplateList(live: Option<seq<NamedTemplate>>): seq<NamedTemplate> {
    if live.Some? then live.value else []
  }

  /** Declared templates exist and the index has none: every declared template is queued. */
  predicate SendAllTemplates(declared: Option<seq<NamedTemplate>>, live: Option<seq<NamedTemplate>>) {
    declared.Some? && (live.None? || live.value == [])
  }

  /** The templates a declared template is looked up in: none at all when every template is queued. */
  function TemplatesToSearch(declared: Option<seq<NamedTemplate>>, live: Option<seq<NamedTemplate>>): seq<NamedTemplate> {
    if SendAllTemplates(declared, live) then [] else LiveTemplateList(live)
  }

  /** One `PutTemplates` per declared template among the first `n` not found in `search`. */
  function MissingTemplates(typeName: string, declared: seq<NamedTemplate>, search: seq<NamedTemplate>, n: nat): seq<Task>
    requires n <= |declared|
  {
    if n == 0 then []
    else MissingTemplates(typeName, declared, search, n - 1) +
         (if declared[n - 1].0 in Keys(search) then [] else [PutTemplates(typeName, declared[n - 1].0)])
  }

  /** The template tasks of a doc type present in the index. */
  function TemplateTasks(typeName: string, declared: Option<seq<NamedTemplate>>, live: Option<seq<NamedTemplate>>): seq<Task> {
    if declared.None? then []
    else MissingTemplates(typeName, declared.value, TemplatesToSearch(declared, live), |declared.value|)
  }

  /**
   * The template diff: `match`, `match_pattern`, `unmatch`, `path_match`
   * and `path_unmatch` by strict equality, and the template's mapping by
   * the field comparison. `match_mapping_type` is not compared.
   */
  predicate SameTemplate(declared: Template, live: Template) {
    SameAttributes(declared, live) && FieldConsistent(declared.mapping, live.mapping)
  }

  /** `diffFields` is empty. */
  predicate SameAttributes(declared: Template, live: Template) {
    && declared.matchName == live.matchName
    && declared.matchPattern == live.matchPattern
    && declared.unmatchName == live.unmatchName
    && declared.pathMatch == live.pathMatch
    && declared.pathUnmatch == live.pathUnmatch
  }

  /**
   * The templates of a doc type agree: each declared template found in a
   * non-empty live list matches the first live template of that name, and
   * every live template name is declared.
   */
  predicate TemplatesConsistent(declared: Option<seq<NamedTemplate>>, live: Option<seq<NamedTemplate>>) {
    && (declared.Some? && live.Some? ==>
          forall i :: 0 <= i < |declared.value| && declared.value[i].0 in Keys(live.value) ==>
            SameTemplate(declared.value[i].1, Lookup(live.value, declared.value[i].0)))
    && (forall k :: k in Keys(LiveTemplateList(live)) ==> declared.Some? && k in Keys(declared.value))
  }

  // ---------------------------------------------------------------------
  // Properties of one doc type.

  /** One `PutField` per declared property among the first `n` that the index lacks. */
  function FieldTasks(typeName: string, declared: seq<(string, Field)>, live: seq<(string, Field)>, n: nat): seq<Task>
    requires n <= |declared|
  {
    if n == 0 then []
    else FieldTasks(typeName, declared, live, n - 1) +
         (if declared[n - 1].0 in Keys(live) then [] else [PutField(typeName, declared[n - 1].0)])
  }

  /**
   * The properties of a doc type agree: every property on both sides
   * passes the field comparison, and every live property is declared or
   * produced by one of the declared dynamic templates.
   */
  predicate PropertiesConsistent(lib: PatternLib, templates: Option<seq<NamedTemplate>>,
                                 declared: seq<(string, Field)>, live: seq<(string, Field)>) {
    && (forall k :: k in Keys(declared) && k in Keys(live) ==> FieldConsistent(Lookup(declared, k), Lookup(live, k)))
    && (forall k :: k in Keys(live) ==> k in Keys(declared) || IsDynamicField(lib, templates, k, Lookup(live, k)))
  }

  // ---------------------------------------------------------------------
  // Whole mappings.

  /** The tasks of a doc type present on both sides: templates first, then properties. */
  function TypeTasks(typeName: string, declared: TypeMapping, live: TypeMapping): seq<Task> {
    TemplateTasks(typeName, declared.dynamicTemplates, live.dynamicTemplates) +
    FieldTasks(typeName, declared.properties, live.properties, |declared.properties|)
  }

  predicate TypeConsistent(lib: PatternLib, declared: TypeMapping, live: TypeMapping) {
    TemplatesConsistent(declared.dynamicTemplates, live.dynamicTemplates) &&
    PropertiesConsistent(lib, declared.dynamicTemplates, declared.properties, live.properties)
  }

  /** What declared doc type `name` contributes: the whole type when the index lacks it, else its missing pieces. */
  function TypeChunk(declared: seq<(string, TypeMapping)>, live: seq<(string, TypeMapping)>, name: string): seq<Task>
    requires name in Keys(declared)
  {
    if name !in Keys(live) then [PutType(name)] else TypeTasks(name, Lookup(declared, name), Lookup(live, name))
  }

  /** The tasks of the first `n` declared doc types, in declaration order. */
  function MappingTasks(declared: seq<(string, TypeMapping)>, live: seq<(string, TypeMapping)>, n: nat): seq<Task>
    requires n <= |declared|
  {
    if n == 0 then []
    else
      assert Keys(declared)[n - 1] == declared[n - 1].0;
      MappingTasks(declared, live, n - 1) + TypeChunk(declared, live, declared[n - 1].0)
  }

  /** Every doc type on both sides agrees, and every live doc type is declared. */
  predicate MappingsConsistent(lib: PatternLib, declared: seq<(string, TypeMapping)>, live: seq<(string, TypeMapping)>) {
    && (forall k :: k in Keys(declared) && k in Keys(live) ==> TypeConsistent(lib, Lookup(declared, k), Lookup(live, k)))
    && (forall k :: k in Keys(live) ==> k in Keys(declared))
  }

  function AuditOfMappings(lib: PatternLib, declared: seq<(string, TypeMapping)>, live: seq<(string, TypeMapping)>): Audit {
    Audit(MappingsConsistent(lib, declared, live), MappingTasks(declared, live, |declared|))
  }

  // ---------------------------------------------------------------------
  // The audit loops.

  /** Some name is not in `known`. */
  method AnyUnknown(names: seq<string>, known: set<string>) returns (found: bool)
    ensures found <==> exists k :: k in names && k !in known
  {
    found := false;
    for i := 0 to |names|
      invariant found <==> exists k :: k in names[..i] && k !in known
    {
      assert names[..i + 1] == names[..i] + [names[i]];
      if names[i] !in known {
        found := true;
      }
    }
    assert names[..|names|] == names;
  }

  /** The dynamic-template part of the per-type loop. */
  method AuditTemplates(typeName: string, declared: Option<seq<NamedTemplate>>, live: Option<seq<NamedTemplate>>)
    returns (consistent: bool, tasks: seq<Task>)
    ensures consistent == TemplatesConsistent(declared, live)
    ensures tasks == TemplateTasks(typeName, declared, live)
  {
    consistent := true;
    tasks := [];
    var checked: set<string> := {};
    if declared.Some? {
      var expected := declared.value;
      var search := TemplatesToSearch(declared, live);
      for i := 0 to |expected|
        invariant tasks == MissingTemplates(typeName, expected, search, i)
        invariant forall k :: k in checked <==> k in Keys(expected)[..i]
        invariant consistent <==> forall j :: 0 <= j < i && expected[j].0 in Keys(search) ==>
                                    SameTemplate(expected[j].1, Lookup(search, expected[j].0))
      {
        var name := expected[i].0;
        assert Keys(expected)[i] == name;
        assert Keys(expected)[..i + 1] == Keys(expected)[..i] + [name];
        if name !in Keys(search) {
          tasks := tasks + [PutTemplates(typeName, name)];
        } else {
          var actual := Lookup(search, name);
          var sameMapping, _ := CheckMappingField(expected[i].1.mapping, actual.mapping);
          if !sameMapping || !SameAttributes(expected[i].1, actual) {
            consistent := false;
          }
        }
        checked := checked + {name};
      }
      assert Keys(expected)[..|expected|] == Keys(expected);
      if SendAllTemplates(declared, live) {
        assert Keys(search) == [];
        assert live.Some? ==> Keys(live.value) == [];
      }
    }
    var dead := AnyUnknown(Keys(LiveTemplateList(live)), checked);
    if dead {
      consistent := false;
    }
  }

  /** The property part of the per-type loop. */
  method AuditProperties(lib: PatternLib, typeName: string, templates: Option<seq<NamedTemplate>>,
                         declared: seq<(string, Field)>, live: seq<(string, Field)>)
    returns (consistent: bool, tasks: seq<Task>)
    ensures consistent == PropertiesConsistent(lib, templates, declared, live)
    ensures tasks == FieldTasks(typeName, declared, live, |declared|)
  {
    var checked;
    consistent, tasks, checked := CompareProperties(typeName, declared, live);
    var dead := AnyDeadProperty(lib, templates, live, checked);
    if dead {
      consistent := false;
    }
  }

  /** The `forEach` over the declared properties: comparison, tasks and the set of names checked. */
  method CompareProperties(typeName: string, declared: seq<(string, Field)>, live: seq<(string, Field)>)
    returns (consistent: bool, tasks: seq<Task>, checked: set<string>)
    ensures consistent <==> forall k :: k in Keys(declared) && k in Keys(live) ==> FieldConsistent(Lookup(declared, k), Lookup(live, k))
    ensures tasks == FieldTasks(typeName, declared, live, |declared|)
    ensures forall k :: k in checked <==> k in Keys(declared)
  {
    consistent := true;
    tasks := [];
    checked := {};
    for i := 0 to |declared|
      invariant tasks == FieldTasks(typeName, declared, live, i)
      invariant forall k :: k in checked <==> k in Keys(declared)[..i]
      invariant consistent <==> forall k :: k in Keys(declared)[..i] && k in Keys(live) ==>
                                  FieldConsistent(Lookup(declared, k), Lookup(live, k))
    {
      var name := declared[i].0;
      assert Keys(declared)[i] == name;
      assert Keys(declared)[..i + 1] == Keys(declared)[..i] + [name];
      if name !in Keys(live) {
        tasks := tasks + [PutField(typeName, name)];
      } else {
        var same, _ := CheckMappingField(Lookup(declared, name), Lookup(live, name));
        if !same {
          consistent := false;
        }
      }
      checked := checked + {name};
    }
    assert Keys(declared)[..|declared|] == Keys(declared);
  }

  /** The `deadProperties` filter is non-empty: some live property was neither checked nor is dynamic. */
  method AnyDeadProperty(lib: PatternLib, templates: Option<seq<NamedTemplate>>, live: seq<(string, Field)>, checked: set<string>)
    returns (dead: bool)
    ensures !dead <==> forall k :: k in Keys(live) ==> k in checked || IsDynamicField(lib, templates, k, Lookup(live, k))
  {
    dead := false;
    var names := Keys(live);
    for i := 0 to |names|
      invariant !dead <==> forall k :: k in names[..i] ==> k in checked || IsDynamicField(lib, templates, k, Lookup(live, k))
    {
      assert names[..i + 1] == names[..i] + [names[i]];
      if names[i] !in checked && !IsDynamicField(lib, templates, names[i], Lookup(live, names[i])) {
        dead := true;
      }
    }
    assert names[..|names|] == names;
  }

  /** One declared doc type present in the index. */
  method AuditType(lib: PatternLib, typeName: string, expected: TypeMapping, actual: TypeMapping)
    returns (consistent: bool, tasks: seq<Task>)
    ensures consistent == TypeConsistent(lib, expected, actual)
    ensures tasks == TypeTasks(typeName, expected, actual)
  {
    var templatesOk, templateTasks := AuditTemplates(typeName, expected.dynamicTemplates, actual.dynamicTemplates);
    var propertiesOk, fieldTasks := AuditProperties(lib, typeName, expected.dynamicTemplates, expected.properties, actual.properties);
    consistent := templatesOk && propertiesOk;
    tasks := templateTasks + fieldTasks;
  }

  /**
   * `_checkMappingConsistency` without the requests: the loop over the
   * declared doc types, then the search for live doc types left unchecked.
   */
  method AuditMappings(lib: PatternLib, declared: seq<(string, TypeMapping)>, live: seq<(string, TypeMapping)>)
    returns (audit: Audit)
    ensures audit == AuditOfMappings(lib, declared, live)
  {
    var consistent := true;
    var tasks: seq<Task> := [];
    var checked: set<string> := {};
    for i := 0 to |declared|
      invariant tasks == MappingTasks(declared, live, i)
      invariant forall k :: k in checked <==> k in Keys(declared)[..i]
      invariant consistent <==> forall k :: k in Keys(declared)[..i] && k in Keys(live) ==>
                                  TypeConsistent(lib, Lookup(declared, k), Lookup(live, k))
    {
      var name := declared[i].0;
      assert Keys(declared)[i] == name;
      assert Keys(declared)[..i + 1] == Keys(declared)[..i] + [name];
      if name !in Keys(live) {
        tasks := tasks + [PutType(name)];
      } else {
        var typeOk, typeTasks := AuditType(lib, name, Lookup(declared, name), Lookup(live, name));
        tasks := tasks + typeTasks;
        if !typeOk {
          consistent := false;
        }
      }
      checked := checked + {name};
    }
    assert Keys(declared)[..|declared|] == Keys(declared);
    var dead := AnyUnknown(Keys(live), checked);
    if dead {
      consistent := false;
    }
    audit := Audit(consistent, tasks);
  }
}
