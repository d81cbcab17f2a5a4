/**
 * `_isThisPerhapsADynamicField`: decides whether a live property that the
 * declared schema does not name is produced by one of the declared dynamic
 * templates of its doc type.
 *
 * Minimatch globs and JavaScript regular expressions are foreign libraries;
 * the matcher takes them as the two functions of a `PatternLib`, so every
 * property below holds whatever those libraries answer. `StarGlob` is a
 * simplified glob (only `*`, matching any run of characters) used for the
 * worked examples.
 */
module DynamicTemplates {
  import opened Schema
  import opened Flattening

  /** `glob(name, pattern)` is `Minimatch(name, pattern)`; `regex(name, pattern)` is `new RegExp(pattern).test(name)`. */
  datatype PatternLib = PatternLib(glob: (string, string) -> bool, regex: (string, string) -> bool)

  /** `paths.filter((p) => Minimatch(p, pattern))` */
  function KeepMatching(lib: PatternLib, paths: seq<string>, pattern: string): (r: seq<string>)
    ensures forall p :: p in r <==> p in paths && lib.glob(p, pattern)
  {
    if paths == [] then []
    else (if lib.glob(paths[0], pattern) then [paths[0]] else []) + KeepMatching(lib, paths[1..], pattern)
  }

  /** `paths.filter((p) => !Minimatch(p, pattern))` */
  function DropMatching(lib: PatternLib, paths: seq<string>, pattern: string): (r: seq<string>)
    ensures forall p :: p in r <==> p in paths && !lib.glob(p, pattern)
  {
    if paths == [] then []
    else (if lib.glob(paths[0], pattern) then [] else [paths[0]]) + DropMatching(lib, paths[1..], pattern)
  }

  /** The types `match_mapping_type: "string"` stands for. */
  const StringTypes: set<string> := {"string", "keyword", "text"}

  /**
   * The `match_mapping_type` check: skipped when the template has none or
   * the live field has no type; "string" accepts the string-like types,
   * "*" accepts anything, any other value must equal the live type.
   */
  predicate MappingTypeAccepts(matchMappingType: Option<string>, liveType: Option<string>) {
    if !Truthy(matchMappingType) || !Truthy(liveType) then true
    else if matchMappingType.value == "string" then liveType.value in StringTypes
    else if matchMappingType.value != "*" then matchMappingType.value == liveType.value
    else true
  }

  /** The callback given to `find`: the template's checks, in the source's order, each able to reject. */
  predicate TemplateApplies(lib: PatternLib, t: Template, name: string, live: Field) {
    var paths := FlatPaths(name, live);
    if Truthy(t.matchName) &&
       !(if Truthy(t.matchPattern) then lib.regex(name, t.matchName.value) else lib.glob(name, t.matchName.value))
    then false
    else if Truthy(t.unmatchName) && lib.glob(name, t.unmatchName.value) then false
    else
      var kept := if Truthy(t.pathMatch) then KeepMatching(lib, paths, t.pathMatch.value) else paths;
      if Truthy(t.pathMatch) && |kept| == 0 then false
      else
        var left := if Truthy(t.pathUnmatch) then DropMatching(lib, kept, t.pathUnmatch.value) else kept;
        if Truthy(t.pathUnmatch) && |left| == 0 then false
        else MappingTypeAccepts(t.matchMappingType, live.fieldType)
  }

  /** `find` over the templates' bodies: the index of the first one that applies. */
  function FirstApplicable(lib: PatternLib, ts: seq<NamedTemplate>, name: string, live: Field): (r: Option<nat>)
    ensures r.Some? ==> r.value < |ts| && TemplateApplies(lib, ts[r.value].1, name, live)
    ensures r.Some? ==> forall j :: 0 <= j < r.value ==> !TemplateApplies(lib, ts[j].1, name, live)
    ensures r.None? ==> forall j :: 0 <= j < |ts| ==> !TemplateApplies(lib, ts[j].1, name, live)
  {
    if ts == [] then None
    else if TemplateApplies(lib, ts[0].1, name, live) then Some(0)
    else
      match FirstApplicable(lib, ts[1..], name, live)
      case None => None
      case Some(i) => Some(i + 1)
  }

  /**
   * `_isThisPerhapsADynamicField(type, name, live)`, given the declared
   * `dynamic_templates` of that type (None when the type declares none).
   */
  predicate IsDynamicField(lib: PatternLib, templates: Option<seq<NamedTemplate>>, name: string, live: Field) {
    FirstApplicable(lib, if templates.Some? then templates.value else [], name, live).Some?
  }

  /** The field is explained exactly when some declared template applies; without templates, never. */
  lemma DynamicIffSomeTemplate(lib: PatternLib, templates: Option<seq<NamedTemplate>>, name: string, live: Field)
    ensures IsDynamicField(lib, templates, name, live) <==>
            templates.Some? && exists i :: 0 <= i < |templates.value| && TemplateApplies(lib, templates.value[i].1, name, live)
    ensures templates.None? || templates.value == [] ==> !IsDynamicField(lib, templates, name, live)
  {
  }

  /**
   * The same checks stated without the filters: the name test, the unmatch
   * test, some written path passing path_match, some such path also escaping
   * path_unmatch, and the type test.
   */
  lemma TemplateAppliesIff(lib: PatternLib, t: Template, name: string, live: Field)
    ensures TemplateApplies(lib, t, name, live) <==>
      && (Truthy(t.matchName) ==>
            if Truthy(t.matchPattern) then lib.regex(name, t.matchName.value) else lib.glob(name, t.matchName.value))
      && (Truthy(t.unmatchName) ==> !lib.glob(name, t.unmatchName.value))
      && (Truthy(t.pathMatch) ==>
            exists p :: p in Keys(Flatten(name, live)) && lib.glob(p, t.pathMatch.value))
      && (Truthy(t.pathUnmatch) ==>
            exists p :: p in Keys(Flatten(name, live)) &&
                        (Truthy(t.pathMatch) ==> lib.glob(p, t.pathMatch.value)) &&
                        !lib.glob(p, t.pathUnmatch.value))
      && MappingTypeAccepts(t.matchMappingType, live.fieldType)
  {
    var paths := FlatPaths(name, live);
    var kept := if Truthy(t.pathMatch) then KeepMatching(lib, paths, t.pathMatch.value) else paths;
    var left := if Truthy(t.pathUnmatch) then DropMatching(lib, kept, t.pathUnmatch.value) else kept;
    if Truthy(t.pathMatch) && |kept| > 0 {
      assert kept[0] in kept;
    }
    if Truthy(t.pathUnmatch) && |left| > 0 {
      assert left[0] in left;
    }
  }

  /** With a type on the live field, "string" accepts exactly the three string-like types. */
  lemma StringGroup(liveType: string)
    requires liveType != ""
    ensures MappingTypeAccepts(Some("string"), Some(liveType)) <==> liveType == "string" || liveType == "keyword" || liveType == "text"
    ensures MappingTypeAccepts(Some("*"), Some(liveType))
  {
  }

  // ---------------------------------------------------------------------
  // Worked examples, with a simplified glob.

  /** Simplified glob: `*` matches any run of characters, every other character itself. */
  function StarGlob(name: string, pattern: string): bool
    decreases |pattern| + |name|
  {
    if pattern == [] then name == []
    else if pattern[0] == '*' then StarGlob(name, pattern[1..]) || (name != [] && StarGlob(name[1..], pattern))
    else name != [] && name[0] == pattern[0] && StarGlob(name[1..], pattern[1..])
  }

  /** A common star-free prefix can be dropped from name and pattern. */
  lemma {:induction false} StarGlobPrefix(a: string, name: string, pattern: string)
    requires forall i :: 0 <= i < |a| ==> a[i] != '*'
    ensures StarGlob(a + name, a + pattern) == StarGlob(name, pattern)
  {
    if a != [] {
      assert (a + name)[0] == a[0] && (a + pattern)[0] == a[0];
      assert forall i :: 0 <= i < |a[1..]| ==> a[1..][i] == a[i + 1];
      assert (a + name)[1..] == a[1..] + name;
      assert a + name != [] && a + pattern != [] && (a + pattern)[0] != '*';
      assert (a + pattern)[1..] == a[1..] + pattern;
      StarGlobPrefix(a[1..], name, pattern);
    } else {
      assert a + name == name && a + pattern == pattern;
    }
  }

  /** `*` alone matches every name. */
  lemma {:induction false} StarMatchesAll(name: string)
    ensures StarGlob(name, "*")
  {
    if name != [] {
      StarMatchesAll(name[1..]);
    }
  }

  lemma FlatPathsOfTyped(name: string, t: string)
    requires t != ""
    ensures FlatPaths(name, Typed(t)) == [name]
  {
    assert FlattenChildren(name, Typed(t), 0) == [];
    assert Flatten(name, Typed(t)) == [(name, Typed(t))];
    assert PutAll([], [(name, Typed(t))]) == PutAll([(name, Typed(t))], []);
  }

  function Glob(regex: (string, string) -> bool): PatternLib {
    PatternLib(StarGlob, regex)
  }

  function Only(name: string, t: Template): Option<seq<NamedTemplate>> {
    Some([(name, t)])
  }

  /** `{ match: "category_name_*", match_mapping_type: "string" }` explains a text field `category_name_0`, not a boolean one. */
  lemma CategoryNameTemplate(regex: (string, string) -> bool)
    ensures var t := Template(Some("category_name_*"), None, None, None, None, Some("string"), Typed("keyword"));
            IsDynamicField(Glob(regex), Only("category_names", t), "category_name_0", Typed("text")) &&
            !IsDynamicField(Glob(regex), Only("category_names", t), "category_name_0", Typed("boolean"))
  {
    var t := Template(Some("category_name_*"), None, None, None, None, Some("string"), Typed("keyword"));
    StarGlobPrefix("category_name_", "0", "*");
    StarMatchesAll("0");
    assert "category_name_" + "0" == "category_name_0";
    assert "category_name_" + "*" == "category_name_*";
    assert TemplateApplies(Glob(regex), t, "category_name_0", Typed("text"));
    assert !TemplateApplies(Glob(regex), t, "category_name_0", Typed("boolean"));
  }

  /** For a leaf field the path filters test the field's own name. */
  lemma TypedLeafApplies(lib: PatternLib, t: Template, name: string, ty: string)
    requires ty != ""
    ensures TemplateApplies(lib, t, name, Typed(ty)) <==>
      && (Truthy(t.matchName) ==>
            if Truthy(t.matchPattern) then lib.regex(name, t.matchName.value) else lib.glob(name, t.matchName.value))
      && (Truthy(t.unmatchName) ==> !lib.glob(name, t.unmatchName.value))
      && (Truthy(t.pathMatch) ==> lib.glob(name, t.pathMatch.value))
      && (Truthy(t.pathUnmatch) ==> !lib.glob(name, t.pathUnmatch.value))
      && MappingTypeAccepts(t.matchMappingType, Some(ty))
  {
    FlatPathsOfTyped(name, ty);
    assert forall p :: p in Keys(Flatten(name, Typed(ty))) <==> p == name;
    TemplateAppliesIff(lib, t, name, Typed(ty));
  }

  /** The template of the `path_match` examples: `{ path_match: "test_*", path_unmatch: "test_nope_*", match_mapping_type: "string" }`. */
  function TestPathTemplate(): Template {
    Template(None, None, None, Some("test_*"), Some("test_nope_*"), Some("string"), Typed("text"))
  }

  /** A text field `test_prop` passes both path filters. */
  lemma PathMatchAccepts(regex: (string, string) -> bool)
    ensures IsDynamicField(Glob(regex), Only("test", TestPathTemplate()), "test_prop", Typed("text"))
  {
    assert "test_" + "prop" == "test_prop";
    assert "test_" + "*" == "test_*";
    assert "test_" + "nope_*" == "test_nope_*";
    StarGlobPrefix("test_", "prop", "*");
    StarGlobPrefix("test_", "prop", "nope_*");
    StarMatchesAll("prop");
    assert !StarGlob("prop", "nope_*");
    TypedLeafApplies(Glob(regex), TestPathTemplate(), "test_prop", "text");
  }

  /** `test_nope_exclude_me` is removed by `path_unmatch`. */
  lemma PathUnmatchRejects(regex: (string, string) -> bool)
    ensures !IsDynamicField(Glob(regex), Only("test", TestPathTemplate()), "test_nope_exclude_me", Typed("text"))
  {
    assert "test_nope_" + "exclude_me" == "test_nope_exclude_me";
    assert "test_nope_" + "*" == "test_nope_*";
    StarGlobPrefix("test_nope_", "exclude_me", "*");
    StarMatchesAll("exclude_me");
    TypedLeafApplies(Glob(regex), TestPathTemplate(), "test_nope_exclude_me", "text");
  }

  /** A boolean `test_wrong_type` fails the "string" type test. */
  lemma PathMatchWrongType(regex: (string, string) -> bool)
    ensures !IsDynamicField(Glob(regex), Only("test", TestPathTemplate()), "test_wrong_type", Typed("boolean"))
  {
    TypedLeafApplies(Glob(regex), TestPathTemplate(), "test_wrong_type", "boolean");
  }

  /** `not_applicable` fails `path_match`. */
  lemma PathMatchMisses(regex: (string, string) -> bool)
    ensures !IsDynamicField(Glob(regex), Only("test", TestPathTemplate()), "not_applicable", Typed("keyword"))
  {
    assert !StarGlob("not_applicable", "test_*");
    TypedLeafApplies(Glob(regex), TestPathTemplate(), "not_applicable", "keyword");
  }

  /** `manager.name.first` is one of the paths written under `manager`. */
  lemma ManagerFirstPath()
    ensures "manager.name.first" in Keys(Flatten("manager", Manager()))
  {
    FlattenManagerEntries();
    assert Keys(Flatten("manager", Manager()))[1] == "manager.name.first";
  }

  /** `{ path_match: "manager.name.*" }` explains the typeless container `manager` through its nested names. */
  lemma NestedPathTemplate(regex: (string, string) -> bool)
    ensures IsDynamicField(Glob(regex),
              Only("full_name", Template(None, None, None, Some("manager.name.*"), None, None, Typed("text"))),
              "manager", Manager())
  {
    var t := Template(None, None, None, Some("manager.name.*"), None, None, Typed("text"));
    ManagerFirstPath();
    assert "manager.name." + "first" == "manager.name.first";
    assert "manager.name." + "*" == "manager.name.*";
    StarGlobPrefix("manager.name.", "first", "*");
    StarMatchesAll("first");
    TemplateAppliesIff(Glob(regex), t, "manager", Manager());
  }

  /** A template with only `match_mapping_type: "*"` explains any field. */
  lemma AnyTypeTemplate(lib: PatternLib, name: string, live: Field)
    ensures IsDynamicField(lib, Only("test", Template(None, None, None, None, None, Some("*"), Typed("text"))), name, live)
  {
    assert TemplateApplies(lib, Template(None, None, None, None, None, Some("*"), Typed("text")), name, live);
  }
}
