/**
 * The values the reconciliation engine works on: Elasticsearch field
 * mappings, dynamic templates, analyzers, the declared schema and the
 * remediation tasks an audit queues.
 *
 * A JavaScript object whose key order matters is an association list
 * `seq<(string, T)>` in insertion order; `obj[k]` is `Lookup`, which takes the
 * first entry with that key, and `k in obj` is `k in Keys(obj)`.
 */
module Schema {

  datatype Option<+T> = None | Some(value: T)

  /** The keys of an association list, in order. */
  function Keys<T>(s: seq<(string, T)>): (ks: seq<string>)
    ensures |ks| == |s|
    ensures forall i :: 0 <= i < |s| ==> ks[i] == s[i].0
  {
    seq(|s|, i requires 0 <= i < |s| => s[i].0)
  }

  /** `obj[k]` for a key that is present: the value of the first entry named `k`. */
  function Lookup<T>(s: seq<(string, T)>, k: string): (v: T)
    requires k in Keys(s)
    ensures (k, v) in s
  {
    if s[0].0 == k then s[0].1
    else
      assert Keys(s[1..]) == Keys(s)[1..];
      Lookup(s[1..], k)
  }

  /** `Lookup` answers with the first entry that carries the key. */
  lemma {:induction false} LookupFirst<T>(s: seq<(string, T)>, k: string, i: nat)
    requires i < |s| && s[i].0 == k
    requires forall j :: 0 <= j < i ==> s[j].0 != k
    ensures k in Keys(s) && Lookup(s, k) == s[i].1
  {
    assert Keys(s)[i] == k;
    if i > 0 {
      assert Keys(s[1..]) == Keys(s)[1..];
      LookupFirst(s[1..], k, i - 1);
    }
  }

  /** JavaScript truthiness of an optional string: present and not "". */
  predicate Truthy(s: Option<string>) {
    s.Some? && s.value != ""
  }

  /** JavaScript truthiness of an optional boolean flag such as `include_in_all`. */
  predicate FlagOn(b: Option<bool>) {
    b == Some(true)
  }

  /**
   * The `index` attribute of a field: absent, a boolean (Elasticsearch 5) or
   * one of the strings "no", "not_analyzed", "analyzed" (Elasticsearch 2.4).
   */
  datatype IndexValue = IndexAbsent | IndexFlag(flag: bool) | IndexText(text: string)

  /**
   * One field mapping, declared or live. Attributes the engine never reads
   * (format, copy_to, ...) are not represented. `fields` is the multi-field
   * table, whose presence matters; `properties` holds the children of an
   * object field, and an absent table behaves as an empty one everywhere it
   * is read.
   */
  datatype Field = Field(
    fieldType: Option<string>,
    index: IndexValue,
    analyzer: Option<string>,
    enabled: Option<bool>,
    includeInAll: Option<bool>,
    fields: Option<seq<(string, Field)>>,
    properties: seq<(string, Field)>)

  /** `obj.type` is truthy. */
  predicate HasType(f: Field) {
    Truthy(f.fieldType)
  }

  /** A field with nothing but a type. */
  function Typed(t: string): (f: Field)
    ensures HasType(f) <==> t != ""
  {
    Field(Some(t), IndexAbsent, None, None, None, None, [])
  }

  /**
   * The body of one dynamic template. In the schema each template is a
   * single-key object `{ name: body }`, modelled as a pair.
   */
  datatype Template = Template(
    matchName: Option<string>,
    matchPattern: Option<string>,
    unmatchName: Option<string>,
    pathMatch: Option<string>,
    pathUnmatch: Option<string>,
    matchMappingType: Option<string>,
    mapping: Field)

  type NamedTemplate = (string, Template)

  /** One doc type section of the mappings. */
  datatype TypeMapping = TypeMapping(
    properties: seq<(string, Field)>,
    dynamicTemplates: Option<seq<NamedTemplate>>)

  /** `char_filter` and `filter` of an analyzer: absent, one name, or an array of names. */
  datatype FilterList = Unset | Single(name: string) | Names(names: seq<string>)

  datatype Analyzer = Analyzer(
    analyzerType: Option<string>,
    charFilter: FilterList,
    tokenizer: Option<string>,
    filter: FilterList)

  /**
   * The declared schema. `analyzers` is `settings.analysis.analyzer`, None
   * when `settings`, `settings.analysis` or `settings.analysis.analyzer` is
   * absent.
   */
  datatype IndexSchema = IndexSchema(
    analyzers: Option<seq<(string, Analyzer)>>,
    mappings: seq<(string, TypeMapping)>)

  /** `settings.index` of a live index, as read back from the cluster. */
  datatype LiveSettings = LiveSettings(analysis: Option<LiveAnalysis>)
  datatype LiveAnalysis = LiveAnalysis(analyzer: Option<seq<(string, Analyzer)>>)

  /** A remediation task queued by an audit; it names what it adds. */
  datatype Task =
    | PutType(typeName: string)                          // whole doc type section
    | PutTemplates(typeName: string, templateName: string) // resends every declared template of the type
    | PutField(typeName: string, field: string)          // one property
    | PutAnalyzer(analyzerName: string)                  // one analyzer

  /** What an audit of the declared schema against the live index decides. */
  datatype Audit = Audit(consistent: bool, tasks: seq<Task>)
}
