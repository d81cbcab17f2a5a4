/**
 * `_normalizeIndexValue` and `_checkMappingField`: how one declared field
 * mapping is compared with the mapping Elasticsearch reports for it.
 *
 * The human-readable reason string the source accumulates is modelled as the
 * list of findings it is made of, in the order they are appended; the
 * wording of each message is not modelled.
 */
module FieldDiff {
  import opened Schema

  /** One clause of the reason string. */
  datatype Finding =
    | BasicMismatch                      // simple field: type/index/analyzer/include_in_all
    | ComplexMismatch                    // multi-field parent: include_in_all
    | SubFieldMissing(name: string)      // declared sub-field absent from the index
    | SubFieldMismatch(name: string)     // sub-field type/index/analyzer differ
    | SubFieldsRemoved(names: seq<string>) // live sub-fields no longer declared

  /**
   * `_normalizeIndexValue(type, val)`: a boolean is kept; for a "string"
   * field only "analyzed" counts as indexed (so "no" and "not_analyzed" are
   * deliberately lumped together); for any other type everything but "no"
   * counts as indexed, including an absent value.
   */
  function NormalizeIndex(fieldType: Option<string>, v: IndexValue): bool {
    if v.IndexFlag? then v.flag
    else if fieldType == Some("string") then v == IndexText("analyzed")
    else v != IndexText("no")
  }

  /** `existing.enabled === false` and `actual.enabled === false`: the simple comparison is skipped. */
  predicate BothDisabled(declared: Field, live: Field) {
    declared.enabled == Some(false) && live.enabled == Some(false)
  }

  /** The simple-field test: type, normalised index and analyzer by strict equality, include_in_all by truthiness. */
  predicate BasicDiffers(declared: Field, live: Field) {
    || declared.fieldType != live.fieldType
    || NormalizeIndex(declared.fieldType, declared.index) != NormalizeIndex(live.fieldType, live.index)
    || declared.analyzer != live.analyzer
    || FlagOn(declared.includeInAll) != FlagOn(live.includeInAll)
  }

  /** A sub-field of a multi-field is compared on type, raw index value and analyzer. */
  predicate SameSubField(declared: Field, live: Field) {
    declared.fieldType == live.fieldType && declared.index == live.index && declared.analyzer == live.analyzer
  }

  /** What the check of one declared sub-field contributes. */
  function SubFieldFinding(declared: seq<(string, Field)>, live: Option<seq<(string, Field)>>, name: string): Option<Finding>
    requires name in Keys(declared)
  {
    if live.None? || name !in Keys(live.value) then Some(SubFieldMissing(name))
    else if !SameSubField(Lookup(declared, name), Lookup(live.value, name)) then Some(SubFieldMismatch(name))
    else None
  }

  function AsList(o: Option<Finding>): seq<Finding> {
    if o.Some? then [o.value] else []
  }

  /** The findings of the first `n` declared sub-fields, in declaration order. */
  function SubFieldFindings(declared: seq<(string, Field)>, live: Option<seq<(string, Field)>>, n: nat): seq<Finding>
    requires n <= |declared|
  {
    if n == 0 then []
    else
      assert Keys(declared)[n - 1] == declared[n - 1].0;
      SubFieldFindings(declared, live, n - 1) + AsList(SubFieldFinding(declared, live, declared[n - 1].0))
  }

  /** `ks.filter((k) => !known.has(k))`, order kept. */
  function Unlisted(ks: seq<string>, known: seq<string>): (r: seq<string>)
    ensures forall k :: k in r <==> k in ks && k !in known
  {
    if ks == [] then []
    else Unlisted(ks[..|ks| - 1], known) + (if ks[|ks| - 1] in known then [] else [ks[|ks| - 1]])
  }

  /** The keys of `actual.fields || []` that no declared sub-field covers. */
  function DeadSubFields(declared: seq<(string, Field)>, live: Option<seq<(string, Field)>>): seq<string> {
    Unlisted(if live.Some? then Keys(live.value) else [], Keys(declared))
  }

  /** Everything `_checkMappingField(declared, live)` appends to its reason string. */
  function FieldFindings(declared: Field, live: Field): seq<Finding> {
    if declared.fields.None? then
      if !BothDisabled(declared, live) && BasicDiffers(declared, live) then [BasicMismatch] else []
    else MultiFieldFindings(declared, live)
  }

  /** What the comparison of a declared multi-field appends. */
  function MultiFieldFindings(declared: Field, live: Field): seq<Finding>
    requires declared.fields.Some?
  {
    var subs := declared.fields.value;
    var dead := DeadSubFields(subs, live.fields);
    (if FlagOn(declared.includeInAll) != FlagOn(live.includeInAll) then [ComplexMismatch] else [])
    + SubFieldFindings(subs, live.fields, |subs|)
    + (if dead != [] then [SubFieldsRemoved(dead)] else [])
  }

  /** The field agrees with its live mapping. */
  predicate FieldConsistent(declared: Field, live: Field) {
    FieldFindings(declared, live) == []
  }

  /**
   * `_checkMappingField(existing, actual, property)`: one pass over the
   * declared sub-fields recording which were checked, then a pass over the
   * live sub-fields collecting those never checked.
   */
  method CheckMappingField(existing: Field, actual: Field) returns (consistent: bool, findings: seq<Finding>)
    ensures findings == FieldFindings(existing, actual)
    ensures consistent <==> findings == []
  {
    if existing.fields.None? {
      consistent := true;
      findings := [];
      if existing.enabled != Some(false) || actual.enabled != Some(false) {
        if BasicDiffers(existing, actual) {
          findings := [BasicMismatch];
          consistent := false;
        }
      }
    } else {
      consistent, findings := CheckMultiField(existing, actual);
    }
  }

  /** The multi-field branch of `_checkMappingField`. */
  method CheckMultiField(existing: Field, actual: Field) returns (consistent: bool, findings: seq<Finding>)
    requires existing.fields.Some?
    ensures findings == MultiFieldFindings(existing, actual)
    ensures consistent <==> findings == []
  {
    consistent := true;
    findings := [];
    if FlagOn(existing.includeInAll) != FlagOn(actual.includeInAll) {
      findings := [ComplexMismatch];
      consistent := false;
    }
    var subs := existing.fields.value;
    var subFindings, checked := CheckSubFields(subs, actual.fields);
    findings := findings + subFindings;
    consistent := consistent && subFindings == [];
    var liveKeys := if actual.fields.Some? then Keys(actual.fields.value) else [];
    var dead := CollectDead(liveKeys, checked, Keys(subs));
    if |dead| > 0 {
      findings := findings + [SubFieldsRemoved(dead)];
      consistent := false;
    }
  }

  /** The `forEach` over the declared sub-fields: their findings, and the set of names checked. */
  method CheckSubFields(subs: seq<(string, Field)>, liveFields: Option<seq<(string, Field)>>)
    returns (findings: seq<Finding>, checked: set<string>)
    ensures findings == SubFieldFindings(subs, liveFields, |subs|)
    ensures forall k :: k in checked <==> k in Keys(subs)
  {
    findings := [];
    checked := {};
    for i := 0 to |subs|
      invariant findings == SubFieldFindings(subs, liveFields, i)
      invariant forall k :: k in checked <==> k in Keys(subs)[..i]
    {
      var field := subs[i].0;
      assert Keys(subs)[i] == field;
      assert Keys(subs)[..i + 1] == Keys(subs)[..i] + [field];
      if liveFields.None? || field !in Keys(liveFields.value) {
        findings := findings + [SubFieldMissing(field)];
      } else if !SameSubField(Lookup(subs, field), Lookup(liveFields.value, field)) {
        findings := findings + [SubFieldMismatch(field)];
      }
      checked := checked + {field};
    }
    assert Keys(subs)[..|subs|] == Keys(subs);
  }

  /** The `deadFields` filter: the live names not in the checked set, in live order. */
  method CollectDead(liveKeys: seq<string>, checked: set<string>, known: seq<string>) returns (dead: seq<string>)
    requires forall k :: k in checked <==> k in known
    ensures dead == Unlisted(liveKeys, known)
  {
    dead := [];
    for i := 0 to |liveKeys|
      invariant dead == Unlisted(liveKeys[..i], known)
    {
      assert liveKeys[..i + 1][..i] == liveKeys[..i];
      if liveKeys[i] !in checked {
        dead := dead + [liveKeys[i]];
      }
    }
    assert liveKeys[..|liveKeys|] == liveKeys;
  }

  // ---------------------------------------------------------------------
  // Properties of the comparison.

  lemma {:induction false} SubFieldFindingsEmpty(declared: seq<(string, Field)>, live: Option<seq<(string, Field)>>, n: nat)
    requires n <= |declared|
    ensures SubFieldFindings(declared, live, n) == [] <==>
            forall i :: 0 <= i < n ==> declared[i].0 in Keys(declared) && SubFieldFinding(declared, live, declared[i].0).None?
  {
    if n > 0 {
      SubFieldFindingsEmpty(declared, live, n - 1);
      assert Keys(declared)[n - 1] == declared[n - 1].0;
    }
  }

  lemma {:induction false} SubFieldFindingsMember(declared: seq<(string, Field)>, live: Option<seq<(string, Field)>>, n: nat, f: Finding)
    requires n <= |declared|
    ensures f in SubFieldFindings(declared, live, n) <==>
            exists i :: 0 <= i < n && declared[i].0 in Keys(declared) && SubFieldFinding(declared, live, declared[i].0) == Some(f)
  {
    if n > 0 {
      SubFieldFindingsMember(declared, live, n - 1, f);
      assert Keys(declared)[n - 1] == declared[n - 1].0;
    }
  }

  /** Comparing a mapping with itself reports nothing. */
  lemma FieldReflexive(f: Field)
    ensures FieldFindings(f, f) == []
  {
    if f.fields.Some? {
      var subs := f.fields.value;
      forall i | 0 <= i < |subs|
        ensures subs[i].0 in Keys(subs) && SubFieldFinding(subs, f.fields, subs[i].0).None?
      {
        assert Keys(subs)[i] == subs[i].0;
      }
      SubFieldFindingsEmpty(subs, f.fields, |subs|);
      NoDeadSubFields(subs, f.fields);
    }
  }

  /**
   * A field without `fields` is consistent exactly when both sides are
   * disabled, or type, normalised index, analyzer and include_in_all agree.
   */
  lemma SimpleFieldConsistentIff(declared: Field, live: Field)
    requires declared.fields.None?
    ensures FieldConsistent(declared, live) <==>
            BothDisabled(declared, live) ||
            (&& declared.fieldType == live.fieldType
             && NormalizeIndex(declared.fieldType, declared.index) == NormalizeIndex(live.fieldType, live.index)
             && declared.analyzer == live.analyzer
             && FlagOn(declared.includeInAll) == FlagOn(live.includeInAll))
    ensures !FieldConsistent(declared, live) ==> FieldFindings(declared, live) == [BasicMismatch]
  {
  }

  /**
   * A multi-field is consistent exactly when include_in_all agrees, every
   * declared sub-field exists live with the same type, raw index and
   * analyzer, and every live sub-field is declared; the parent's own type,
   * index and analyzer play no part.
   */
  lemma {:induction false} MultiFieldConsistentIff(declared: Field, live: Field)
    requires declared.fields.Some?
    ensures FieldConsistent(declared, live) <==>
            && FlagOn(declared.includeInAll) == FlagOn(live.includeInAll)
            && (forall k :: k in Keys(declared.fields.value) ==>
                  live.fields.Some? && k in Keys(live.fields.value) &&
                  SameSubField(Lookup(declared.fields.value, k), Lookup(live.fields.value, k)))
            && (live.fields.Some? ==> forall k :: k in Keys(live.fields.value) ==> k in Keys(declared.fields.value))
  {
    var subs := declared.fields.value;
    SubFieldFindingsAgree(subs, live.fields);
    NoDeadSubFields(subs, live.fields);
  }

  lemma SubFieldFindingsAgree(subs: seq<(string, Field)>, live: Option<seq<(string, Field)>>)
    ensures SubFieldFindings(subs, live, |subs|) == [] <==>
            forall k :: k in Keys(subs) ==> live.Some? && k in Keys(live.value) && SameSubField(Lookup(subs, k), Lookup(live.value, k))
  {
    SubFieldFindingsEmpty(subs, live, |subs|);
    if SubFieldFindings(subs, live, |subs|) == [] {
      forall k | k in Keys(subs)
        ensures live.Some? && k in Keys(live.value) && SameSubField(Lookup(subs, k), Lookup(live.value, k))
      {
        var i :| 0 <= i < |subs| && Keys(subs)[i] == k;
        assert SubFieldFinding(subs, live, subs[i].0).None?;
      }
    } else {
      var i :| 0 <= i < |subs| && !(subs[i].0 in Keys(subs) && SubFieldFinding(subs, live, subs[i].0).None?);
      assert Keys(subs)[i] == subs[i].0;
    }
  }

  lemma NoDeadSubFields(subs: seq<(string, Field)>, live: Option<seq<(string, Field)>>)
    ensures DeadSubFields(subs, live) == [] <==> (live.Some? ==> forall k :: k in Keys(live.value) ==> k in Keys(subs))
  {
    var dead := DeadSubFields(subs, live);
    if dead != [] {
      assert dead[0] in dead;
    }
  }

  /** A declared sub-field is reported missing exactly when the live mapping has no sub-field of that name. */
  lemma SubFieldMissingReported(declared: Field, live: Field, k: string)
    requires declared.fields.Some? && k in Keys(declared.fields.value)
    ensures SubFieldMissing(k) in FieldFindings(declared, live) <==> live.fields.None? || k !in Keys(live.fields.value)
  {
    var subs := declared.fields.value;
    SubFieldFindingsMember(subs, live.fields, |subs|, SubFieldMissing(k));
    if live.fields.None? || k !in Keys(live.fields.value) {
      var i :| 0 <= i < |subs| && Keys(subs)[i] == k;
      assert subs[i].0 == k;
    }
  }

  /** A live sub-field the declaration lacks is listed as removed from the schema. */
  lemma DeadSubFieldReported(declared: Field, live: Field, k: string)
    requires declared.fields.Some? && live.fields.Some?
    requires k in Keys(live.fields.value) && k !in Keys(declared.fields.value)
    ensures exists names :: SubFieldsRemoved(names) in FieldFindings(declared, live) && k in names
  {
    var dead := DeadSubFields(declared.fields.value, live.fields);
    assert k in dead;
    assert SubFieldsRemoved(dead) in FieldFindings(declared, live);
  }

  // ---------------------------------------------------------------------
  // `_normalizeIndexValue` cases.

  /** An absent index counts as indexed except on a "string" field. */
  lemma NormalizeAbsent(fieldType: Option<string>)
    ensures NormalizeIndex(fieldType, IndexAbsent) <==> fieldType != Some("string")
  {
  }

  /** On a "string" field "no" and "not_analyzed" are not told apart; on a "long" field they are. */
  lemma NormalizeNoVersusNotAnalyzed()
    ensures NormalizeIndex(Some("string"), IndexText("no")) == NormalizeIndex(Some("string"), IndexText("not_analyzed"))
    ensures NormalizeIndex(Some("long"), IndexText("no")) != NormalizeIndex(Some("long"), IndexText("not_analyzed"))
    ensures NormalizeIndex(Some("long"), IndexText("not_analyzed")) == NormalizeIndex(Some("long"), IndexFlag(true))
  {
  }

  // ---------------------------------------------------------------------
  // Worked cases.

  function LongField(index: IndexValue): Field {
    Field(Some("long"), index, None, None, None, None, [])
  }

  /** A `long` declared with index "no" or false no longer matches a live `long` that reports no index. */
  lemma LongIndexChange()
    ensures FieldConsistent(LongField(IndexText("not_analyzed")), LongField(IndexAbsent))
    ensures FieldFindings(LongField(IndexText("no")), LongField(IndexAbsent)) == [BasicMismatch]
    ensures FieldFindings(LongField(IndexFlag(false)), LongField(IndexAbsent)) == [BasicMismatch]
  {
  }

  /** Two sides both `enabled: false` are never compared, one side alone does not suffice. */
  lemma DisabledSkipsComparison(declared: Field, live: Field)
    requires declared.fields.None? && declared.fieldType != live.fieldType
    ensures FieldConsistent(declared, live) <==> declared.enabled == Some(false) && live.enabled == Some(false)
  {
  }

  function MultiField(parentType: string, subs: seq<(string, Field)>): Field {
    Field(Some(parentType), IndexAbsent, None, None, None, Some(subs), [])
  }

  /** The parent's own type is not compared once it has `fields`. */
  lemma MultiFieldParentTypeIgnored()
    ensures FieldConsistent(MultiField("text", [("raw", Typed("keyword"))]), MultiField("keyword", [("raw", Typed("keyword"))]))
  {
    FieldReflexive(MultiField("keyword", [("raw", Typed("keyword"))]));
  }

  /** Sub-fields compare the raw index: an absent index and `true` differ although both normalise to indexed. */
  lemma SubFieldRawIndex()
    ensures var live := Field(Some("keyword"), IndexFlag(true), None, None, None, None, []);
            NormalizeIndex(live.fieldType, live.index) == NormalizeIndex(Some("keyword"), IndexAbsent) &&
            FieldFindings(MultiField("text", [("raw", Typed("keyword"))]), MultiField("text", [("raw", live)]))
              == [SubFieldMismatch("raw")]
  {
    var live := Field(Some("keyword"), IndexFlag(true), None, None, None, None, []);
    assert Keys([("raw", live)]) == ["raw"];
    assert Keys([("raw", Typed("keyword"))]) == ["raw"];
    assert ["raw"][..0] == [];
    assert DeadSubFields([("raw", Typed("keyword"))], Some([("raw", live)])) == [];
    assert SubFieldFinding([("raw", Typed("keyword"))], Some([("raw", live)]), "raw") == Some(SubFieldMismatch("raw"));
    assert SubFieldFindings([("raw", Typed("keyword"))], Some([("raw", live)]), 1) == [SubFieldMismatch("raw")];
  }

  /** A property that gains `fields` in the schema reports each declared sub-field missing. */
  lemma PropertyBecomesMultiField()
    ensures FieldFindings(MultiField("text", [("analyzed", Typed("text"))]), Typed("text")) == [SubFieldMissing("analyzed")]
  {
    assert Keys([("analyzed", Typed("text"))]) == ["analyzed"];
    assert SubFieldFinding([("analyzed", Typed("text"))], None, "analyzed") == Some(SubFieldMissing("analyzed"));
    assert SubFieldFindings([("analyzed", Typed("text"))], None, 1) == [SubFieldMissing("analyzed")];
    assert DeadSubFields([("analyzed", Typed("text"))], None) == [];
  }
}
