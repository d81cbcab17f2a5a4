# Schema reconciliation of ElasticService

`ElasticService` keeps the declared schema of one Elasticsearch index in step
with the live index. Elasticsearch does not allow an existing field's type or
analyzer to change in place, so the service is conservative:

- it adds what is missing (doc types, properties, dynamic templates, analyzers);
- it reports every other difference as an inconsistency;
- it never changes or removes a field mapping or an analyzer that is already
  on the index. Dynamic templates are the exception: adding a missing template
  resends the doc type's whole declared template list, which replaces the live
  list (ElasticService.js:264-282).

This project models that reconciliation core in Dafny and proves properties of
the model.

- **Schema** (`schema.dfy`). The declared and live schema values are field
  mappings, dynamic templates, doc types, analyzers and the remediation tasks
  an audit queues. A JavaScript object is an association list in insertion
  order. `obj[k]` takes the first entry with that key.
- **Analyzers** (`analyzers.dfy`). This is the analyzer comparison of
  `_checkSettingsConsistency`. `char_filter` and `filter` are compared through
  `[].concat(x).join()`, so order matters and a comma inside a name collides
  with two names.
- **Flattening** (`flatten.dfy`). This is `flattenProps`: the recursive walk
  that writes every typed node of an object field under its dotted path. It
  is a method proved against a function, and the function is proved sound
  and complete with respect to the paths that reach typed nodes.
- **DynamicTemplates** (`dynamic_templates.dfy`). This is
  `_isThisPerhapsADynamicField`: whether some declared dynamic template
  produces a live property the schema does not name. Minimatch and
  `RegExp` enter as parameters. Worked examples use a `*`-only glob.
- **FieldDiff** (`field_diff.dfy`). This covers `_normalizeIndexValue` and
  `_checkMappingField`. The reason string is modelled as the list of findings
  it is made of.
- **SettingsAudit** and **MappingAudit** (`settings_audit.dfy`,
  `mapping_audit.dfy`). These are the audit loops of
  `_checkSettingsConsistency` and `_checkMappingConsistency`, as methods
  proved equal to specification functions. They give a verdict and an
  ordered task list.
- **MappingLaws** (`mapping_laws.dfy`). These are properties of the mapping
  audit: exactly what is queued, and what makes it inconsistent.
- **Payloads** (`payloads.dfy`). These are the request bodies `_putMapping`,
  `_putMappingField`, `_putDynamicTemplate` and `_putAnalyzer` build. Every
  queued task carries the declared definition it names.
- **Protocol** (`protocol.dfy`). This is the request sequence of the two
  checks and of `ensure`, as functions of the audits and of a script saying
  whether each request succeeds.
- **Service** (`service.dfy`). This is the service as an object over a
  client object that logs requests. Every method is proved to make exactly
  the requests, and to return exactly the result, the protocol functions
  give.

Where the intended design of the service and its code disagree, the model
follows the code:

- A simple field's comparison is skipped only when both sides have
  `enabled: false` (ElasticService.js:587-601), not when either side has it.
- For a multi-field, the parent is compared on `include_in_all` only. Its
  type, index and analyzer are not compared (ElasticService.js:602-646).
- Sub-fields are compared on the raw `index` value, not the normalised one
  (ElasticService.js:626-628).
- `_normalizeIndexValue` keeps a boolean as it is. For a non-`string` type it
  treats every non-boolean value other than `"no"` as indexed, an absent value
  included. Only `"analyzed"` counts
  for `string` (ElasticService.js:564-574).
- Analyzer filter lists are compared as comma-joined strings, not as
  sequences (ElasticService.js:691-694).
- Without declared analyzers, nothing is checked. Live analyzers are then not
  reported as orphaned (ElasticService.js:744-746).
- A failed analyzer task inside the close/reopen bracket is not an error.
  The error handed on is the reopen's, and the failure shows only as an
  inconsistent verdict (ElasticService.js:711-742).
- `match_mapping_type` is not part of the template comparison
  (ElasticService.js:455-460).
- When `exists` fails, `ensure` reports `created` as true. `exists` hands on
  `false` with its error, and the final callback reports `!exists`
  (ElasticService.js:46-48, 804-806).

## Model

| member | source | states |
|---|---|---|
| Schema.Keys | ElasticService.js:304 | `Object.keys` of an association list: one key per entry, in entry order |
| Schema.Lookup | ElasticService.js:304-305 | the value read for a present key is an entry of the object under that key |
| Schema.LookupFirst | ElasticService.js:304-305 | `obj[k]` answers with the first entry carrying the key |
| Schema.Typed | ElasticService.js:297-299 | a field with a non-empty type is a typed node, one with an empty type is not |
| Analyzers.JoinInjective | ElasticService.js:692-694 | non-empty lists of comma-free names join to the same string only when they are the same list |
| Analyzers.FilterOrderMatters | ElasticService.js:691-695 | two analyzers differing only in filter order are not the same analyzer |
| Analyzers.EquivalentShapes | ElasticService.js:692-694 | an absent filter list equals an empty array, and a single name equals a one-element array |
| Analyzers.CommaCollision | ElasticService.js:692-694 | a name containing a comma cannot be told from two names |
| Analyzers.SameAnalyzerReflexive | ElasticService.js:691-695 | every analyzer matches itself |
| Flattening.PutKeys | ElasticService.js:298 | writing a key adds exactly that key to the keys of the object |
| Flattening.PutNew | ElasticService.js:298 | writing a fresh key appends one entry at the end |
| Flattening.PutAllAppend | ElasticService.js:303-306 | writing two batches one after the other is writing their concatenation |
| Flattening.PutAllKeys | ElasticService.js:303-306 | after writing a batch, the keys are the old keys together with the batch's keys |
| Flattening.PutAllFresh | ElasticService.js:303-306 | writing a batch of distinct fresh keys appends the batch unchanged |
| Flattening.FlattenProps | ElasticService.js:292-310 | the recursive walk leaves exactly `toReturn` updated with the flattened entries of the object |
| Flattening.FlatPaths | ElasticService.js:347 | the listed paths are exactly the keys of the flattened object |
| Flattening.FlattenSound | ElasticService.js:292-310 | every flattened entry is a typed node, reached from the object along the dotted path under which it is written |
| Flattening.ChildrenSound | ElasticService.js:303-306 | every entry contributed by the children is a typed node, reached along its dotted path |
| Flattening.FlattenComplete | ElasticService.js:292-310 | every typed node reachable from the object is written under its dotted path |
| Flattening.ChildIncluded | ElasticService.js:303-306 | what one child contributes is part of what the children contribute |
| Flattening.OwnEntry | ElasticService.js:297-299 | the object's own name is written exactly when it has a type, and it is written with the object itself |
| Flattening.FlattenManagerName | test/elastic-test.js:67-85 | the `manager.name` object flattens to its two typed names |
| Flattening.FlattenManagerEntries | test/elastic-test.js:67-85 | the `manager` example flattens to `manager.age`, `manager.name.first` and `manager.name.last` |
| Flattening.FlattenManager | test/elastic-test.js:67-85 | flattening the `manager` example into an empty object gives those three entries in that order |
| DynamicTemplates.KeepMatching | ElasticService.js:349-352 | the kept paths are exactly the given paths that match the `path_match` glob |
| DynamicTemplates.DropMatching | ElasticService.js:355-358 | the kept paths are exactly the given paths that do not match the `path_unmatch` glob |
| DynamicTemplates.FirstApplicable | ElasticService.js:330-375 | the answer is the first template that applies, and no earlier one applies; or no template applies at all |
| DynamicTemplates.DynamicIffSomeTemplate | ElasticService.js:320-376 | a property is dynamic exactly when some declared template of its type applies; a type without templates explains nothing |
| DynamicTemplates.TemplateAppliesIff | ElasticService.js:330-375 | a template applies exactly when its name test, unmatch test, path tests (some written path passes) and type test all hold |
| DynamicTemplates.StringGroup | ElasticService.js:360-370 | `"string"` accepts exactly `string`, `keyword` and `text`, and `"*"` accepts every type |
| DynamicTemplates.StarGlobPrefix | ElasticService.js:337 | for the simplified `*`-only glob of the worked examples (not Minimatch), a common star-free prefix of name and pattern does not change the match |
| DynamicTemplates.StarMatchesAll | ElasticService.js:337 | for the simplified `*`-only glob of the worked examples (not Minimatch), `*` matches every name |
| DynamicTemplates.FlatPathsOfTyped | ElasticService.js:325-347 | a typed leaf is written under its own name only |
| DynamicTemplates.TypedLeafApplies | ElasticService.js:330-375 | for a leaf field, the path filters test the field's own name |
| DynamicTemplates.CategoryNameTemplate | test/elastic-test.js:253-283 | the `category_name_*` string template explains a text `category_name_0` and not a boolean one |
| DynamicTemplates.PathMatchAccepts | test/elastic-test.js:324-332 | `test_prop` passes `path_match: test_*`, escapes `path_unmatch` and is a string type |
| DynamicTemplates.PathUnmatchRejects | test/elastic-test.js:324-333 | `test_nope_exclude_me` is removed by `path_unmatch` |
| DynamicTemplates.PathMatchWrongType | test/elastic-test.js:324-334 | a boolean `test_wrong_type` fails the `"string"` type test |
| DynamicTemplates.PathMatchMisses | test/elastic-test.js:324-335 | `not_applicable` fails `path_match` |
| DynamicTemplates.ManagerFirstPath | test/elastic-test.js:380-400 | `manager.name.first` is among the paths written under `manager` |
| DynamicTemplates.NestedPathTemplate | test/elastic-test.js:380-401 | `path_match: manager.name.*` explains the typeless `manager` object through its nested names |
| DynamicTemplates.AnyTypeTemplate | test/elastic-test.js:364-371 | a template with only `match_mapping_type: "*"` explains every property |
| FieldDiff.Unlisted | ElasticService.js:640-641 | the names kept are exactly the listed names that are not known |
| FieldDiff.CheckMappingField | ElasticService.js:584-648 | the comparison reports exactly the findings of the field diff, and calls the field consistent exactly when there are none |
| FieldDiff.CheckMultiField | ElasticService.js:602-646 | the multi-field branch reports the parent's include_in_all finding, then the sub-field findings, then the sub-fields still live but no longer declared |
| FieldDiff.CheckSubFields | ElasticService.js:616-638 | one finding per declared sub-field that is missing or differs, in declaration order, and every declared sub-field is marked checked |
| FieldDiff.CollectDead | ElasticService.js:640-641 | the dead sub-fields are the live sub-field names never checked, in live order |
| FieldDiff.SubFieldFindingsEmpty | ElasticService.js:617-638 | there are no sub-field findings exactly when every declared sub-field is present and matches |
| FieldDiff.SubFieldFindingsMember | ElasticService.js:617-638 | a finding is reported exactly for a declared sub-field that is missing, or present and different |
| FieldDiff.FieldReflexive | ElasticService.js:584-648 | every field is consistent with itself |
| FieldDiff.SimpleFieldConsistentIff | ElasticService.js:587-601 | a simple field is consistent exactly when both sides are disabled or type, normalised index, analyzer and include_in_all all agree |
| FieldDiff.MultiFieldConsistentIff | ElasticService.js:602-646 | a multi-field is consistent exactly when include_in_all agrees, every declared sub-field is live and matching, and no live sub-field is undeclared |
| FieldDiff.SubFieldFindingsAgree | ElasticService.js:617-638 | no sub-field findings means every declared sub-field is live and matches |
| FieldDiff.NoDeadSubFields | ElasticService.js:640-645 | no dead sub-fields means every live sub-field is declared |
| FieldDiff.SubFieldMissingReported | ElasticService.js:619-623 | a declared sub-field is reported missing exactly when the index lacks it |
| FieldDiff.DeadSubFieldReported | ElasticService.js:640-645 | a live sub-field that is no longer declared is named among the removed sub-fields |
| FieldDiff.NormalizeAbsent | ElasticService.js:564-574 | an absent index value counts as indexed for every type but `string` |
| FieldDiff.NormalizeNoVersusNotAnalyzed | ElasticService.js:564-574 | `"no"` and `"not_analyzed"` agree for `string` fields and differ for other types, where `"not_analyzed"` means indexed |
| FieldDiff.LongIndexChange | test/elastic-test.js:423-440 | changing a `long` field's index to `"no"` or `false` is flagged, and `"not_analyzed"` is not |
| FieldDiff.DisabledSkipsComparison | ElasticService.js:587-601 | a type change on a simple field goes unreported exactly when both sides are disabled |
| FieldDiff.MultiFieldParentTypeIgnored | ElasticService.js:602-646 | a multi-field whose parent type changed is still consistent |
| FieldDiff.SubFieldRawIndex | ElasticService.js:626-628 | sub-fields compare the raw index, so `true` and `"not_analyzed"` differ there |
| FieldDiff.PropertyBecomesMultiField | test/elastic-test.js:499-521 | declaring sub-fields on a plain live property reports the new sub-field as missing |
| SettingsAudit.LiveAnalyzers | ElasticService.js:666-670 | live settings without analysis or analyzers count as an empty analyzer table |
| SettingsAudit.AuditSettings | ElasticService.js:654-708 | the audit loop gives exactly the audit the specification function defines |
| SettingsAudit.CheckDeclaredAnalyzers | ElasticService.js:677-702 | missing declared analyzers are queued in order, present ones are compared, and every declared name is marked checked |
| SettingsAudit.UnchangedByIndex | ElasticService.js:679-702 | the per-name agreement of analyzers is the per-entry agreement the loop checks |
| SettingsAudit.AnalyzerTasksMember | ElasticService.js:679-688 | an analyzer task is queued exactly for a declared analyzer the index lacks |
| SettingsAudit.SettingsTasksIff | ElasticService.js:677-702 | the settings audit queues exactly the declared analyzers the index lacks, and nothing else |
| SettingsAudit.SettingsAuditSelf | ElasticService.js:654-750 | an index holding exactly the declared analyzers needs nothing and is consistent |
| SettingsAudit.NoDeclaredAnalyzers | ElasticService.js:744-746 | a schema without analyzers never flags the settings |
| SettingsAudit.EmptyIndexGetsAll | ElasticService.js:666-688 | an index without analysis settings gets every declared analyzer, in order, and is consistent |
| SettingsAudit.AllMissing | ElasticService.js:679-688 | against an empty table, every declared analyzer is queued |
| SettingsAudit.ChangedAnalyzerFlagged | test/elastic-test.js:557-571 | a changed analyzer makes the settings inconsistent and is not re-sent |
| SettingsAudit.DeadAnalyzerFlagged | test/elastic-test.js:614-631 | a live analyzer the schema no longer declares makes the settings inconsistent |
| MappingAudit.AnyUnknown | ElasticService.js:531-537 | some name is reported unknown exactly when one is outside the checked set |
| MappingAudit.AuditTemplates | ElasticService.js:414-488 | the template loop gives exactly the template verdict and template tasks the specification defines |
| MappingAudit.AuditProperties | ElasticService.js:490-524 | the property loop gives exactly the property verdict and the tasks for missing properties |
| MappingAudit.CompareProperties | ElasticService.js:494-517 | properties on both sides are compared, missing ones are queued in order, and every declared name is marked checked |
| MappingAudit.AnyDeadProperty | ElasticService.js:519-524 | a dead property is reported exactly when some live property is neither declared nor dynamic |
| MappingAudit.AuditType | ElasticService.js:412-527 | a doc type on both sides is consistent exactly when its templates and properties are, and its tasks are the template tasks, then the property tasks |
| MappingAudit.AuditMappings | ElasticService.js:383-537 | the loop over the doc types gives exactly the audit the specification function defines |
| MappingLaws.MissingTemplatesMember | ElasticService.js:419-451 | a template task is queued exactly for a declared template not found among the live ones |
| MappingLaws.FieldTasksMember | ElasticService.js:494-504 | a property task is queued exactly for a declared property the index lacks |
| MappingLaws.TypeTasksMember | ElasticService.js:412-527 | a doc type's tasks are exactly its missing templates and its missing properties |
| MappingLaws.TypeChunkMember | ElasticService.js:399-527 | what a doc type contributes is exactly the tasks queued for that type |
| MappingLaws.MappingTasksMember | ElasticService.js:383-537 | the tasks of the first doc types are exactly the tasks queued for those types |
| MappingLaws.MappingTasksIff | ElasticService.js:383-537 | the mapping audit queues a task exactly for a missing doc type, a missing template or a missing property of a present type, and nothing else |
| MappingLaws.TemplatesSelf | ElasticService.js:414-488 | declared templates with distinct names agree with themselves |
| MappingLaws.PropertiesSelf | ElasticService.js:490-528 | properties agree with themselves |
| MappingLaws.AuditSelf | ElasticService.js:383-537 | an index whose mappings are exactly the declared ones needs nothing and is consistent |
| MappingLaws.ConsistentSelf | ElasticService.js:383-537 | mappings are consistent with themselves |
| MappingLaws.NoTasksSelf | ElasticService.js:383-537 | mappings audited against themselves queue nothing |
| MappingLaws.NothingQueuedSelf | ElasticService.js:383-537 | no task is queued when the live mappings are the declared ones |
| MappingLaws.MissingTypeQueuedWhole | ElasticService.js:399-410 | a missing doc type is sent whole, and nothing else is queued for it |
| MappingLaws.ChangedPropertyFlagged | test/elastic-test.js:404-421 | a changed property makes the mappings inconsistent and is not re-sent |
| MappingLaws.DeadPropertyFlagged | test/elastic-test.js:573-591 | a live property that is neither declared nor dynamic makes the mappings inconsistent |
| MappingLaws.DeadTypeFlagged | ElasticService.js:531-537 | a live doc type the schema no longer declares makes the mappings inconsistent |
| MappingLaws.DeadTemplateFlagged | test/elastic-test.js:633-649 | a live template the schema no longer declares makes the mappings inconsistent |
| MappingLaws.DynamicPropertyTolerated | ElasticService.js:519-524 | adding a live property that a declared template explains does not change the property verdict |
| MappingLaws.MatchMappingTypeNotCompared | ElasticService.js:455-460 | templates differing only in `match_mapping_type` compare equal |
| MappingLaws.TemplateChangeFlagged | test/elastic-test.js:523-555 | a template whose `match` changed makes the mappings inconsistent and is not re-sent |
| Payloads.MappingTaskPayload | ElasticService.js:187-282 | every mapping task has a body carrying the declared doc type, the declared property, or the declared template list that holds the template queued |
| Payloads.SettingsTaskPayload | ElasticService.js:207-228 | every analyzer task has a body carrying the declared analyzer under its name |
| Payloads.TemplatePayloadIgnoresName | ElasticService.js:264-282 | a template task resends every declared template of its type, whichever template it was queued for |
| Payloads.MissingTemplateResendsChanged | ElasticService.js:264-282 | when one declared template is missing and another was changed on the index, the audit reports the change, queues the missing one, and the body sent for it carries the changed template's declared definition, which differs from the live one |
| Payloads.EnsureSendsDeclaredBodies | ElasticService.js:756-807 | every task `ensure` sends has a body built from the declared schema |
| Protocol.Sends | ElasticService.js:539-550 | one request per task, in task order |
| Protocol.CheckRunOf | ElasticService.js:778-802 | checking an existing index is the settings check followed by the mapping check |
| Protocol.SeriesFromAllSucceed | ElasticService.js:539-550 | when every task succeeds, all are sent in order and none is reported failed |
| Protocol.SeriesAllSucceed | ElasticService.js:539-550 | when every task succeeds, the series sends them all and reports no failure |
| Protocol.SeriesFromSendsPrefix | ElasticService.js:539-550 | the series from a position sends a prefix of the remaining tasks and reports the last one sent when it stops early |
| Protocol.SeriesSendsPrefix | ElasticService.js:539-550 | whatever the answers, the series sends a prefix of the tasks, one request each; it reports the last task sent as failed when it stops early and no failure when it sends them all |
| Protocol.SeriesFromStopsAt | ElasticService.js:539-550 | from any position, when the tasks before `k` succeed and task `k` fails, the series sends exactly the tasks up to `k` and reports task `k` |
| Protocol.SeriesStopsAtFirstFailure | ElasticService.js:539-550 | `Async.series` stops at the first failure: with the first `k` tasks succeeding and task `k` failing, exactly the tasks up to `k` are sent and task `k` is reported |
| Protocol.SeriesSendsOnlyTasks | ElasticService.js:539-550 | only queued tasks are sent |
| Protocol.SettingsErrorInconsistent | ElasticService.js:654-750 | a settings check that reports an error reports it as inconsistent |
| Protocol.SettingsBracket | ElasticService.js:711-742 | analyzers are sent only between a close and a reopen; a refused close sends nothing more |
| Protocol.SettingsTaskFailureNotAnError | ElasticService.js:711-742 | whichever analyzer task fails first, the series stops there and the index is reopened; with the reopen succeeding the check reports no error and an inconsistent verdict |
| Protocol.MappingErrorInconsistent | ElasticService.js:383-554 | a mapping check that reports an error reports it as inconsistent, and a failed task is one the audit queued |
| Protocol.MappingTaskFailureStops | ElasticService.js:539-550 | whichever mapping task fails first, the tasks after it are not sent and it is the error reported, with an inconsistent verdict |
| Protocol.EnsureConsistentIff | ElasticService.js:756-807 | `ensure` reports consistent exactly when there is no error and both checks are consistent |
| Protocol.EnsureCreatesMissingIndex | test/elastic-test.js:97-149 | a missing index is created and reported consistent and created, with no other request |
| Protocol.EnsureExistsErrorReportsCreated | ElasticService.js:756-807 | a failed existence check is reported as an inconsistent, created index |
| Protocol.EnsureOnMatchingIndex | ElasticService.js:756-807 | when both audits find nothing, only the three reads are made and all is consistent |
| Protocol.EnsureIdempotent | test/elastic-test.js:651-663 | on an index that already holds the schema, `ensure` only reads, and reports consistent and not created |
| Protocol.AllTrueDrop | ElasticService.js:539-550 | a cluster that accepts everything accepts any number of requests |
| Protocol.AllTrueSeries | ElasticService.js:539-550 | against a cluster that accepts everything, the series sends every task and reports no failure |
| Protocol.SettingsAllSucceed | ElasticService.js:654-750 | when every request succeeds, the settings check reports the audit's verdict and sends its tasks inside the bracket |
| Protocol.MappingAllSucceed | ElasticService.js:383-554 | when every request succeeds, the mapping check reports the audit's verdict and sends all its tasks |
| Protocol.EnsureAllSucceed | ElasticService.js:756-807 | when every request succeeds, `ensure` sends the bracketed analyzers, then the mapping tasks, and reports both verdicts |
| Protocol.BracketSendsOnlyTasks | ElasticService.js:711-742 | the bracket sends only queued analyzer tasks |
| Protocol.EnsureSendsOnlyAuditTasks | ElasticService.js:756-807 | every task `ensure` sends was queued by one of the two audits, and only when the index exists |
| Service.Cluster.constructor | ElasticService.js:31 | the client starts on the given index state and script, with nothing sent yet |
| Service.Cluster.Call | ElasticService.js:152-178 | a request consumes one answer of the script and is appended to the log |
| Service.ElasticService.constructor | ElasticService.js:18-35 | the service holds the schema, the pattern libraries and the client it is given |
| Service.ElasticService.RunSeries | ElasticService.js:539-550 | the method sends and reports exactly what the series function gives |
| Service.ElasticService.CheckSettingsConsistency | ElasticService.js:654-750 | the method makes exactly the requests of the settings protocol and returns its result |
| Service.ElasticService.ReadSettings | ElasticService.js:655-670 | one settings read, and the analyzer audit of what it returns |
| Service.ElasticService.FinishSettingsCheck | ElasticService.js:657-746 | what follows the read is exactly the protocol's continuation |
| Service.ElasticService.UpdateSettings | ElasticService.js:711-742 | close, analyzer tasks and reopen as the bracket function gives |
| Service.ElasticService.CheckMappingConsistency | ElasticService.js:383-554 | the method makes exactly the requests of the mapping protocol and returns its result |
| Service.ElasticService.ReadMappings | ElasticService.js:384-397 | one mappings read, and the mapping audit of what it returns |
| Service.ElasticService.FinishMappingCheck | ElasticService.js:386-550 | what follows the read is exactly the protocol's continuation |
| Service.ElasticService.UpdateMappings | ElasticService.js:539-550 | the queued mapping tasks run as a series, and a failure is the error |
| Service.ElasticService.Ensure | ElasticService.js:756-807 | the method makes exactly the requests of the `ensure` protocol and returns its result |
| Service.ElasticService.CreateIndex | ElasticService.js:76-95 | the create request, reported as the protocol gives |
| Service.ElasticService.CheckIndex | ElasticService.js:778-806 | the settings check, then the mapping check unless the settings check reported an error |

## Left out

- Transport: HTTP status codes beyond success or failure, the response bodies, and the client library. Whether a request succeeds is read off a script of answers.
- What a request changes on the cluster. The index state read by the checks is fixed while `ensure` runs, so the model does not show the effect of a sent task on a later read.
- Minimatch and `RegExp` are not modelled. They are parameters, and the worked examples use a glob with only `*`.
- The wording of log and reason messages. Findings are kept as a list; the text is not.
- Asynchrony. Callbacks, `Async.waterfall` and `Async.series` become sequential code, with their argument passing kept.
- Object key order. `Object.keys` lists integer-like keys first, while the model keeps insertion order. Duplicate keys are not excluded: lookups take the first entry.
- An object field without a `properties` table is modelled with an empty table; `flattenProps` guards that case (ElasticService.js:303).
- MappingAudit.AuditProperties: a doc type declared or live without a `properties` table makes the source throw a TypeError (`Object.keys` and indexing of `undefined`, ElasticService.js:494-495 and 520), so `ensure` never calls back. A doc type's `properties` is always present in the model, so this crash is not represented.
- MappingAudit.AuditTemplates: a declared template matched by a live one makes `_checkMappingField` throw when either side lacks `mapping` (ElasticService.js:463 and 587-610). A template's `mapping` is always present in the model, so this crash is not represented.
- Dynamic templates rewritten by a template task: the model records the body sent (`Payloads.MissingTemplateResendsChanged`) but not that it replaces the live list, because the live index does not change in the model.
- The `name` argument of `_checkMappingField` is used only in messages and is not modelled.
- The in-place filling of `actualSettings.analysis` with empty containers is modelled as reading defaults (`SettingsAudit.LiveAnalyzers`).
- `_putMapping`, `_putMappingField`, `_putDynamicTemplate` and `_putAnalyzer` appear only through the bodies they build (`Payloads.PayloadOf`). The request itself is a single `Send` in the protocol.
- `create`'s success flag: `ensure` ignores it, and so does the model.
- The other operations of the service are not part of this model: ping, delete, search, scroll, bulk, get and the index-template helpers.
- Service.Cluster.Call: does not model the close and open wrappers' distinction between a client error and a non-acknowledged response, which the checks treat alike.
