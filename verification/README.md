# OpenAPIA specification validator, modelled in Dafny

This project models the validation engine of `OpenAPIAValidator`. That class
checks a parsed OpenAPIA document — a tree of mappings, lists and scalars
read from YAML or JSON. It appends what it finds to two ordered lists,
`errors` and `warnings`, and answers "valid" when no error was found.

The model has four parts:

- `document.dfy` (module `Document`): the parsed document as a `Value` tree
  (`Null`, `Bool`, `Num`, `Str`, `List`, `Dict`), plus Python's
  `str.startswith` and list membership over string literals.
- `findings.dfy` (module `Findings`): each message the validator can append,
  as a `Finding` constructor rather than a formatted string. For example,
  "Missing required section: tasks" is `MissingKey(TopLevel, "tasks")`, and
  "Duplicate model ID: m" is `DuplicateId(Model, Str("m"))`.
  - `IsWarning` says which list a finding goes to.
  - `Origin` says which check of the pipeline produces it.
  - A `Report` is what one check appends to each list, plus whether the check
    ran to the end. `completed == false` means the Python code raises an
    exception part-way, after appending what it had found so far.
- `rules.dfy` (module `Rules`): each check as a pure function, and the run of
  `validate_spec` as `Validate`.
  - The checks run in the source's order. A check that raises stops the run:
    the later checks add nothing.
  - List functions recurse on the last element, so a loop's prefix lines up
    with a prefix of the list.
- `validator.dfy` (module `Validation`): the class `Validator`.
  - It has `errors` and `warnings` fields, reset by `ValidateSpec` and then
    grown by appending, one method per Python method.
  - Each method is proved to append exactly the findings the matching `Rules`
    function gives. Its loops carry the invariants that make that true.
  - A run that raises ends in the outcome `Malformed`, not in a return value.
- `properties.dfy` (module `Properties`): what the rules guarantee. This covers:
  - which check reports which finding;
  - how often a finding occurs in a whole run;
  - the order of the missing-section errors;
  - the warning/error split;
  - which documents make a run raise.

The central lemma is `Isolation`. In the lists of a run, a finding occurs
exactly as often as the one check it belongs to reported it — or never, if an
earlier check raised. The counting lemmas lift single-check facts to whole
runs through it.

## Model

| member | source | states |
|---|---|---|
| `Validation.Validator.constructor` | validators/python/openapia_validator.py:19-22 | a new validator has empty error and warning lists |
| `Validation.Validator.ValidateSpec` | validators/python/openapia_validator.py:51-87 | the lists end up as the run's findings, whatever they held before the call, so two calls on one document leave identical, identically ordered lists; the answer is "valid" exactly when the error list is empty (warnings never matter), and a run that raises gives `Malformed` |
| `Validation.Validator.RunCheck` | validators/python/openapia_validator.py:60-85 | a check runs on its section only when that key is present, and appends that check's report after the earlier checks' findings; only the info check and the cross-check can raise |
| `Validation.Validator.ValidateRequiredSections` | validators/python/openapia_validator.py:89-98 | appends one "missing section" error for each absent required section, in the listed order; a document that is not a mapping raises |
| `Validation.Validator.ReportMissingKeys` | validators/python/openapia_validator.py:113-115 | the required-field loop appends exactly the absent names, in order |
| `Validation.Validator.ValidateOpenapiaVersion` | validators/python/openapia_validator.py:100-107 | a version that is not a string adds one error and no warning; a string not starting with `0.1` adds one warning; any other string adds nothing |
| `Validation.Validator.ValidateInfo` | validators/python/openapia_validator.py:109-118 | appends the missing info fields, then the `ai_metadata` findings; raises on a value that is not a mapping |
| `Validation.Validator.ValidateAiMetadata` | validators/python/openapia_validator.py:120-128 | a missing `domain` is a warning; a `complexity` outside low/medium/high is an error |
| `Validation.Validator.ValidateModels` | validators/python/openapia_validator.py:130-162 | not a list adds one error; an empty list adds "at least one model"; otherwise checks the entries one by one |
| `Validation.Validator.ValidatePrompts` | validators/python/openapia_validator.py:164-192 | not a list adds one error; otherwise checks the entries one by one (an empty list adds nothing) |
| `Validation.Validator.ValidateConstraints` | validators/python/openapia_validator.py:194-222 | as for prompts, with the severity check |
| `Validation.Validator.ValidateTasks` | validators/python/openapia_validator.py:224-246 | as for prompts, with no enumerated field |
| `Validation.Validator.ValidateEntries` | validators/python/openapia_validator.py:140-162 | the entry loop appends each entry's findings in order; the seen-id set is the ids of the entries already handled |
| `Validation.Validator.ValidateEntry` | validators/python/openapia_validator.py:142-162 | a non-mapping entry adds one error and is skipped; a mapping entry adds its missing fields, a duplicate-id error if its id was seen, then its enumerated-field finding; the seen set gains its id |
| `Validation.Validator.CheckEnumerated` | validators/python/openapia_validator.py:158-162 | an unknown model type is a warning; an invalid prompt role or constraint severity is an error |
| `Validation.Validator.ValidateContext` | validators/python/openapia_validator.py:248-255 | not a mapping adds one error; a mapping without `memory` adds one warning |
| `Validation.Validator.ValidateEvaluation` | validators/python/openapia_validator.py:257-264 | not a mapping adds one error; a mapping without `metrics` adds one warning |
| `Validation.Validator.CrossValidate` | validators/python/openapia_validator.py:266-286 | model references are checked first, then prompt references, each only when `tasks` and that section are present; a raise in the first skips the second |
| `Validation.Validator.CheckReferences` | validators/python/openapia_validator.py:269-276 | the declared ids are those of the section's entries; the loop over tasks appends each task's reference errors in order and stops at a raise |
| `Validation.Validator.CheckTask` | validators/python/openapia_validator.py:272-276 | a task without `steps` adds nothing; a task that is not a mapping, or whose `steps` is not a list, raises |
| `Validation.Validator.CheckSteps` | validators/python/openapia_validator.py:274-276 | one error per step whose reference is not a declared id, in step order; a step that is not a mapping raises |
| `Validation.Validator.ValidateFile` | validators/python/openapia_validator.py:24-49 | a missing file, an unreadable file, an unsupported extension or a parse error each add exactly one error to the lists as they were and answer "invalid"; the answer is "valid" exactly when the error list is empty |
| `Validation.Validator.ValidateParsed` | validators/python/openapia_validator.py:36-49 | a parsed document is validated; a run that raises is caught and adds one "unexpected error" after the findings appended so far |
| `Validation.Validator.GetErrors` | validators/python/openapia_validator.py:288-290 | returns the error list |
| `Validation.Validator.GetWarnings` | validators/python/openapia_validator.py:292-294 | returns the warning list |
| `Validation.FormatOf` | validators/python/openapia_validator.py:28-31 | `.yaml` and `.yml` files are parsed as YAML and `.json` files as JSON |
| `Rules.Validate` | validators/python/openapia_validator.py:51-87 | definition of one run: a document that is not a mapping raises at once; otherwise the ten checks run in the order of `validate_spec`, each after the previous, and a check that raises ends the run with what was appended so far |
| `Rules.MissingKeys` | validators/python/openapia_validator.py:96-98 | definition of the required-key loop (the same loop at lines 113-115, 148-150, 178-180, 208-210 and 238-240): one missing-key error per listed name absent from the mapping, in list order; never longer than the list |
| `Rules.VersionFindings` | validators/python/openapia_validator.py:100-107 | definition of the version check: a non-string is an error, a string without the `0.1` prefix a warning, anything else clean |
| `Rules.InfoFindings` | validators/python/openapia_validator.py:109-118 | definition of the info check: a non-mapping raises; otherwise the absent title, version and description, then the `ai_metadata` check when that key is present |
| `Rules.MetadataFindings` | validators/python/openapia_validator.py:120-128 | definition of the `ai_metadata` check: a non-mapping raises; otherwise a warning without `domain`, then an error for a `complexity` outside low/medium/high |
| `Rules.SectionFindings` | validators/python/openapia_validator.py:130-246 | definition of a list-section check: a non-list is one error, an empty `models` list one error, otherwise the entries are checked |
| `Rules.EntriesFindings` | validators/python/openapia_validator.py:140-162 | definition of the entry loop: each entry is checked against the ids of the entries before it, in order; it never raises |
| `Rules.EntryFindings` | validators/python/openapia_validator.py:142-162 | definition of one entry check: a non-mapping is one error; otherwise the missing fields, a duplicate-id error, then the enumerated-field finding; it never raises |
| `Rules.EnumeratedCheck` | validators/python/openapia_validator.py:158-162 | definition of the enumerated-field check (lines 158-162, 188-192, 218-222): an unknown model type warns, an invalid role or severity is an error, tasks have none; it never raises |
| `Rules.DeclaredIds` | validators/python/openapia_validator.py:270 | definition of the id set built from a section (also line 280): the ids of the mapping entries that set `id` |
| `Rules.ContextFindings` | validators/python/openapia_validator.py:248-255 | definition of the context check: a non-mapping is an error, a mapping without `memory` a warning |
| `Rules.EvaluationFindings` | validators/python/openapia_validator.py:257-264 | definition of the evaluation check: a non-mapping is an error, a mapping without `metrics` a warning |
| `Rules.CrossFindings` | validators/python/openapia_validator.py:266-286 | definition of cross-validation: model references when `tasks` and `models` are present, then prompt references when `tasks` and `prompts` are, the second skipped if the first raised |
| `Rules.References` | validators/python/openapia_validator.py:269-276 | definition of one reference check: the section must be a list of mappings and `tasks` a list, else it raises; then the tasks are checked against the section's ids |
| `Rules.TasksReferences` | validators/python/openapia_validator.py:272-276 | definition of the task loop: task by task, stopping at the first raise |
| `Rules.TaskReferences` | validators/python/openapia_validator.py:273-276 | definition of one task: a non-mapping raises, no `steps` is clean, a non-list `steps` raises, else its steps are checked |
| `Rules.StepReferences` | validators/python/openapia_validator.py:274-276 | definition of the step loop: step by step, stopping at the first raise |
| `Rules.StepReference` | validators/python/openapia_validator.py:275-276 | definition of one step: a non-mapping raises; a `model` (or `prompt`) value outside the declared ids is one error |
| `Rules.RefKey` | validators/python/openapia_validator.py:275 | the key a step refers by: `model` for models (line 275), `prompt` for prompts (line 285); only these two sections can be referred to |
| `Document.StartsWith` | validators/python/openapia_validator.py:106 | definition of Python's `str.startswith`, used for the `0.1` prefix test |
| `Document.OneOf` | validators/python/openapia_validator.py:127 | definition of membership in a list of string literals (lines 127, 161, 191, 221): only a string can match |
| `Rules.StageReport` | validators/python/openapia_validator.py:60-85 | only the info check and the cross-check can raise |
| `Rules.RunStops` | validators/python/openapia_validator.py:51-85 | once a check raises, the later checks add nothing |
| `Properties.Isolation` | validators/python/openapia_validator.py:51-87 | a finding occurs in a run as often as the one check it belongs to reported it, if that check ran, and never otherwise |
| `Properties.StageEmits` | validators/python/openapia_validator.py:89-286 | each check reports only findings of its own, each in the list its severity calls for |
| `Properties.RanWhen` | validators/python/openapia_validator.py:57-85 | a check runs when every check before it completed; so the first three always run, and the others exactly when `info` can be read |
| `Properties.CompletesWhen` | validators/python/openapia_validator.py:51-87 | a run raises exactly when the document is not a mapping, the info check raises, or the cross-check raises; and so exactly when the document is not a mapping, `info` cannot be read, or the cross-check runs (`tasks` with `models` or `prompts`) on a list, task or step it cannot read |
| `Properties.InfoCompletes` | validators/python/openapia_validator.py:109-128 | the info check raises exactly when `info` is not a mapping, or its `ai_metadata` is present and not a mapping |
| `Properties.CrossCompletes` | validators/python/openapia_validator.py:266-286 | the cross-check raises exactly when it runs and one of `tasks`, `models`, `prompts` is not a list, a section entry or a step is not a mapping, or a task is not a mapping or has a non-list `steps` |
| `Properties.ReferencesCompletes` | validators/python/openapia_validator.py:269-276 | one reference check completes exactly when the section is a list of mappings, `tasks` is a list, and every task can be read |
| `Properties.TasksReferencesCompletes` | validators/python/openapia_validator.py:272-276 | the task loop completes exactly when every task can be read |
| `Properties.TaskReferencesCompletes` | validators/python/openapia_validator.py:273-276 | one task completes exactly when it is a mapping whose `steps`, if present, is a list of mappings |
| `Properties.StepReferencesCompletes` | validators/python/openapia_validator.py:274-276 | the step loop completes exactly when every step is a mapping |
| `Properties.StageCounted` | validators/python/openapia_validator.py:56-85 | a check that ran contributes its findings to the run exactly as it reported them |
| `Properties.Classifies` | validators/python/openapia_validator.py:51-87 | every error of a run is an error finding and every warning a warning finding |
| `Properties.RunPrefix` | validators/python/openapia_validator.py:53-85 | the errors of the first checks are a prefix of the errors of the whole run |
| `Properties.MissingSectionsFirst` | validators/python/openapia_validator.py:56-57 | the missing-section errors, in the order of the required-section list, lead the error list |
| `Properties.MissingSectionCount` | validators/python/openapia_validator.py:91-98 | each absent required section is reported exactly once, and nothing else as a missing section |
| `Properties.MissingKeysSound` | validators/python/openapia_validator.py:96-98 | every "missing" finding names an absent key of the list |
| `Properties.MissingKeysComplete` | validators/python/openapia_validator.py:96-98 | every absent key of the list is reported |
| `Properties.MissingKeysAppend` | validators/python/openapia_validator.py:96-98 | checking `xs + ys` reports the absent keys of `xs`, then those of `ys` |
| `Properties.MissingKeysCount` | validators/python/openapia_validator.py:96-98 | with no repeated names, each absent key is reported exactly once |
| `Properties.VersionStageCount` | validators/python/openapia_validator.py:100-107 | the version check reports one error for a non-string and one warning for a string without the `0.1` prefix |
| `Properties.VersionReported` | validators/python/openapia_validator.py:100-107 | in a run: a non-string version is exactly one error; a string without the `0.1` prefix is exactly one warning; a string with it is neither |
| `Properties.InfoFindingsCount` | validators/python/openapia_validator.py:111-115 | a mapping `info` reports each absent required field once |
| `Properties.InfoStageCount` | validators/python/openapia_validator.py:111-115 | the info check reports each absent required field of a mapping `info` once |
| `Properties.InfoFieldCount` | validators/python/openapia_validator.py:111-115 | in a run, each absent required field of a mapping `info` is reported exactly once |
| `Properties.MetadataCount` | validators/python/openapia_validator.py:120-128 | `ai_metadata` without `domain` is one warning; a `complexity` outside the allowed values is one error |
| `Properties.InfoMetadataCount` | validators/python/openapia_validator.py:117-118 | the info check passes the `ai_metadata` findings through unchanged |
| `Properties.MetadataStageCount` | validators/python/openapia_validator.py:117-128 | the info check's `ai_metadata` warning and complexity error, counted |
| `Properties.MetadataReported` | validators/python/openapia_validator.py:120-128 | in a run: a mapping `ai_metadata` without `domain` is exactly one warning; a `complexity` that is not allowed is exactly one error |
| `Properties.ContextReported` | validators/python/openapia_validator.py:248-255 | in a run: a `context` that is not a mapping is exactly one error; a mapping without `memory` is exactly one warning |
| `Properties.EvaluationReported` | validators/python/openapia_validator.py:257-264 | in a run: an `evaluation` that is not a mapping is exactly one error; a mapping without `metrics` is exactly one warning |
| `Properties.SectionShape` | validators/python/openapia_validator.py:130-138 | in a run: a section that is not a list reports one error and nothing else; an empty `models` list reports only "at least one model"; an empty `prompts`, `constraints` or `tasks` list reports nothing |
| `Properties.DeclaredIdsOccur` | validators/python/openapia_validator.py:153-156 | an id is in the seen set exactly when some earlier mapping entry sets it |
| `Properties.EntriesDuplicates` | validators/python/openapia_validator.py:153-156 | an id set by `n` entries of a section yields `n - 1` duplicate errors |
| `Properties.DuplicateIds` | validators/python/openapia_validator.py:152-156 | the same for a whole run, for models, prompts, constraints and tasks alike |
| `Properties.EntryMissing` | validators/python/openapia_validator.py:147-150 | one mapping entry reports each absent required field once, under its own index |
| `Properties.EntriesNotDict` | validators/python/openapia_validator.py:141-144 | each non-mapping entry is reported once, under its index |
| `Properties.EntriesMissing` | validators/python/openapia_validator.py:141-150 | each absent field of each mapping entry is reported once, whatever the entries before it were |
| `Properties.NonDictEntries` | validators/python/openapia_validator.py:141-144 | in a run, each non-mapping entry of a list section is reported exactly once |
| `Properties.MissingFields` | validators/python/openapia_validator.py:141-150 | in a run, each absent field of each mapping entry is reported exactly once, so a non-mapping entry does not stop the loop |
| `Properties.EnumeratedCount` | validators/python/openapia_validator.py:158-162 | an enumerated field reports only when its value is not allowed: a model type as a warning, a role or severity as an error |
| `Properties.EntriesModelTypes` | validators/python/openapia_validator.py:158-162 | an unknown model type is warned about once per model that sets it, and by no other section |
| `Properties.EntriesRoles` | validators/python/openapia_validator.py:188-192 | an invalid role is an error once per prompt that sets it, and by no other section |
| `Properties.EntriesSeverities` | validators/python/openapia_validator.py:218-222 | an invalid severity is an error once per constraint that sets it, and by no other section |
| `Properties.ModelTypesReported` | validators/python/openapia_validator.py:158-162 | in a run, an unknown model type is warned about once per model that sets it |
| `Properties.RolesReported` | validators/python/openapia_validator.py:188-192 | in a run, an invalid prompt role is an error once per prompt that sets it |
| `Properties.SeveritiesReported` | validators/python/openapia_validator.py:218-222 | in a run, an invalid constraint severity is an error once per constraint that sets it |
| `Properties.Asymmetry` | validators/python/openapia_validator.py:158-222 | an unknown model type is never an error; an invalid role or severity is never a warning |
| `Properties.StepsCount` | validators/python/openapia_validator.py:274-276 | steps that are all mappings are read to the end, with one error per step whose reference is undeclared |
| `Properties.TasksCount` | validators/python/openapia_validator.py:272-276 | readable tasks are read to the end, with one error per undeclared step reference |
| `Properties.ReferencesCount` | validators/python/openapia_validator.py:269-276 | the reference check of one section against readable tasks, counted |
| `Properties.CrossStageCount` | validators/python/openapia_validator.py:266-286 | the cross-check reports each undeclared model or prompt reference once per step that makes it, and a declared one not at all |
| `Properties.CrossCount` | validators/python/openapia_validator.py:266-286 | in a run: every task step whose `model` (or `prompt`) is not a declared id is reported exactly once; a step naming a declared id adds nothing |

## Left out

- `print_results` and `main` (console output, argument parsing, exit codes) are not part of this model.
- `schema_version` is set in the constructor but never read; it is not modelled.
- Message texts are not modelled. A finding carries the data its message would format, not the wording.
- `validate_file` does no real I/O here. The outcome of opening and parsing the file is a `Load` parameter: not found, unreadable, or read with a parse result. The YAML and JSON parsers are not part of this model.
- Python's `in` and iteration on values that are not mappings or lists are not modelled. On a string, `in` tests for a substring; on a list, `in` tests membership; iterating over a mapping yields its keys. Wherever the source applies `in` to a value it has not checked to be a mapping, or iterates over one it has not checked to be a list, the model treats any other kind of value as raising. These places are the document itself, `info`, `ai_metadata`, cross-validated entries, tasks and steps. The same holds when `models`, `prompts` or `tasks` is not a list at cross-validation.
- Ids are compared as `Value`s. Python's `True == 1` and `1 == 1.0` identifications are not modelled. Neither is the `TypeError` an unhashable id (a list or a mapping) raises when it is added to the seen-id set.
- Floating-point numbers, non-string mapping keys and other YAML scalar types are not part of the `Value` tree.
- `Validation.Validator.ValidateSpec` raises only through the info check and the cross-check. A mapping document cannot make the other checks raise in this model, because they test the type of the value before using it.
