/** The validation rules as functions: for each check, the report it
    produces on a given piece of the document. The class in module
    Validation is proved to append exactly these findings. */
module Rules {
  import opened Document
  import opened Findings

  const RequiredSections: seq<string> :=
    ["openapia", "info", "models", "prompts", "constraints", "tasks", "context", "evaluation"]
  const InfoFields: seq<string> := ["title", "version", "description"]
  const SupportedPrefix: string := "0.1"
  const Complexities: set<string> := {"low", "medium", "high"}
  const ModelTypes: set<string> := {"LLM", "Vision", "Audio", "Multimodal", "Classification", "Embedding"}
  const PromptRoles: set<string> := {"system", "user", "assistant"}
  const Severities: set<string> := {"low", "medium", "high", "critical"}

  /** The top-level key of each list section. */
  function SectionName(kind: Kind): string {
    match kind
    case Model => "models"
    case Prompt => "prompts"
    case Constraint => "constraints"
    case Task => "tasks"
  }

  /** The keys every entry of a list section must have. */
  function RequiredFields(kind: Kind): seq<string> {
    match kind
    case Model => ["id", "type", "provider", "name", "purpose"]
    case Prompt => ["id", "role", "template"]
    case Constraint => ["id", "rule", "severity"]
    case Task => ["id", "description"]
  }

  /** The key a task step uses to refer to a model or a prompt. */
  function RefKey(kind: RefKind): string {
    if kind == Model then "model" else "prompt"
  }

  /** One `MissingKey` error per name absent from `present`, in the order of `names`. */
  function MissingKeys(place: Place, present: map<string, Value>, names: seq<string>): (r: seq<Finding>)
    ensures |r| <= |names|
    decreases |names|
  {
    if names == [] then []
    else
      var last := names[|names| - 1];
      MissingKeys(place, present, names[..|names| - 1]) +
      (if last in present then [] else [MissingKey(place, last)])
  }

  /** The `openapia` version check. */
  function VersionFindings(version: Value): Report {
    if !version.Str? then Error(VersionNotString)
    else if !StartsWith(version.s, SupportedPrefix) then Warning(UnsupportedVersion(version.s))
    else Clean
  }

  /** The `info` check; `in` on a non-mapping raises. */
  function InfoFindings(info: Value): Report {
    if !info.Dict? then Raised
    else
      Report(MissingKeys(InfoSection, info.fields, InfoFields), [], true)
        .Then(if "ai_metadata" in info.fields then MetadataFindings(info.fields["ai_metadata"]) else Clean)
  }

  /** The `info.ai_metadata` check; `in` on a non-mapping raises. */
  function MetadataFindings(metadata: Value): Report {
    if !metadata.Dict? then Raised
    else
      var fields := metadata.fields;
      (if "domain" in fields then Clean else Warning(DomainRecommended))
        .Then(if "complexity" in fields && !OneOf(fields["complexity"], Complexities)
              then Error(InvalidComplexity(fields["complexity"])) else Clean)
  }

  /** The ids declared by the mapping entries of a list section. */
  function DeclaredIds(entries: seq<Value>): set<Value> {
    set i | 0 <= i < |entries| && entries[i].Dict? && "id" in entries[i].fields :: entries[i].fields["id"]
  }

  /** The check of an enumerated field of one entry: an unknown model type
      only warns, an unknown prompt role or constraint severity is an error. */
  function EnumeratedCheck(kind: Kind, fields: map<string, Value>): (r: Report)
    ensures r.completed
  {
    match kind
    case Model =>
      if "type" in fields && !OneOf(fields["type"], ModelTypes) then Warning(UnknownModelType(fields["type"])) else Clean
    case Prompt =>
      if "role" in fields && !OneOf(fields["role"], PromptRoles) then Error(InvalidRole(fields["role"])) else Clean
    case Constraint =>
      if "severity" in fields && !OneOf(fields["severity"], Severities) then Error(InvalidSeverity(fields["severity"])) else Clean
    case Task => Clean
  }

  /** The checks of entry `index` of a list section, given the ids of the
      entries before it: required fields, duplicate id, enumerated field. */
  function EntryFindings(kind: Kind, index: nat, entry: Value, seen: set<Value>): (r: Report)
    ensures r.completed
  {
    if !entry.Dict? then Error(EntryNotDict(kind, index))
    else
      var fields := entry.fields;
      var enumerated := EnumeratedCheck(kind, fields);
      Report(MissingKeys(Entry(kind, index), fields, RequiredFields(kind)) +
             (if "id" in fields && fields["id"] in seen then [DuplicateId(kind, fields["id"])] else []) +
             enumerated.errors,
             enumerated.warnings, true)
  }

  /** The checks of all entries of a list section, entry by entry. */
  function EntriesFindings(kind: Kind, entries: seq<Value>): (r: Report)
    ensures r.completed
    decreases |entries|
  {
    if entries == [] then Clean
    else
      var n := |entries| - 1;
      EntriesFindings(kind, entries[..n]).Then(EntryFindings(kind, n, entries[n], DeclaredIds(entries[..n])))
  }

  /** The check of a list section: its shape, then its entries. Only
      `models` must not be empty. */
  function SectionFindings(kind: Kind, section: Value): Report {
    if !section.List? then Error(NotAList(kind))
    else if kind == Model && section.items == [] then Error(NoModels)
    else EntriesFindings(kind, section.items)
  }

  /** The `context` check. */
  function ContextFindings(context: Value): Report {
    if !context.Dict? then Error(ContextNotADict)
    else if "memory" in context.fields then Clean
    else Warning(MemoryRecommended)
  }

  /** The `evaluation` check. */
  function EvaluationFindings(evaluation: Value): Report {
    if !evaluation.Dict? then Error(EvaluationNotADict)
    else if "metrics" in evaluation.fields then Clean
    else Warning(MetricsRecommended)
  }

  /** One task step's reference to a model or prompt; `in` on a non-mapping step raises. */
  function StepReference(kind: RefKind, ids: set<Value>, step: Value): Report {
    if !step.Dict? then Raised
    else if RefKey(kind) in step.fields && step.fields[RefKey(kind)] !in ids
    then Error(UnknownReference(kind, step.fields[RefKey(kind)]))
    else Clean
  }

  /** The references of a sequence of steps, step by step, stopping at a raise. */
  function StepReferences(kind: RefKind, ids: set<Value>, steps: seq<Value>): (r: Report)
    decreases |steps|
  {
    if steps == [] then Clean
    else
      var n := |steps| - 1;
      StepReferences(kind, ids, steps[..n]).Then(StepReference(kind, ids, steps[n]))
  }

  /** One task's step references; a non-mapping task or non-list `steps` raises. */
  function TaskReferences(kind: RefKind, ids: set<Value>, task: Value): (r: Report)
  {
    if !task.Dict? then Raised
    else if "steps" !in task.fields then Clean
    else if !task.fields["steps"].List? then Raised
    else StepReferences(kind, ids, task.fields["steps"].items)
  }

  /** The references of all tasks, task by task, stopping at a raise. */
  function TasksReferences(kind: RefKind, ids: set<Value>, tasks: seq<Value>): (r: Report)
    decreases |tasks|
  {
    if tasks == [] then Clean
    else
      var n := |tasks| - 1;
      TasksReferences(kind, ids, tasks[..n]).Then(TaskReferences(kind, ids, tasks[n]))
  }

  /** The section's entries all are mappings (the source reads their ids without checking). */
  predicate AllDicts(entries: seq<Value>) {
    forall i | 0 <= i < |entries| :: entries[i].Dict?
  }

  /** The reference check of task steps against the ids declared in one section. */
  function References(kind: RefKind, declarations: Value, tasks: Value): (r: Report)
  {
    if !declarations.List? || !AllDicts(declarations.items) || !tasks.List? then Raised
    else TasksReferences(kind, DeclaredIds(declarations.items), tasks.items)
  }

  /** Cross-validation: step models against `models`, then step prompts against `prompts`. */
  function CrossFindings(doc: map<string, Value>): (r: Report)
  {
    (if "tasks" in doc && "models" in doc then References(Model, doc["models"], doc["tasks"]) else Clean)
      .Then(if "tasks" in doc && "prompts" in doc then References(Prompt, doc["prompts"], doc["tasks"]) else Clean)
  }

  /** The report of one check of the pipeline on a top-level mapping. */
  function StageReport(doc: map<string, Value>, c: Check): (r: Report)
    ensures r.completed || c == InfoCheck || c == CrossCheck
  {
    match c
    case RequiredCheck => Report(MissingKeys(TopLevel, doc, RequiredSections), [], true)
    case VersionCheck => if "openapia" in doc then VersionFindings(doc["openapia"]) else Clean
    case InfoCheck => if "info" in doc then InfoFindings(doc["info"]) else Clean
    case SectionCheck(kind) =>
      if SectionName(kind) in doc then SectionFindings(kind, doc[SectionName(kind)]) else Clean
    case ContextCheck => if "context" in doc then ContextFindings(doc["context"]) else Clean
    case EvaluationCheck => if "evaluation" in doc then EvaluationFindings(doc["evaluation"]) else Clean
    case CrossCheck => CrossFindings(doc)
    case LoadCheck => Clean
  }

  /** The number of checks in a validation run. */
  const StageCount := 10

  /** The check that runs `i`-th in a validation run, in the order of
      `validate_spec`; loading, which is not part of a run, past the last. */
  function StageAt(i: nat): (c: Check)
    ensures i < StageCount <==> c != LoadCheck
  {
    match i
    case 0 => RequiredCheck
    case 1 => VersionCheck
    case 2 => InfoCheck
    case 3 => SectionCheck(Model)
    case 4 => SectionCheck(Prompt)
    case 5 => SectionCheck(Constraint)
    case 6 => SectionCheck(Task)
    case 7 => ContextCheck
    case 8 => EvaluationCheck
    case 9 => CrossCheck
    case _ => LoadCheck
  }

  /** The first `n` steps of a run whose `i`-th step reports `step(i)`,
      each skipped once one has raised. */
  function RunOf(step: nat -> Report, n: nat): Report {
    if n == 0 then Clean else RunOf(step, n - 1).Then(step(n - 1))
  }

  /** The reports of the checks of a validation run on a top-level mapping, by position. */
  function Steps(doc: map<string, Value>): nat -> Report {
    (i: nat) => StageReport(doc, StageAt(i))
  }

  /** The first `n` checks of a validation run on a top-level mapping. */
  function Run(doc: map<string, Value>, n: nat): Report {
    RunOf(Steps(doc), n)
  }

  /** One validation run: a document that is not a mapping raises at the first `in`. */
  function Validate(doc: Value): Report {
    if !doc.Dict? then Raised else Run(doc.fields, StageCount)
  }

  /** A run of one check is that check's report. */
  lemma RunFirst(doc: map<string, Value>)
    ensures Run(doc, 1) == StageReport(doc, RequiredCheck)
  {
    var r := StageReport(doc, RequiredCheck);
    assert RunOf(Steps(doc), 0) == Clean;
    assert [] + r.errors == r.errors && [] + r.warnings == r.warnings;
  }

  /** Once a check raises, the later checks add nothing. */
  lemma {:induction false} RunStops(step: nat -> Report, m: nat, n: nat)
    requires m <= n && !RunOf(step, m).completed
    ensures RunOf(step, n) == RunOf(step, m)
  {
    if m < n {
      RunStops(step, m, n - 1);
    }
  }

  // Facts about the step-by-step definitions, used by the loops of module Validation.

  /** Once a step raises, the later steps of a task add nothing. */
  lemma {:induction false} StepReferencesStop(kind: RefKind, ids: set<Value>, steps: seq<Value>, k: nat)
    requires k <= |steps| && !StepReferences(kind, ids, steps[..k]).completed
    ensures StepReferences(kind, ids, steps) == StepReferences(kind, ids, steps[..k])
    decreases |steps|
  {
    if k < |steps| {
      var n := |steps| - 1;
      assert steps[..n][..k] == steps[..k];
      StepReferencesStop(kind, ids, steps[..n], k);
    } else {
      assert steps[..k] == steps;
    }
  }

  /** Once a task raises, the later tasks add nothing. */
  lemma {:induction false} TasksReferencesStop(kind: RefKind, ids: set<Value>, tasks: seq<Value>, k: nat)
    requires k <= |tasks| && !TasksReferences(kind, ids, tasks[..k]).completed
    ensures TasksReferences(kind, ids, tasks) == TasksReferences(kind, ids, tasks[..k])
    decreases |tasks|
  {
    if k < |tasks| {
      var n := |tasks| - 1;
      assert tasks[..n][..k] == tasks[..k];
      TasksReferencesStop(kind, ids, tasks[..n], k);
    } else {
      assert tasks[..k] == tasks;
    }
  }

  /** The ids declared by one more entry. */
  lemma DeclaredIdsStep(entries: seq<Value>, k: nat)
    requires k < |entries|
    ensures DeclaredIds(entries[..k + 1]) ==
      DeclaredIds(entries[..k]) +
      (if entries[k].Dict? && "id" in entries[k].fields then {entries[k].fields["id"]} else {})
  {
    var before, after := entries[..k], entries[..k + 1];
    forall v | v in DeclaredIds(after)
      ensures v in DeclaredIds(before) || (entries[k].Dict? && "id" in entries[k].fields && v == entries[k].fields["id"])
    {
      var i :| 0 <= i < |after| && after[i].Dict? && "id" in after[i].fields && v == after[i].fields["id"];
      if i < k { assert before[i] == after[i]; }
    }
    forall v | v in DeclaredIds(before) ensures v in DeclaredIds(after) {
      var i :| 0 <= i < |before| && before[i].Dict? && "id" in before[i].fields && v == before[i].fields["id"];
      assert after[i] == before[i];
    }
    if entries[k].Dict? && "id" in entries[k].fields {
      assert after[k] == entries[k];
    }
  }

  /** Checking one more entry extends the section's report by that entry's. */
  lemma EntriesStep(kind: Kind, entries: seq<Value>, k: nat)
    requires k < |entries|
    ensures EntriesFindings(kind, entries[..k + 1]) ==
      EntriesFindings(kind, entries[..k]).Then(EntryFindings(kind, k, entries[k], DeclaredIds(entries[..k])))
  {
    assert entries[..k + 1][..k] == entries[..k];
  }

  /** What the lists gain when the entry loop handles one more entry. */
  lemma EntriesAdvance(kind: Kind, entries: seq<Value>, k: nat, errors: seq<Finding>, warnings: seq<Finding>)
    requires k < |entries|
    ensures errors + EntriesFindings(kind, entries[..k + 1]).errors ==
      (errors + EntriesFindings(kind, entries[..k]).errors) + EntryFindings(kind, k, entries[k], DeclaredIds(entries[..k])).errors
    ensures warnings + EntriesFindings(kind, entries[..k + 1]).warnings ==
      (warnings + EntriesFindings(kind, entries[..k]).warnings) + EntryFindings(kind, k, entries[k], DeclaredIds(entries[..k])).warnings
  {
    EntriesStep(kind, entries, k);
    var before := EntriesFindings(kind, entries[..k]);
    var entry := EntryFindings(kind, k, entries[k], DeclaredIds(entries[..k]));
    AppendAssoc(errors, before.errors, entry.errors);
    AppendAssoc(warnings, before.warnings, entry.warnings);
  }

  /** Checking one more step extends a task's report by that step's. */
  lemma StepReferencesStep(kind: RefKind, ids: set<Value>, steps: seq<Value>, k: nat)
    requires k < |steps|
    ensures StepReferences(kind, ids, steps[..k + 1]) ==
      StepReferences(kind, ids, steps[..k]).Then(StepReference(kind, ids, steps[k]))
  {
    assert steps[..k + 1][..k] == steps[..k];
  }

  /** Checking one more task extends the report by that task's. */
  lemma TasksReferencesStep(kind: RefKind, ids: set<Value>, tasks: seq<Value>, k: nat)
    requires k < |tasks|
    ensures TasksReferences(kind, ids, tasks[..k + 1]) ==
      TasksReferences(kind, ids, tasks[..k]).Then(TaskReferences(kind, ids, tasks[k]))
  {
    assert tasks[..k + 1][..k] == tasks[..k];
  }
}
