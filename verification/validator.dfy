/** The validator object: two finding lists that one validation run resets
    and then appends to, check by check. Each method is proved to append
    exactly the findings module Rules gives for its check. */
module Validation {
  import opened Document
  import opened Findings
  import opened Rules

  /** What `validate_spec` does: return "no errors", or raise part-way. */
  datatype Outcome = Returned(valid: bool) | Malformed

  /** What opening and parsing a file gave, before any check runs. */
  datatype Load =
    | NotFound                 // the file does not exist
    | Unreadable               // any other failure while reading it
    | Loaded(parse: Parse)     // the text, parsed with the format its name selects

  datatype Parse = Parsed(doc: Value) | SyntaxError

  predicate EndsWith(s: string, suffix: string) {
    |suffix| <= |s| && s[|s| - |suffix|..] == suffix
  }

  /** The parser a file name selects: `.yaml` and `.yml` YAML, `.json` JSON. */
  function FormatOf(path: string): (r: Format)
    requires EndsWith(path, ".yaml") || EndsWith(path, ".yml") || EndsWith(path, ".json")
    ensures r == Json <==> !EndsWith(path, ".yaml") && !EndsWith(path, ".yml")
  {
    if EndsWith(path, ".yaml") || EndsWith(path, ".yml") then Yaml else Json
  }

  class Validator {
    var errors: seq<Finding>
    var warnings: seq<Finding>

    constructor ()
      ensures errors == [] && warnings == []
    {
      errors, warnings := [], [];
    }

    /** This call appended exactly the findings of `r`. */
    twostate predicate Appended(r: Report)
      reads this
    {
      errors == old(errors) + r.errors && warnings == old(warnings) + r.warnings
    }

    /** One validation run. The lists end up as a function of `spec` alone,
        whatever earlier calls left in them, and the result is "no errors". */
    method ValidateSpec(spec: Value) returns (outcome: Outcome)
      modifies this
      ensures errors == Validate(spec).errors && warnings == Validate(spec).warnings
      ensures outcome == if Validate(spec).completed then Returned(errors == []) else Malformed
    {
      errors, warnings := [], [];
      var ok := ValidateRequiredSections(spec);
      if !ok {
        return Malformed;
      }
      var doc := spec.fields;
      // `run` is what the checks so far reported; the lists hold its findings.
      ghost var run := Run(doc, 1);
      RunFirst(doc);
      ok, run := RunCheck(doc, 1, run);
      ok, run := RunCheck(doc, 2, run);
      if !ok {
        RunStops(Steps(doc), 3, StageCount);
        return Malformed;
      }
      ok, run := RunCheck(doc, 3, run);
      ok, run := RunCheck(doc, 4, run);
      ok, run := RunCheck(doc, 5, run);
      ok, run := RunCheck(doc, 6, run);
      ok, run := RunCheck(doc, 7, run);
      ok, run := RunCheck(doc, 8, run);
      ok, run := RunCheck(doc, 9, run);
      if !ok {
        return Malformed;
      }
      outcome := Returned(|errors| == 0);
    }

    /** One line of `validate_spec`: the `k`-th check, on the part of the
        document it looks at, when that part is present. */
    method RunCheck(doc: map<string, Value>, k: nat, ghost before: Report) returns (ok: bool, ghost after: Report)
      requires before == Run(doc, k) && Holds(before) && before.completed
      modifies this
      ensures after == Run(doc, k + 1)
      ensures Holds(after) && ok == after.completed
      ensures ok || k == 2 || k == 9
    {
      after := before.Then(StageReport(doc, StageAt(k)));
      ok := true;
      match StageAt(k)
      case VersionCheck =>
        if "openapia" in doc {
          ValidateOpenapiaVersion(doc["openapia"]);
        }
      case InfoCheck =>
        if "info" in doc {
          ok := ValidateInfo(doc["info"]);
        }
      case SectionCheck(kind) =>
        if SectionName(kind) in doc {
          var section := doc[SectionName(kind)];
          match kind
          case Model => ValidateModels(section);
          case Prompt => ValidatePrompts(section);
          case Constraint => ValidateConstraints(section);
          case Task => ValidateTasks(section);
        }
      case ContextCheck =>
        if "context" in doc {
          ValidateContext(doc["context"]);
        }
      case EvaluationCheck =>
        if "evaluation" in doc {
          ValidateEvaluation(doc["evaluation"]);
        }
      case CrossCheck =>
        ok := CrossValidate(doc);
      case RequiredCheck =>
        ReportMissingKeys(TopLevel, doc, RequiredSections);
      case LoadCheck =>
    }

    /** The lists hold exactly the findings of `r`. */
    ghost predicate Holds(r: Report)
      reads this
    {
      errors == r.errors && warnings == r.warnings
    }

    /** One error per absent required section; `in` on a non-mapping raises. */
    method ValidateRequiredSections(spec: Value) returns (ok: bool)
      modifies this
      ensures ok == spec.Dict?
      ensures errors == old(errors) + (if ok then MissingKeys(TopLevel, spec.fields, RequiredSections) else [])
      ensures warnings == old(warnings)
    {
      if !spec.Dict? {
        return false;
      }
      ReportMissingKeys(TopLevel, spec.fields, RequiredSections);
      ok := true;
    }

    /** Appends one `MissingKey(place, _)` error per name of `names` absent from `present`. */
    method ReportMissingKeys(place: Place, present: map<string, Value>, names: seq<string>)
      modifies this
      ensures errors == old(errors) + MissingKeys(place, present, names)
      ensures warnings == old(warnings)
    {
      var i := 0;
      while i < |names|
        invariant 0 <= i <= |names|
        invariant errors == old(errors) + MissingKeys(place, present, names[..i])
        invariant warnings == old(warnings)
      {
        assert names[..i + 1][..i] == names[..i];
        if names[i] !in present {
          AppendAssoc(old(errors), MissingKeys(place, present, names[..i]), [MissingKey(place, names[i])]);
          errors := errors + [MissingKey(place, names[i])];
        }
        i := i + 1;
      }
      assert names[..i] == names;
    }

    method ValidateOpenapiaVersion(version: Value)
      modifies this
      ensures Appended(VersionFindings(version))
    {
      if !version.Str? {
        errors := errors + [VersionNotString];
        return;
      }
      if !StartsWith(version.s, SupportedPrefix) {
        warnings := warnings + [UnsupportedVersion(version.s)];
      }
    }

    method ValidateInfo(info: Value) returns (ok: bool)
      modifies this
      ensures Appended(InfoFindings(info)) && ok == InfoFindings(info).completed
    {
      if !info.Dict? {
        return false;
      }
      ReportMissingKeys(InfoSection, info.fields, InfoFields);
      ok := true;
      if "ai_metadata" in info.fields {
        ok := ValidateAiMetadata(info.fields["ai_metadata"]);
      }
    }

    method ValidateAiMetadata(metadata: Value) returns (ok: bool)
      modifies this
      ensures Appended(MetadataFindings(metadata)) && ok == MetadataFindings(metadata).completed
    {
      if !metadata.Dict? {
        return false;
      }
      var fields := metadata.fields;
      if "domain" !in fields {
        warnings := warnings + [DomainRecommended];
      }
      if "complexity" in fields && !OneOf(fields["complexity"], Complexities) {
        errors := errors + [InvalidComplexity(fields["complexity"])];
      }
      ok := true;
    }

    method ValidateModels(models: Value)
      modifies this
      ensures Appended(SectionFindings(Model, models))
    {
      if !models.List? {
        errors := errors + [NotAList(Model)];
        return;
      }
      if |models.items| == 0 {
        errors := errors + [NoModels];
        return;
      }
      ValidateEntries(Model, models.items);
    }

    method ValidatePrompts(prompts: Value)
      modifies this
      ensures Appended(SectionFindings(Prompt, prompts))
    {
      if !prompts.List? {
        errors := errors + [NotAList(Prompt)];
        return;
      }
      ValidateEntries(Prompt, prompts.items);
    }

    method ValidateConstraints(constraints: Value)
      modifies this
      ensures Appended(SectionFindings(Constraint, constraints))
    {
      if !constraints.List? {
        errors := errors + [NotAList(Constraint)];
        return;
      }
      ValidateEntries(Constraint, constraints.items);
    }

    method ValidateTasks(tasks: Value)
      modifies this
      ensures Appended(SectionFindings(Task, tasks))
    {
      if !tasks.List? {
        errors := errors + [NotAList(Task)];
        return;
      }
      ValidateEntries(Task, tasks.items);
    }

    /** The entry loop shared by the four list sections. */
    method ValidateEntries(kind: Kind, entries: seq<Value>)
      modifies this
      ensures Appended(EntriesFindings(kind, entries))
    {
      var seen: set<Value> := {};
      var i := 0;
      while i < |entries|
        invariant 0 <= i <= |entries|
        invariant seen == DeclaredIds(entries[..i])
        invariant Appended(EntriesFindings(kind, entries[..i]))
      {
        EntriesAdvance(kind, entries, i, old(errors), old(warnings));
        DeclaredIdsStep(entries, i);
        seen := ValidateEntry(kind, i, entries[i], seen);
        i := i + 1;
      }
      assert entries[..i] == entries;
    }

    /** One entry: its shape, its required fields, its id against the ids
        of the entries before it, its enumerated field. Returns the ids
        seen once this entry's id is added. */
    method ValidateEntry(kind: Kind, index: nat, entry: Value, seen: set<Value>) returns (seen': set<Value>)
      modifies this
      ensures Appended(EntryFindings(kind, index, entry, seen))
      ensures seen' == seen + (if entry.Dict? && "id" in entry.fields then {entry.fields["id"]} else {})
    {
      seen' := seen;
      if !entry.Dict? {
        errors := errors + [EntryNotDict(kind, index)];
        return;
      }
      ghost var missing := MissingKeys(Entry(kind, index), entry.fields, RequiredFields(kind));
      ghost var duplicate: seq<Finding> := [];
      ReportMissingKeys(Entry(kind, index), entry.fields, RequiredFields(kind));
      if "id" in entry.fields {
        var id := entry.fields["id"];
        if id in seen {
          duplicate := [DuplicateId(kind, id)];
          errors := errors + [DuplicateId(kind, id)];
        }
        seen' := seen + {id};
      }
      AppendAssoc(old(errors), missing, duplicate);
      AppendAssoc(old(errors), missing + duplicate, EnumeratedCheck(kind, entry.fields).errors);
      CheckEnumerated(kind, entry.fields);
    }

    /** The enumerated-value check of one entry. */
    method CheckEnumerated(kind: Kind, fields: map<string, Value>)
      modifies this
      ensures Appended(EnumeratedCheck(kind, fields))
    {
      match kind
      case Model =>
        if "type" in fields && !OneOf(fields["type"], ModelTypes) {
          warnings := warnings + [UnknownModelType(fields["type"])];
        }
      case Prompt =>
        if "role" in fields && !OneOf(fields["role"], PromptRoles) {
          errors := errors + [InvalidRole(fields["role"])];
        }
      case Constraint =>
        if "severity" in fields && !OneOf(fields["severity"], Severities) {
          errors := errors + [InvalidSeverity(fields["severity"])];
        }
      case Task =>
    }

    method ValidateContext(context: Value)
      modifies this
      ensures Appended(ContextFindings(context))
    {
      if !context.Dict? {
        errors := errors + [ContextNotADict];
        return;
      }
      if "memory" !in context.fields {
        warnings := warnings + [MemoryRecommended];
      }
    }

    method ValidateEvaluation(evaluation: Value)
      modifies this
      ensures Appended(EvaluationFindings(evaluation))
    {
      if !evaluation.Dict? {
        errors := errors + [EvaluationNotADict];
        return;
      }
      if "metrics" !in evaluation.fields {
        warnings := warnings + [MetricsRecommended];
      }
    }

    /** Step models against `models`, then step prompts against `prompts`,
        each only when `tasks` and that section are present. */
    method CrossValidate(doc: map<string, Value>) returns (ok: bool)
      modifies this
      ensures Appended(CrossFindings(doc)) && ok == CrossFindings(doc).completed
    {
      ok := true;
      if "tasks" in doc && "models" in doc {
        ok := CheckReferences(Model, doc["models"], doc["tasks"]);
        if !ok {
          return;
        }
      }
      if "tasks" in doc && "prompts" in doc {
        ok := CheckReferences(Prompt, doc["prompts"], doc["tasks"]);
      }
    }

    /** One error per task step whose `model` (or `prompt`) is not a declared id. */
    method CheckReferences(kind: RefKind, declarations: Value, tasks: Value) returns (ok: bool)
      modifies this
      ensures Appended(References(kind, declarations, tasks)) && ok == References(kind, declarations, tasks).completed
    {
      if !declarations.List? || !AllDicts(declarations.items) || !tasks.List? {
        return false;
      }
      var ids := DeclaredIds(declarations.items);
      var all := tasks.items;
      var t := 0;
      while t < |all|
        invariant 0 <= t <= |all|
        invariant TasksReferences(kind, ids, all[..t]).completed
        invariant Appended(TasksReferences(kind, ids, all[..t]))
      {
        TasksReferencesStep(kind, ids, all, t);
        ghost var before := TasksReferences(kind, ids, all[..t]);
        ghost var current := TaskReferences(kind, ids, all[t]);
        AppendAssoc(old(errors), before.errors, current.errors);
        AppendAssoc(old(warnings), before.warnings, current.warnings);
        ok := CheckTask(kind, ids, all[t]);
        if !ok {
          TasksReferencesStop(kind, ids, all, t + 1);
          return;
        }
        t := t + 1;
      }
      assert all[..t] == all;
      ok := true;
    }

    /** The step references of one task; a task that is not a mapping, or
        whose `steps` is not a list, raises. */
    method CheckTask(kind: RefKind, ids: set<Value>, task: Value) returns (ok: bool)
      modifies this
      ensures Appended(TaskReferences(kind, ids, task)) && ok == TaskReferences(kind, ids, task).completed
    {
      if !task.Dict? {
        return false;
      }
      if "steps" in task.fields {
        var steps := task.fields["steps"];
        if !steps.List? {
          return false;
        }
        ok := CheckSteps(kind, ids, steps.items);
      } else {
        ok := true;
      }
    }

    /** The steps of one task, step by step. */
    method CheckSteps(kind: RefKind, ids: set<Value>, steps: seq<Value>) returns (ok: bool)
      modifies this
      ensures Appended(StepReferences(kind, ids, steps)) && ok == StepReferences(kind, ids, steps).completed
    {
      var key := RefKey(kind);
      var s := 0;
      while s < |steps|
        invariant 0 <= s <= |steps|
        invariant StepReferences(kind, ids, steps[..s]).completed
        invariant Appended(StepReferences(kind, ids, steps[..s]))
      {
        StepReferencesStep(kind, ids, steps, s);
        var step := steps[s];
        if !step.Dict? {
          StepReferencesStop(kind, ids, steps, s + 1);
          return false;
        }
        if key in step.fields && step.fields[key] !in ids {
          AppendAssoc(old(errors), StepReferences(kind, ids, steps[..s]).errors, [UnknownReference(kind, step.fields[key])]);
          errors := errors + [UnknownReference(kind, step.fields[key])];
        }
        s := s + 1;
      }
      assert steps[..s] == steps;
      ok := true;
    }

    /** `validate_file`: a file that cannot be found, read, dispatched or
        parsed adds one error and validates nothing (the lists are not
        reset); an exception inside the run adds one more error. */
    method ValidateFile(path: string, load: Load) returns (valid: bool)
      modifies this
      ensures valid <==> errors == []
      ensures load.NotFound? ==> errors == old(errors) + [FileNotFound(path)] && warnings == old(warnings)
      ensures load.Unreadable? ==> errors == old(errors) + [UnexpectedError] && warnings == old(warnings)
      ensures load.Loaded? && !(EndsWith(path, ".yaml") || EndsWith(path, ".yml") || EndsWith(path, ".json")) ==>
        errors == old(errors) + [UnsupportedFormat(path)] && warnings == old(warnings)
      ensures load.Loaded? && (EndsWith(path, ".yaml") || EndsWith(path, ".yml") || EndsWith(path, ".json")) ==>
        match load.parse
        case SyntaxError => errors == old(errors) + [ParseError(FormatOf(path))] && warnings == old(warnings)
        case Parsed(doc) =>
          warnings == Validate(doc).warnings &&
          errors == Validate(doc).errors + (if Validate(doc).completed then [] else [UnexpectedError])
    {
      match load
      case NotFound =>
        errors := errors + [FileNotFound(path)];
        return false;
      case Unreadable =>
        errors := errors + [UnexpectedError];
        return false;
      case Loaded(parse) =>
        if !(EndsWith(path, ".yaml") || EndsWith(path, ".yml") || EndsWith(path, ".json")) {
          errors := errors + [UnsupportedFormat(path)];
          return false;
        }
        match parse
        case SyntaxError =>
          errors := errors + [ParseError(FormatOf(path))];
          return false;
        case Parsed(doc) =>
          valid := ValidateParsed(doc);
    }

    /** The run on a parsed document; an exception inside it is caught and
        adds one more error. */
    method ValidateParsed(doc: Value) returns (valid: bool)
      modifies this
      ensures warnings == Validate(doc).warnings
      ensures errors == Validate(doc).errors + (if Validate(doc).completed then [] else [UnexpectedError])
      ensures valid <==> errors == []
    {
      var outcome := ValidateSpec(doc);
      if outcome.Malformed? {
        errors := errors + [UnexpectedError];
        return false;
      }
      return outcome.valid;
    }

    method GetErrors() returns (r: seq<Finding>)
      ensures r == errors
    {
      r := errors;
    }

    method GetWarnings() returns (r: seq<Finding>)
      ensures r == warnings
    {
      r := warnings;
    }
  }
}
