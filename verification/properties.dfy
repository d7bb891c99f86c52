/** What the validation rules guarantee: which check reports which
    finding, how many times a finding is reported, which documents make
    a run raise, and the order of the required-section errors. */
module Properties {
  import opened Document
  import opened Findings
  import opened Rules

  // ---------------------------------------------------------------------
  // Missing keys

  /** Every finding of `MissingKeys` names an absent key of `names`, at `place`. */
  lemma {:induction false} MissingKeysSound(place: Place, present: map<string, Value>, names: seq<string>)
    ensures forall f | f in MissingKeys(place, present, names) ::
      f.MissingKey? && f.place == place && f.key in names && f.key !in present
    decreases |names|
  {
    if names != [] {
      var n := |names| - 1;
      MissingKeysSound(place, present, names[..n]);
      forall f | f in MissingKeys(place, present, names[..n]) ensures f.key in names {
        var j :| 0 <= j < n && names[..n][j] == f.key;
        assert names[j] == f.key;
      }
    }
  }

  /** Every absent key of `names` is reported. */
  lemma {:induction false} MissingKeysComplete(place: Place, present: map<string, Value>, names: seq<string>, key: string)
    requires key in names && key !in present
    ensures MissingKey(place, key) in MissingKeys(place, present, names)
    decreases |names|
  {
    var n := |names| - 1;
    if names[n] != key {
      var j :| 0 <= j < |names| && names[j] == key;
      assert names[..n][j] == key;
      MissingKeysComplete(place, present, names[..n], key);
    }
  }

  /** The keys of a longer list are reported after those of a shorter one:
      checking `xs + ys` reports `xs`'s absent keys, then `ys`'s. */
  lemma {:induction false} MissingKeysAppend(place: Place, present: map<string, Value>, xs: seq<string>, ys: seq<string>)
    ensures MissingKeys(place, present, xs + ys) == MissingKeys(place, present, xs) + MissingKeys(place, present, ys)
    decreases |ys|
  {
    if ys == [] {
      assert xs + ys == xs;
    } else {
      var n := |ys| - 1;
      assert (xs + ys)[..|xs + ys| - 1] == xs + ys[..n];
      MissingKeysAppend(place, present, xs, ys[..n]);
    }
  }

  predicate Distinct(names: seq<string>) {
    forall i, j | 0 <= i < j < |names| :: names[i] != names[j]
  }

  /** Dropping the last name keeps the names distinct, and the last name is
      not among the others. */
  lemma DistinctPrefix(names: seq<string>)
    requires names != [] && Distinct(names)
    ensures Distinct(names[..|names| - 1]) && names[|names| - 1] !in names[..|names| - 1]
  {
    var n := |names| - 1;
    var prefix := names[..n];
    forall i, j | 0 <= i < j < |prefix| ensures prefix[i] != prefix[j] {
      assert prefix[i] == names[i] && prefix[j] == names[j];
    }
    forall j | 0 <= j < n ensures prefix[j] != names[n] {
      assert prefix[j] == names[j];
    }
  }

  /** A name is in a list when it is in the list without its last name, or is that name. */
  lemma InSnoc(names: seq<string>, key: string)
    requires names != []
    ensures key in names <==> key in names[..|names| - 1] || key == names[|names| - 1]
  {
    var n := |names| - 1;
    if key in names {
      var j :| 0 <= j < |names| && names[j] == key;
      if j < n { assert names[..n][j] == key; }
    }
    if key in names[..n] {
      var j :| 0 <= j < n && names[..n][j] == key;
      assert names[j] == key;
    }
  }

  /** When `names` has no repeats, each absent key is reported exactly once. */
  lemma {:induction false} MissingKeysCount(place: Place, present: map<string, Value>, names: seq<string>, key: string)
    requires Distinct(names)
    ensures multiset(MissingKeys(place, present, names))[MissingKey(place, key)] ==
      if key in names && key !in present then 1 else 0
    decreases |names|
  {
    if names != [] {
      var n := |names| - 1;
      var prefix := names[..n];
      DistinctPrefix(names);
      InSnoc(names, key);
      MissingKeysCount(place, present, prefix, key);
      var last := if names[n] in present then [] else [MissingKey(place, names[n])];
      assert MissingKeys(place, present, names) == MissingKeys(place, present, prefix) + last;
    }
  }

  lemma RequiredSectionsDistinct()
    ensures Distinct(RequiredSections)
  {
  }

  lemma RequiredFieldsDistinct(kind: Kind)
    ensures Distinct(RequiredFields(kind))
  {
  }

  lemma InfoFieldsDistinct()
    ensures Distinct(InfoFields)
  {
  }

  // ---------------------------------------------------------------------
  // Which check reports which finding

  /** Running two reports of the same check one after the other. */
  lemma ThenEmits(a: Report, b: Report, c: Check)
    requires Emits(a, c) && Emits(b, c)
    ensures Emits(a.Then(b), c)
  {
  }

  lemma EnumeratedEmits(kind: Kind, fields: map<string, Value>)
    ensures Emits(EnumeratedCheck(kind, fields), SectionCheck(kind))
  {
  }

  lemma EntryEmits(kind: Kind, index: nat, entry: Value, seen: set<Value>)
    ensures Emits(EntryFindings(kind, index, entry, seen), SectionCheck(kind))
  {
    if entry.Dict? {
      var fields := entry.fields;
      var missing := MissingKeys(Entry(kind, index), fields, RequiredFields(kind));
      var duplicate := if "id" in fields && fields["id"] in seen then [DuplicateId(kind, fields["id"])] else [];
      var enumerated := EnumeratedCheck(kind, fields);
      MissingKeysSound(Entry(kind, index), fields, RequiredFields(kind));
      EnumeratedEmits(kind, fields);
      assert EntryFindings(kind, index, entry, seen) == Report(missing + duplicate + enumerated.errors, enumerated.warnings, true);
      forall f | f in missing + duplicate + enumerated.errors
        ensures Origin(f) == SectionCheck(kind) && !IsWarning(f)
      {
        if f in missing {
        } else if f in duplicate {
        } else {
          assert f in enumerated.errors;
        }
      }
    }
  }

  lemma {:induction false} EntriesEmits(kind: Kind, entries: seq<Value>)
    ensures Emits(EntriesFindings(kind, entries), SectionCheck(kind))
    decreases |entries|
  {
    if entries != [] {
      var n := |entries| - 1;
      EntriesEmits(kind, entries[..n]);
      EntryEmits(kind, n, entries[n], DeclaredIds(entries[..n]));
      ThenEmits(EntriesFindings(kind, entries[..n]), EntryFindings(kind, n, entries[n], DeclaredIds(entries[..n])), SectionCheck(kind));
    }
  }

  lemma MetadataEmits(metadata: Value)
    ensures Emits(MetadataFindings(metadata), InfoCheck)
  {
  }

  lemma InfoEmits(info: Value)
    ensures Emits(InfoFindings(info), InfoCheck)
  {
    if info.Dict? {
      var missing := Report(MissingKeys(InfoSection, info.fields, InfoFields), [], true);
      var metadata := if "ai_metadata" in info.fields then MetadataFindings(info.fields["ai_metadata"]) else Clean;
      MissingKeysSound(InfoSection, info.fields, InfoFields);
      if "ai_metadata" in info.fields {
        MetadataEmits(info.fields["ai_metadata"]);
      }
      ThenEmits(missing, metadata, InfoCheck);
    }
  }

  lemma {:induction false} StepsEmits(kind: RefKind, ids: set<Value>, steps: seq<Value>)
    ensures Emits(StepReferences(kind, ids, steps), CrossCheck)
    decreases |steps|
  {
    if steps != [] {
      var n := |steps| - 1;
      StepsEmits(kind, ids, steps[..n]);
      ThenEmits(StepReferences(kind, ids, steps[..n]), StepReference(kind, ids, steps[n]), CrossCheck);
    }
  }

  lemma {:induction false} TasksEmits(kind: RefKind, ids: set<Value>, tasks: seq<Value>)
    ensures Emits(TasksReferences(kind, ids, tasks), CrossCheck)
    decreases |tasks|
  {
    if tasks != [] {
      var n := |tasks| - 1;
      TasksEmits(kind, ids, tasks[..n]);
      var task := tasks[n];
      if task.Dict? && "steps" in task.fields && task.fields["steps"].List? {
        StepsEmits(kind, ids, task.fields["steps"].items);
      }
      ThenEmits(TasksReferences(kind, ids, tasks[..n]), TaskReferences(kind, ids, task), CrossCheck);
    }
  }

  lemma CrossEmits(doc: map<string, Value>)
    ensures Emits(CrossFindings(doc), CrossCheck)
  {
    var models := if "tasks" in doc && "models" in doc then References(Model, doc["models"], doc["tasks"]) else Clean;
    var prompts := if "tasks" in doc && "prompts" in doc then References(Prompt, doc["prompts"], doc["tasks"]) else Clean;
    if "tasks" in doc && doc["tasks"].List? {
      if "models" in doc && doc["models"].List? {
        TasksEmits(Model, DeclaredIds(doc["models"].items), doc["tasks"].items);
      }
      if "prompts" in doc && doc["prompts"].List? {
        TasksEmits(Prompt, DeclaredIds(doc["prompts"].items), doc["tasks"].items);
      }
    }
    ThenEmits(models, prompts, CrossCheck);
  }

  lemma SectionStageEmits(doc: map<string, Value>, kind: Kind)
    ensures Emits(StageReport(doc, SectionCheck(kind)), SectionCheck(kind))
  {
    var name := SectionName(kind);
    if name in doc && doc[name].List? {
      EntriesEmits(kind, doc[name].items);
    }
  }

  lemma InfoStageEmits(doc: map<string, Value>)
    ensures Emits(StageReport(doc, InfoCheck), InfoCheck)
  {
    if "info" in doc {
      InfoEmits(doc["info"]);
    }
  }

  lemma RequiredStageEmits(doc: map<string, Value>)
    ensures Emits(StageReport(doc, RequiredCheck), RequiredCheck)
  {
    MissingKeysSound(TopLevel, doc, RequiredSections);
  }

  lemma VersionStageEmits(doc: map<string, Value>)
    ensures Emits(StageReport(doc, VersionCheck), VersionCheck)
  {
  }

  lemma ContextStageEmits(doc: map<string, Value>)
    ensures Emits(StageReport(doc, ContextCheck), ContextCheck)
  {
  }

  lemma EvaluationStageEmits(doc: map<string, Value>)
    ensures Emits(StageReport(doc, EvaluationCheck), EvaluationCheck)
  {
  }

  lemma CrossStageEmits(doc: map<string, Value>)
    ensures Emits(StageReport(doc, CrossCheck), CrossCheck)
  {
    CrossEmits(doc);
  }

  /** Each check reports only findings of its own, each in the list its
      severity calls for. */
  lemma StageEmits(doc: map<string, Value>, c: Check)
    ensures Emits(StageReport(doc, c), c)
  {
    match c
    case RequiredCheck => RequiredStageEmits(doc);
    case VersionCheck => VersionStageEmits(doc);
    case InfoCheck => InfoStageEmits(doc);
    case SectionCheck(kind) => SectionStageEmits(doc, kind);
    case ContextCheck => ContextStageEmits(doc);
    case EvaluationCheck => EvaluationStageEmits(doc);
    case CrossCheck => CrossStageEmits(doc);
    case LoadCheck =>
  }

  // ---------------------------------------------------------------------
  // One validation run, check by check

  /** Whether check `c` runs on the top-level mapping `doc`: it is one of the
      run's checks and every check before it completed. */
  predicate Ran(doc: map<string, Value>, c: Check) {
    Position(c) < StageCount && Run(doc, Position(c)).completed
  }

  /** Where check `c` runs in a validation run; `StageCount` for loading. */
  function Position(c: Check): (n: nat)
    ensures n <= StageCount && (n == StageCount <==> c == LoadCheck)
    ensures StageAt(n) == c
  {
    match c
    case RequiredCheck => 0
    case VersionCheck => 1
    case InfoCheck => 2
    case SectionCheck(kind) =>
      (match kind
       case Model => 3
       case Prompt => 4
       case Constraint => 5
       case Task => 6)
    case ContextCheck => 7
    case EvaluationCheck => 8
    case CrossCheck => 9
    case LoadCheck => 10
  }

  /** Each check of a run has one place in it. */
  lemma StagePosition(i: nat)
    requires i < StageCount
    ensures Position(StageAt(i)) == i
  {
  }

  /** How often `f` occurs after running `b` behind `a`. */
  lemma ThenCount(a: Report, b: Report, f: Finding)
    ensures multiset(a.Then(b).errors)[f] == multiset(a.errors)[f] + if a.completed then multiset(b.errors)[f] else 0
    ensures multiset(a.Then(b).warnings)[f] == multiset(a.warnings)[f] + if a.completed then multiset(b.warnings)[f] else 0
  {
  }

  /** A check reports no finding that belongs to another check. */
  lemma Absent(doc: map<string, Value>, c: Check, f: Finding)
    ensures Origin(f) != c ==>
      multiset(StageReport(doc, c).errors)[f] == 0 && multiset(StageReport(doc, c).warnings)[f] == 0
  {
    StageEmits(doc, c);
    if Origin(f) != c {
      assert f !in StageReport(doc, c).errors;
      assert f !in StageReport(doc, c).warnings;
    }
  }

  /** The first `n` steps completed unless the third, the info check, was
      among them and raised (the last step is left out here). */
  lemma {:induction false} RunCompleted(step: nat -> Report, n: nat)
    requires forall i :: step(i).completed || i == 2 || i == 9
    requires n < StageCount
    ensures RunOf(step, n).completed == (n <= 2 || step(2).completed)
  {
    if n > 0 {
      RunCompleted(step, n - 1);
    }
  }

  /** In the first `n` steps, a finding that only step `p` reports occurs as
      often as step `p` reported it, if `p` is among them and the steps
      before it completed, and not at all otherwise. */
  lemma {:induction false} RunCount(step: nat -> Report, n: nat, f: Finding, p: nat)
    requires forall i :: i != p ==> multiset(step(i).errors)[f] == 0 && multiset(step(i).warnings)[f] == 0
    ensures multiset(RunOf(step, n).errors)[f] ==
      if p < n && RunOf(step, p).completed then multiset(step(p).errors)[f] else 0
    ensures multiset(RunOf(step, n).warnings)[f] ==
      if p < n && RunOf(step, p).completed then multiset(step(p).warnings)[f] else 0
  {
    if n > 0 {
      RunCount(step, n - 1, f, p);
      ThenCount(RunOf(step, n - 1), step(n - 1), f);
    }
  }

  /** A step reports no finding of another step's check. */
  lemma StepAbsent(doc: map<string, Value>, f: Finding, i: nat)
    requires i != Position(Origin(f))
    ensures multiset(Steps(doc)(i).errors)[f] == 0 && multiset(Steps(doc)(i).warnings)[f] == 0
  {
    assert Steps(doc)(i) == StageReport(doc, StageAt(i));
    if i < StageCount {
      StagePosition(i);
      Absent(doc, StageAt(i), f);
    } else {
      assert StageAt(i) == LoadCheck;
    }
  }

  /** Only the step of the check a finding belongs to can report it. */
  lemma StepsAbsent(doc: map<string, Value>, f: Finding)
    ensures forall i: nat :: i != Position(Origin(f)) ==>
      multiset(Steps(doc)(i).errors)[f] == 0 && multiset(Steps(doc)(i).warnings)[f] == 0
  {
    forall i: nat | i != Position(Origin(f))
      ensures multiset(Steps(doc)(i).errors)[f] == 0 && multiset(Steps(doc)(i).warnings)[f] == 0
    {
      StepAbsent(doc, f, i);
    }
  }

  /** Every step but the info check's and the cross-check's completes. */
  lemma StepsComplete(doc: map<string, Value>)
    ensures forall i: nat :: Steps(doc)(i).completed || i == 2 || i == 9
  {
    forall i: nat
      ensures Steps(doc)(i).completed || i == 2 || i == 9
    {
      if i < StageCount {
        StagePosition(i);
      }
    }
  }

  /** In the lists of a validation run, a finding occurs as often as the one
      check it belongs to reported it, if that check ran, and not at all
      otherwise: no check's findings are lost, repeated or mixed with
      another's. */
  lemma Isolation(doc: Value, f: Finding)
    requires doc.Dict?
    ensures multiset(Validate(doc).errors)[f] ==
      if Ran(doc.fields, Origin(f)) then multiset(StageReport(doc.fields, Origin(f)).errors)[f] else 0
    ensures multiset(Validate(doc).warnings)[f] ==
      if Ran(doc.fields, Origin(f)) then multiset(StageReport(doc.fields, Origin(f)).warnings)[f] else 0
  {
    var d := doc.fields;
    StepsAbsent(d, f);
    RunCount(Steps(d), StageCount, f, Position(Origin(f)));
  }

  // ---------------------------------------------------------------------
  // When a run raises

  /** The info check completes: `info` is absent, or a mapping whose
      `ai_metadata`, if present, is a mapping too. */
  predicate InfoReadable(doc: map<string, Value>) {
    "info" in doc ==>
      doc["info"].Dict? && ("ai_metadata" in doc["info"].fields ==> doc["info"].fields["ai_metadata"].Dict?)
  }

  lemma InfoCompletes(doc: map<string, Value>)
    ensures StageReport(doc, InfoCheck).completed <==> InfoReadable(doc)
  {
  }

  /** The first three checks always run; the others exactly when the info
      check did not raise. */
  lemma RanWhen(doc: map<string, Value>, c: Check)
    ensures Ran(doc, c) <==> c != LoadCheck && (Position(c) <= 2 || InfoReadable(doc))
  {
    InfoCompletes(doc);
    if c != LoadCheck {
      StepsComplete(doc);
      RunCompleted(Steps(doc), Position(c));
      assert Steps(doc)(2) == StageReport(doc, InfoCheck);
    }
  }

  /** A run raises exactly when the document is not a mapping, the info check
      raises, or the cross-check runs on something it cannot read. */
  lemma CompletesWhen(doc: Value)
    ensures Validate(doc).completed <==>
      doc.Dict? && InfoReadable(doc.fields) && CrossFindings(doc.fields).completed
    ensures Validate(doc).completed <==>
      doc.Dict? && InfoReadable(doc.fields) && (CrossRuns(doc.fields) ==> CrossReadable(doc.fields))
  {
    if doc.Dict? {
      var d := doc.fields;
      StepsComplete(d);
      RunCompleted(Steps(d), 9);
      InfoCompletes(d);
      assert Steps(d)(2) == StageReport(d, InfoCheck);
      assert Steps(d)(9) == CrossFindings(d);
      CrossCompletes(d);
    }
  }

  /** A task whose steps can all be read: a mapping whose `steps`, if
      present, is a list of mappings. */
  predicate TaskReadable(task: Value) {
    task.Dict? && ("steps" in task.fields ==> task.fields["steps"].List? && AllDicts(task.fields["steps"].items))
  }

  /** The cross-check can read everything it iterates over. */
  predicate CrossReadable(doc: map<string, Value>) {
    "tasks" in doc ==>
      doc["tasks"].List? && (forall i | 0 <= i < |doc["tasks"].items| :: TaskReadable(doc["tasks"].items[i])) &&
      ("models" in doc ==> doc["models"].List? && AllDicts(doc["models"].items)) &&
      ("prompts" in doc ==> doc["prompts"].List? && AllDicts(doc["prompts"].items))
  }

  /** A finding of check `c`, counted in a run in which `c` ran. */
  lemma StageCounted(doc: Value, c: Check, f: Finding)
    requires doc.Dict? && Origin(f) == c && c != LoadCheck
    requires Position(c) <= 2 || InfoReadable(doc.fields)
    ensures multiset(Validate(doc).errors)[f] == multiset(StageReport(doc.fields, c).errors)[f]
    ensures multiset(Validate(doc).warnings)[f] == multiset(StageReport(doc.fields, c).warnings)[f]
  {
    Isolation(doc, f);
    RanWhen(doc.fields, c);
  }

  // ---------------------------------------------------------------------
  // Cross-validation

  /** How many mapping entries of `entries` have `key` set to `v`. */
  function Occurrences(entries: seq<Value>, key: string, v: Value): (n: nat)
    ensures n <= |entries|
    decreases |entries|
  {
    if entries == [] then 0
    else
      var last := entries[|entries| - 1];
      Occurrences(entries[..|entries| - 1], key, v) + (if Sets(last, key, v) then 1 else 0)
  }

  lemma OccurrencesLast(entries: seq<Value>, key: string, v: Value)
    requires entries != []
    ensures Occurrences(entries, key, v) ==
      Occurrences(entries[..|entries| - 1], key, v) + if Sets(entries[|entries| - 1], key, v) then 1 else 0
  {
  }

  /** How many steps of `task` refer to `target` under the key of `kind`. */
  function TaskSteps(kind: RefKind, task: Value, target: Value): nat {
    if task.Dict? && "steps" in task.fields && task.fields["steps"].List?
    then Occurrences(task.fields["steps"].items, RefKey(kind), target) else 0
  }

  /** How many steps of `tasks` refer to `target` under the key of `kind`. */
  function TaskOccurrences(kind: RefKind, tasks: seq<Value>, target: Value): nat
    decreases |tasks|
  {
    if tasks == [] then 0
    else TaskOccurrences(kind, tasks[..|tasks| - 1], target) + TaskSteps(kind, tasks[|tasks| - 1], target)
  }

  /** Whether `entry` is a mapping with `key` set to `v`. */
  predicate Sets(entry: Value, key: string, v: Value) {
    entry.Dict? && key in entry.fields && entry.fields[key] == v
  }

  /** One step that is a mapping: reported once if its reference is not declared. */
  lemma StepCount(kind: RefKind, ids: set<Value>, step: Value, other: RefKind, target: Value)
    requires step.Dict?
    ensures StepReference(kind, ids, step).completed
    ensures multiset(StepReference(kind, ids, step).errors)[UnknownReference(other, target)] ==
      if other == kind && target !in ids && Sets(step, RefKey(kind), target) then 1 else 0
  {
  }

  /** Steps that are all mappings are read to the end, and each step whose
      reference is not declared is reported once. */
  lemma {:induction false} StepsCount(kind: RefKind, ids: set<Value>, steps: seq<Value>, other: RefKind, target: Value)
    requires AllDicts(steps)
    ensures StepReferences(kind, ids, steps).completed
    ensures multiset(StepReferences(kind, ids, steps).errors)[UnknownReference(other, target)] ==
      if other == kind && target !in ids then Occurrences(steps, RefKey(kind), target) else 0
    decreases |steps|
  {
    if steps != [] {
      var n := |steps| - 1;
      var before := steps[..n];
      forall i | 0 <= i < n ensures before[i].Dict? {
        assert before[i] == steps[i];
      }
      StepsCount(kind, ids, before, other, target);
      StepCount(kind, ids, steps[n], other, target);
      var a, b := StepReferences(kind, ids, before), StepReference(kind, ids, steps[n]);
      ThenCount(a, b, UnknownReference(other, target));
      assert StepReferences(kind, ids, steps) == a.Then(b);
      OccurrencesLast(steps, RefKey(kind), target);
    }
  }

  /** The steps of one task that can be read. */
  lemma TaskCount(kind: RefKind, ids: set<Value>, task: Value, other: RefKind, target: Value)
    requires TaskReadable(task)
    ensures TaskReferences(kind, ids, task).completed
    ensures multiset(TaskReferences(kind, ids, task).errors)[UnknownReference(other, target)] ==
      if other == kind && target !in ids then TaskSteps(kind, task, target) else 0
  {
    if "steps" in task.fields {
      StepsCount(kind, ids, task.fields["steps"].items, other, target);
    }
  }

  /** Tasks that can all be read are read to the end, and each of their
      steps whose reference is not declared is reported once. */
  lemma {:induction false} TasksCount(kind: RefKind, ids: set<Value>, tasks: seq<Value>, other: RefKind, target: Value)
    requires forall i | 0 <= i < |tasks| :: TaskReadable(tasks[i])
    ensures TasksReferences(kind, ids, tasks).completed
    ensures multiset(TasksReferences(kind, ids, tasks).errors)[UnknownReference(other, target)] ==
      if other == kind && target !in ids then TaskOccurrences(kind, tasks, target) else 0
    decreases |tasks|
  {
    if tasks != [] {
      var n := |tasks| - 1;
      var before := tasks[..n];
      var f := UnknownReference(other, target);
      forall i | 0 <= i < n ensures TaskReadable(before[i]) {
        assert before[i] == tasks[i];
      }
      TasksCount(kind, ids, before, other, target);
      TaskCount(kind, ids, tasks[n], other, target);
      var a, b := TasksReferences(kind, ids, before), TaskReferences(kind, ids, tasks[n]);
      ThenCount(a, b, f);
      assert TasksReferences(kind, ids, tasks) == a.Then(b);
      assert TaskOccurrences(kind, tasks, target) == TaskOccurrences(kind, before, target) + TaskSteps(kind, tasks[n], target);
    }
  }

  /** The reference check of one section against readable tasks. */
  lemma ReferencesCount(kind: RefKind, declarations: Value, tasks: Value, other: RefKind, target: Value)
    requires declarations.List? && AllDicts(declarations.items) && tasks.List?
    requires forall i | 0 <= i < |tasks.items| :: TaskReadable(tasks.items[i])
    ensures References(kind, declarations, tasks).completed
    ensures multiset(References(kind, declarations, tasks).errors)[UnknownReference(other, target)] ==
      if other == kind && target !in DeclaredIds(declarations.items) then TaskOccurrences(kind, tasks.items, target) else 0
  {
    TasksCount(kind, DeclaredIds(declarations.items), tasks.items, other, target);
  }

  /** The steps of a task are read to the end exactly when all of them are mappings. */
  lemma {:induction false} StepReferencesCompletes(kind: RefKind, ids: set<Value>, steps: seq<Value>)
    ensures StepReferences(kind, ids, steps).completed <==> AllDicts(steps)
    decreases |steps|
  {
    if steps != [] {
      var n := |steps| - 1;
      var before := steps[..n];
      StepReferencesCompletes(kind, ids, before);
      forall i | 0 <= i < n ensures before[i] == steps[i] {}
      assert AllDicts(steps) <==> AllDicts(before) && steps[n].Dict?;
    }
  }

  /** A task's steps are read to the end exactly when the task can be read. */
  lemma TaskReferencesCompletes(kind: RefKind, ids: set<Value>, task: Value)
    ensures TaskReferences(kind, ids, task).completed <==> TaskReadable(task)
  {
    if task.Dict? && "steps" in task.fields && task.fields["steps"].List? {
      StepReferencesCompletes(kind, ids, task.fields["steps"].items);
    }
  }

  /** The tasks are read to the end exactly when every one of them can be read. */
  lemma {:induction false} TasksReferencesCompletes(kind: RefKind, ids: set<Value>, tasks: seq<Value>)
    ensures TasksReferences(kind, ids, tasks).completed <==> forall i | 0 <= i < |tasks| :: TaskReadable(tasks[i])
    decreases |tasks|
  {
    if tasks != [] {
      var n := |tasks| - 1;
      var before := tasks[..n];
      TasksReferencesCompletes(kind, ids, before);
      TaskReferencesCompletes(kind, ids, tasks[n]);
      forall i | 0 <= i < n ensures before[i] == tasks[i] {}
      assert TasksReferences(kind, ids, tasks) == TasksReferences(kind, ids, before).Then(TaskReferences(kind, ids, tasks[n]));
    }
  }

  /** The reference check of one section completes exactly when the section
      is a list of mappings and the tasks a list of readable tasks. */
  lemma ReferencesCompletes(kind: RefKind, declarations: Value, tasks: Value)
    ensures References(kind, declarations, tasks).completed <==>
      declarations.List? && AllDicts(declarations.items) && tasks.List? &&
      forall i | 0 <= i < |tasks.items| :: TaskReadable(tasks.items[i])
  {
    if declarations.List? && AllDicts(declarations.items) && tasks.List? {
      TasksReferencesCompletes(kind, DeclaredIds(declarations.items), tasks.items);
    }
  }

  /** The cross-check reads anything: `tasks` is present with `models` or `prompts`. */
  predicate CrossRuns(doc: map<string, Value>) {
    "tasks" in doc && ("models" in doc || "prompts" in doc)
  }

  /** The cross-check raises exactly when it runs on something it cannot read. */
  lemma CrossCompletes(doc: map<string, Value>)
    ensures CrossFindings(doc).completed <==> (CrossRuns(doc) ==> CrossReadable(doc))
  {
    if "tasks" in doc {
      if "models" in doc {
        ReferencesCompletes(Model, doc["models"], doc["tasks"]);
      }
      if "prompts" in doc {
        ReferencesCompletes(Prompt, doc["prompts"], doc["tasks"]);
      }
    }
  }

  /** The cross-check's report of references to `target` under the key of `kind`. */
  lemma CrossStageCount(doc: map<string, Value>, kind: RefKind, target: Value)
    requires CrossReadable(doc)
    requires "tasks" in doc && SectionName(kind) in doc
    ensures multiset(CrossFindings(doc).errors)[UnknownReference(kind, target)] ==
      if target in DeclaredIds(doc[SectionName(kind)].items) then 0
      else TaskOccurrences(kind, doc["tasks"].items, target)
  {
    var f := UnknownReference(kind, target);
    var models := if "models" in doc then References(Model, doc["models"], doc["tasks"]) else Clean;
    var prompts := if "prompts" in doc then References(Prompt, doc["prompts"], doc["tasks"]) else Clean;
    if "models" in doc {
      ReferencesCount(Model, doc["models"], doc["tasks"], kind, target);
    }
    if "prompts" in doc {
      ReferencesCount(Prompt, doc["prompts"], doc["tasks"], kind, target);
    }
    ThenCount(models, prompts, f);
  }

  /** With `tasks` and `models` (or `prompts`) present, every task step whose
      `model` (or `prompt`) is not a declared id is reported exactly once,
      and a step naming a declared id not at all. */
  lemma CrossCount(doc: Value, kind: RefKind, target: Value)
    requires doc.Dict? && InfoReadable(doc.fields) && CrossReadable(doc.fields)
    requires "tasks" in doc.fields && SectionName(kind) in doc.fields
    ensures multiset(Validate(doc).errors)[UnknownReference(kind, target)] ==
      if target in DeclaredIds(doc.fields[SectionName(kind)].items) then 0
      else TaskOccurrences(kind, doc.fields["tasks"].items, target)
  {
    assert Origin(UnknownReference(kind, target)) == CrossCheck;
    CrossStageCount(doc.fields, kind, target);
    StageCounted(doc, CrossCheck, UnknownReference(kind, target));
  }

  // ---------------------------------------------------------------------
  // List sections, entry by entry

  /** `MissingKeys` reports nothing but missing keys. */
  lemma MissingKeysOnly(place: Place, present: map<string, Value>, names: seq<string>, f: Finding)
    requires !f.MissingKey?
    ensures multiset(MissingKeys(place, present, names))[f] == 0
  {
    MissingKeysSound(place, present, names);
    assert f !in MissingKeys(place, present, names);
  }

  /** The check of an enumerated field reports one finding per value that is
      not allowed: a model type as a warning, a prompt role or constraint
      severity as an error. */
  lemma EnumeratedCount(kind: Kind, fields: map<string, Value>, f: Finding)
    ensures multiset(EnumeratedCheck(kind, fields).warnings)[f] ==
      if kind == Model && f.UnknownModelType? && Sets(Dict(fields), "type", f.modelType) && !OneOf(f.modelType, ModelTypes) then 1 else 0
    ensures multiset(EnumeratedCheck(kind, fields).errors)[f] ==
      if kind == Prompt && f.InvalidRole? && Sets(Dict(fields), "role", f.role) && !OneOf(f.role, PromptRoles) then 1
      else if kind == Constraint && f.InvalidSeverity? && Sets(Dict(fields), "severity", f.severity) && !OneOf(f.severity, Severities) then 1
      else 0
  {
  }

  /** The count of a finding among the errors of an entry that is a mapping:
      its missing fields, then a duplicate id, then its enumerated field. */
  lemma EntryParts(kind: Kind, index: nat, entry: Value, seen: set<Value>, f: Finding)
    requires entry.Dict?
    ensures multiset(EntryFindings(kind, index, entry, seen).errors)[f] ==
      multiset(MissingKeys(Entry(kind, index), entry.fields, RequiredFields(kind)))[f] +
      (if f.DuplicateId? && f.kind == kind && Sets(entry, "id", f.id) && f.id in seen then 1 else 0) +
      multiset(EnumeratedCheck(kind, entry.fields).errors)[f]
    ensures EntryFindings(kind, index, entry, seen).warnings == EnumeratedCheck(kind, entry.fields).warnings
  {
  }

  /** One entry reports each absent required field once, under its own
      index, if it is a mapping. */
  lemma EntryMissing(kind: Kind, index: nat, entry: Value, seen: set<Value>, i: nat, key: string)
    ensures multiset(EntryFindings(kind, index, entry, seen).errors)[MissingKey(Entry(kind, i), key)] ==
      if i == index && entry.Dict? && key in RequiredFields(kind) && key !in entry.fields then 1 else 0
  {
    if entry.Dict? {
      var f := MissingKey(Entry(kind, i), key);
      var place := Entry(kind, index);
      EntryParts(kind, index, entry, seen, f);
      EnumeratedCount(kind, entry.fields, f);
      if i == index {
        RequiredFieldsDistinct(kind);
        MissingKeysCount(place, entry.fields, RequiredFields(kind), key);
      } else {
        MissingKeysSound(place, entry.fields, RequiredFields(kind));
        assert f !in MissingKeys(place, entry.fields, RequiredFields(kind));
      }
    }
  }

  /** An id is declared by the entries exactly when one of them sets it. */
  lemma {:induction false} DeclaredIdsOccur(entries: seq<Value>, v: Value)
    ensures v in DeclaredIds(entries) <==> Occurrences(entries, "id", v) > 0
    decreases |entries|
  {
    if entries != [] {
      var n := |entries| - 1;
      DeclaredIdsOccur(entries[..n], v);
      DeclaredIdsStep(entries, n);
      assert entries[..n + 1] == entries;
      OccurrencesLast(entries, "id", v);
    }
  }

  /** An id set by `n` entries of a section is reported as a duplicate
      `n - 1` times: every entry but the first that sets it. */
  lemma {:induction false} EntriesDuplicates(kind: Kind, entries: seq<Value>, v: Value)
    ensures multiset(EntriesFindings(kind, entries).errors)[DuplicateId(kind, v)] ==
      if Occurrences(entries, "id", v) > 0 then Occurrences(entries, "id", v) - 1 else 0
    decreases |entries|
  {
    if entries != [] {
      var n := |entries| - 1;
      var before := entries[..n];
      var f := DuplicateId(kind, v);
      EntriesDuplicates(kind, before, v);
      var a, b := EntriesFindings(kind, before), EntryFindings(kind, n, entries[n], DeclaredIds(before));
      assert EntriesFindings(kind, entries) == a.Then(b);
      ThenCount(a, b, f);
      if entries[n].Dict? {
        EntryParts(kind, n, entries[n], DeclaredIds(before), f);
        MissingKeysOnly(Entry(kind, n), entries[n].fields, RequiredFields(kind), f);
        EnumeratedCount(kind, entries[n].fields, f);
      }
      DeclaredIdsOccur(before, v);
      OccurrencesLast(entries, "id", v);
    }
  }

  /** A model type that is not allowed is warned about once per model that
      sets it, and never by another section. */
  lemma {:induction false} EntriesModelTypes(kind: Kind, entries: seq<Value>, v: Value)
    ensures multiset(EntriesFindings(kind, entries).warnings)[UnknownModelType(v)] ==
      if kind == Model && !OneOf(v, ModelTypes) then Occurrences(entries, "type", v) else 0
    decreases |entries|
  {
    if entries != [] {
      var n := |entries| - 1;
      var before := entries[..n];
      var f := UnknownModelType(v);
      EntriesModelTypes(kind, before, v);
      var a, b := EntriesFindings(kind, before), EntryFindings(kind, n, entries[n], DeclaredIds(before));
      assert EntriesFindings(kind, entries) == a.Then(b);
      ThenCount(a, b, f);
      if entries[n].Dict? {
        EntryParts(kind, n, entries[n], DeclaredIds(before), f);
        EnumeratedCount(kind, entries[n].fields, f);
      }
      OccurrencesLast(entries, "type", v);
    }
  }

  /** A prompt role that is not allowed is an error once per prompt that
      sets it, and never reported by another section. */
  lemma {:induction false} EntriesRoles(kind: Kind, entries: seq<Value>, v: Value)
    ensures multiset(EntriesFindings(kind, entries).errors)[InvalidRole(v)] ==
      if kind == Prompt && !OneOf(v, PromptRoles) then Occurrences(entries, "role", v) else 0
    decreases |entries|
  {
    if entries != [] {
      var n := |entries| - 1;
      var before := entries[..n];
      var f := InvalidRole(v);
      EntriesRoles(kind, before, v);
      var a, b := EntriesFindings(kind, before), EntryFindings(kind, n, entries[n], DeclaredIds(before));
      assert EntriesFindings(kind, entries) == a.Then(b);
      ThenCount(a, b, f);
      if entries[n].Dict? {
        EntryParts(kind, n, entries[n], DeclaredIds(before), f);
        MissingKeysOnly(Entry(kind, n), entries[n].fields, RequiredFields(kind), f);
        EnumeratedCount(kind, entries[n].fields, f);
      }
      OccurrencesLast(entries, "role", v);
    }
  }

  /** A constraint severity that is not allowed is an error once per
      constraint that sets it, and never reported by another section. */
  lemma {:induction false} EntriesSeverities(kind: Kind, entries: seq<Value>, v: Value)
    ensures multiset(EntriesFindings(kind, entries).errors)[InvalidSeverity(v)] ==
      if kind == Constraint && !OneOf(v, Severities) then Occurrences(entries, "severity", v) else 0
    decreases |entries|
  {
    if entries != [] {
      var n := |entries| - 1;
      var before := entries[..n];
      var f := InvalidSeverity(v);
      EntriesSeverities(kind, before, v);
      var a, b := EntriesFindings(kind, before), EntryFindings(kind, n, entries[n], DeclaredIds(before));
      assert EntriesFindings(kind, entries) == a.Then(b);
      ThenCount(a, b, f);
      if entries[n].Dict? {
        EntryParts(kind, n, entries[n], DeclaredIds(before), f);
        MissingKeysOnly(Entry(kind, n), entries[n].fields, RequiredFields(kind), f);
        EnumeratedCount(kind, entries[n].fields, f);
      }
      OccurrencesLast(entries, "severity", v);
    }
  }

  /** Each entry that is not a mapping is reported once, under its index. */
  lemma {:induction false} EntriesNotDict(kind: Kind, entries: seq<Value>, i: nat)
    ensures multiset(EntriesFindings(kind, entries).errors)[EntryNotDict(kind, i)] ==
      if i < |entries| && !entries[i].Dict? then 1 else 0
    decreases |entries|
  {
    if entries != [] {
      var n := |entries| - 1;
      var before := entries[..n];
      var f := EntryNotDict(kind, i);
      EntriesNotDict(kind, before, i);
      var a, b := EntriesFindings(kind, before), EntryFindings(kind, n, entries[n], DeclaredIds(before));
      assert EntriesFindings(kind, entries) == a.Then(b);
      ThenCount(a, b, f);
      if entries[n].Dict? {
        EntryParts(kind, n, entries[n], DeclaredIds(before), f);
        MissingKeysOnly(Entry(kind, n), entries[n].fields, RequiredFields(kind), f);
        EnumeratedCount(kind, entries[n].fields, f);
      }
      if i < n {
        assert before[i] == entries[i];
      }
    }
  }

  /** Each absent required field of an entry that is a mapping is reported
      once, under the entry's index, whatever the entries before it were. */
  lemma {:induction false} EntriesMissing(kind: Kind, entries: seq<Value>, i: nat, key: string)
    ensures multiset(EntriesFindings(kind, entries).errors)[MissingKey(Entry(kind, i), key)] ==
      if i < |entries| && entries[i].Dict? && key in RequiredFields(kind) && key !in entries[i].fields then 1 else 0
    decreases |entries|
  {
    if entries != [] {
      var n := |entries| - 1;
      var before := entries[..n];
      EntriesMissing(kind, before, i, key);
      var a, b := EntriesFindings(kind, before), EntryFindings(kind, n, entries[n], DeclaredIds(before));
      assert EntriesFindings(kind, entries) == a.Then(b);
      ThenCount(a, b, MissingKey(Entry(kind, i), key));
      EntryMissing(kind, n, entries[n], DeclaredIds(before), i, key);
      if i < n {
        assert before[i] == entries[i];
      }
    }
  }

  // ---------------------------------------------------------------------
  // What a validation run reports

  /** Each finding of a report sits in the list its severity calls for. */
  predicate Classified(r: Report) {
    (forall f | f in r.errors :: !IsWarning(f)) && (forall f | f in r.warnings :: IsWarning(f))
  }

  lemma {:induction false} RunClassified(step: nat -> Report, n: nat)
    requires forall i :: Classified(step(i))
    ensures Classified(RunOf(step, n))
  {
    if n > 0 {
      RunClassified(step, n - 1);
    }
  }

  /** Warnings and errors never mix: a finding is reported as an error only
      if it is one, and as a warning only if it is one. */
  lemma Classifies(doc: Value, f: Finding)
    ensures f in Validate(doc).errors ==> !IsWarning(f)
    ensures f in Validate(doc).warnings ==> IsWarning(f)
  {
    if doc.Dict? {
      forall i: nat ensures Classified(Steps(doc.fields)(i)) {
        StageEmits(doc.fields, StageAt(i));
      }
      RunClassified(Steps(doc.fields), StageCount);
    }
  }

  /** The errors of the first `m` steps lead the errors of any longer run. */
  lemma {:induction false} RunPrefix(step: nat -> Report, m: nat, n: nat)
    requires m <= n
    ensures RunOf(step, m).errors <= RunOf(step, n).errors
  {
    if m < n {
      RunPrefix(step, m, n - 1);
    }
  }

  /** The missing required sections are reported first, in the order of
      `RequiredSections`, ahead of every other error. */
  lemma MissingSectionsFirst(doc: Value)
    requires doc.Dict?
    ensures MissingKeys(TopLevel, doc.fields, RequiredSections) <= Validate(doc).errors
  {
    RunPrefix(Steps(doc.fields), 1, StageCount);
    RunFirst(doc.fields);
  }

  /** Each absent required section is reported exactly once; nothing else is
      reported as a missing section. */
  lemma MissingSectionCount(doc: Value, name: string)
    requires doc.Dict?
    ensures multiset(Validate(doc).errors)[MissingKey(TopLevel, name)] ==
      if name in RequiredSections && name !in doc.fields then 1 else 0
  {
    Isolation(doc, MissingKey(TopLevel, name));
    RequiredSectionsDistinct();
    MissingKeysCount(TopLevel, doc.fields, RequiredSections, name);
  }

  /** What the version check reports. */
  lemma VersionStageCount(doc: map<string, Value>, s: string)
    ensures multiset(StageReport(doc, VersionCheck).errors)[VersionNotString] ==
      if "openapia" in doc && !doc["openapia"].Str? then 1 else 0
    ensures multiset(StageReport(doc, VersionCheck).warnings)[UnsupportedVersion(s)] ==
      if "openapia" in doc && doc["openapia"] == Str(s) && !StartsWith(s, SupportedPrefix) then 1 else 0
  {
  }

  /** A version that is not a string is one error; a string that does not
      start with `0.1` is one warning; a string that does is neither. */
  lemma VersionReported(doc: Value, s: string)
    requires doc.Dict?
    ensures multiset(Validate(doc).errors)[VersionNotString] ==
      if "openapia" in doc.fields && !doc.fields["openapia"].Str? then 1 else 0
    ensures multiset(Validate(doc).warnings)[UnsupportedVersion(s)] ==
      if "openapia" in doc.fields && doc.fields["openapia"] == Str(s) && !StartsWith(s, SupportedPrefix) then 1 else 0
  {
    assert Origin(VersionNotString) == VersionCheck && Origin(UnsupportedVersion(s)) == VersionCheck;
    VersionStageCount(doc.fields, s);
    StageCounted(doc, VersionCheck, VersionNotString);
    StageCounted(doc, VersionCheck, UnsupportedVersion(s));
  }

  /** The required fields a mapping `info` is reported missing. */
  lemma InfoFindingsCount(info: Value, key: string)
    requires info.Dict?
    ensures multiset(InfoFindings(info).errors)[MissingKey(InfoSection, key)] ==
      if key in InfoFields && key !in info.fields then 1 else 0
  {
    var f := MissingKey(InfoSection, key);
    var missing := Report(MissingKeys(InfoSection, info.fields, InfoFields), [], true);
    var metadata := if "ai_metadata" in info.fields then MetadataFindings(info.fields["ai_metadata"]) else Clean;
    assert f !in metadata.errors;
    InfoFieldsDistinct();
    MissingKeysCount(InfoSection, info.fields, InfoFields, key);
    ThenCount(missing, metadata, f);
    assert InfoFindings(info) == missing.Then(metadata);
  }

  /** The required fields the info check reports missing. */
  lemma InfoStageCount(doc: map<string, Value>, key: string)
    ensures multiset(StageReport(doc, InfoCheck).errors)[MissingKey(InfoSection, key)] ==
      if "info" in doc && doc["info"].Dict? && key in InfoFields && key !in doc["info"].fields then 1 else 0
  {
    if "info" in doc && doc["info"].Dict? {
      InfoFindingsCount(doc["info"], key);
    }
  }

  /** A mapping `info` has each absent required field reported once. */
  lemma InfoFieldCount(doc: Value, key: string)
    requires doc.Dict?
    ensures multiset(Validate(doc).errors)[MissingKey(InfoSection, key)] ==
      if "info" in doc.fields && doc.fields["info"].Dict? && key in InfoFields && key !in doc.fields["info"].fields then 1 else 0
  {
    assert Origin(MissingKey(InfoSection, key)) == InfoCheck;
    InfoStageCount(doc.fields, key);
    StageCounted(doc, InfoCheck, MissingKey(InfoSection, key));
  }

  /** What the `ai_metadata` check reports. */
  lemma MetadataCount(metadata: Value, v: Value)
    ensures multiset(MetadataFindings(metadata).warnings)[DomainRecommended] ==
      if metadata.Dict? && "domain" !in metadata.fields then 1 else 0
    ensures multiset(MetadataFindings(metadata).errors)[InvalidComplexity(v)] ==
      if Sets(metadata, "complexity", v) && !OneOf(v, Complexities) then 1 else 0
  {
    if metadata.Dict? {
      var fields := metadata.fields;
      var domain := if "domain" in fields then Clean else Warning(DomainRecommended);
      var complexity := if "complexity" in fields && !OneOf(fields["complexity"], Complexities)
        then Error(InvalidComplexity(fields["complexity"])) else Clean;
      ThenCount(domain, complexity, DomainRecommended);
      ThenCount(domain, complexity, InvalidComplexity(v));
    }
  }

  /** The `ai_metadata` findings of a mapping `info`. */
  lemma InfoMetadataCount(info: Value, v: Value)
    requires info.Dict? && "ai_metadata" in info.fields
    ensures multiset(InfoFindings(info).warnings)[DomainRecommended] ==
      multiset(MetadataFindings(info.fields["ai_metadata"]).warnings)[DomainRecommended]
    ensures multiset(InfoFindings(info).errors)[InvalidComplexity(v)] ==
      multiset(MetadataFindings(info.fields["ai_metadata"]).errors)[InvalidComplexity(v)]
  {
    var missing := Report(MissingKeys(InfoSection, info.fields, InfoFields), [], true);
    var metadata := MetadataFindings(info.fields["ai_metadata"]);
    MissingKeysOnly(InfoSection, info.fields, InfoFields, InvalidComplexity(v));
    ThenCount(missing, metadata, DomainRecommended);
    ThenCount(missing, metadata, InvalidComplexity(v));
    assert InfoFindings(info) == missing.Then(metadata);
  }

  /** What the info check reports about `ai_metadata`. */
  lemma MetadataStageCount(doc: map<string, Value>, v: Value)
    requires "info" in doc && doc["info"].Dict? && "ai_metadata" in doc["info"].fields
    ensures var metadata := doc["info"].fields["ai_metadata"];
      multiset(StageReport(doc, InfoCheck).warnings)[DomainRecommended] ==
        (if metadata.Dict? && "domain" !in metadata.fields then 1 else 0)
    ensures var metadata := doc["info"].fields["ai_metadata"];
      multiset(StageReport(doc, InfoCheck).errors)[InvalidComplexity(v)] ==
        (if Sets(metadata, "complexity", v) && !OneOf(v, Complexities) then 1 else 0)
  {
    InfoMetadataCount(doc["info"], v);
    MetadataCount(doc["info"].fields["ai_metadata"], v);
  }

  /** A mapping `ai_metadata` without `domain` is one warning, and a
      `complexity` that is not allowed is one error. */
  lemma MetadataReported(doc: Value, v: Value)
    requires doc.Dict? && "info" in doc.fields && doc.fields["info"].Dict?
    requires "ai_metadata" in doc.fields["info"].fields
    ensures var metadata := doc.fields["info"].fields["ai_metadata"];
      multiset(Validate(doc).warnings)[DomainRecommended] ==
        (if metadata.Dict? && "domain" !in metadata.fields then 1 else 0)
    ensures var metadata := doc.fields["info"].fields["ai_metadata"];
      multiset(Validate(doc).errors)[InvalidComplexity(v)] ==
        (if Sets(metadata, "complexity", v) && !OneOf(v, Complexities) then 1 else 0)
  {
    assert Origin(DomainRecommended) == InfoCheck && Origin(InvalidComplexity(v)) == InfoCheck;
    MetadataStageCount(doc.fields, v);
    StageCounted(doc, InfoCheck, DomainRecommended);
    StageCounted(doc, InfoCheck, InvalidComplexity(v));
  }

  /** The context check: a value that is not a mapping is one error, and a
      mapping without `memory` one warning. */
  lemma ContextReported(doc: Value)
    requires doc.Dict? && InfoReadable(doc.fields) && "context" in doc.fields
    ensures multiset(Validate(doc).errors)[ContextNotADict] == if doc.fields["context"].Dict? then 0 else 1
    ensures multiset(Validate(doc).warnings)[MemoryRecommended] ==
      if doc.fields["context"].Dict? && "memory" !in doc.fields["context"].fields then 1 else 0
  {
    assert Origin(ContextNotADict) == ContextCheck && Origin(MemoryRecommended) == ContextCheck;
    StageCounted(doc, ContextCheck, ContextNotADict);
    StageCounted(doc, ContextCheck, MemoryRecommended);
  }

  /** The evaluation check: a value that is not a mapping is one error, and a
      mapping without `metrics` one warning. */
  lemma EvaluationReported(doc: Value)
    requires doc.Dict? && InfoReadable(doc.fields) && "evaluation" in doc.fields
    ensures multiset(Validate(doc).errors)[EvaluationNotADict] == if doc.fields["evaluation"].Dict? then 0 else 1
    ensures multiset(Validate(doc).warnings)[MetricsRecommended] ==
      if doc.fields["evaluation"].Dict? && "metrics" !in doc.fields["evaluation"].fields then 1 else 0
  {
    assert Origin(EvaluationNotADict) == EvaluationCheck && Origin(MetricsRecommended) == EvaluationCheck;
    StageCounted(doc, EvaluationCheck, EvaluationNotADict);
    StageCounted(doc, EvaluationCheck, MetricsRecommended);
  }

  /** A list section of a run in which the info check completed. */
  predicate Listed(doc: Value, kind: Kind) {
    doc.Dict? && InfoReadable(doc.fields) && SectionName(kind) in doc.fields && doc.fields[SectionName(kind)].List?
  }

  /** Of a list section, every finding but `NoModels` is reported as the
      section's entries report it. */
  lemma ListedStage(doc: map<string, Value>, kind: Kind, f: Finding)
    requires SectionName(kind) in doc && doc[SectionName(kind)].List? && f != NoModels
    ensures multiset(StageReport(doc, SectionCheck(kind)).errors)[f] ==
      multiset(EntriesFindings(kind, doc[SectionName(kind)].items).errors)[f]
    ensures multiset(StageReport(doc, SectionCheck(kind)).warnings)[f] ==
      multiset(EntriesFindings(kind, doc[SectionName(kind)].items).warnings)[f]
  {
    var section := doc[SectionName(kind)];
    assert StageReport(doc, SectionCheck(kind)) == SectionFindings(kind, section);
    if kind == Model && section.items == [] {
      assert EntriesFindings(kind, section.items) == Clean;
    }
  }

  /** The shape of a list section: a value that is not a list is one error
      and nothing else from the section; an empty `models` list is one error
      and nothing else; any other empty list reports nothing. */
  lemma ShapeStage(doc: map<string, Value>, kind: Kind, f: Finding)
    requires SectionName(kind) in doc
    ensures !doc[SectionName(kind)].List? ==>
      multiset(StageReport(doc, SectionCheck(kind)).errors)[f] == (if f == NotAList(kind) then 1 else 0) &&
      multiset(StageReport(doc, SectionCheck(kind)).warnings)[f] == 0
    ensures doc[SectionName(kind)] == List([]) ==>
      multiset(StageReport(doc, SectionCheck(kind)).errors)[f] == (if kind == Model && f == NoModels then 1 else 0) &&
      multiset(StageReport(doc, SectionCheck(kind)).warnings)[f] == 0
  {
  }

  /** In a run: a section that is not a list is one error and nothing else
      from the section; an empty `models` list is one error and nothing
      else; an empty `prompts`, `constraints` or `tasks` list reports nothing. */
  lemma SectionShape(doc: Value, kind: Kind, f: Finding)
    requires doc.Dict? && InfoReadable(doc.fields) && SectionName(kind) in doc.fields
    requires Origin(f) == SectionCheck(kind)
    ensures !doc.fields[SectionName(kind)].List? ==>
      multiset(Validate(doc).errors)[f] == (if f == NotAList(kind) then 1 else 0) &&
      multiset(Validate(doc).warnings)[f] == 0
    ensures doc.fields[SectionName(kind)] == List([]) ==>
      multiset(Validate(doc).errors)[f] == (if kind == Model && f == NoModels then 1 else 0) &&
      multiset(Validate(doc).warnings)[f] == 0
  {
    ShapeStage(doc.fields, kind, f);
    StageCounted(doc, SectionCheck(kind), f);
  }

  /** An id set by `n` entries of a list section is reported as a duplicate
      `n - 1` times. */
  lemma DuplicateIds(doc: Value, kind: Kind, v: Value)
    requires Listed(doc, kind)
    ensures var entries := doc.fields[SectionName(kind)].items;
      multiset(Validate(doc).errors)[DuplicateId(kind, v)] ==
        if Occurrences(entries, "id", v) > 0 then Occurrences(entries, "id", v) - 1 else 0
  {
    var f := DuplicateId(kind, v);
    assert Origin(f) == SectionCheck(kind);
    EntriesDuplicates(kind, doc.fields[SectionName(kind)].items, v);
    ListedStage(doc.fields, kind, f);
    StageCounted(doc, SectionCheck(kind), f);
  }

  /** A model type that is not allowed is warned about once per model that
      sets it. */
  lemma ModelTypesReported(doc: Value, v: Value)
    requires Listed(doc, Model)
    ensures multiset(Validate(doc).warnings)[UnknownModelType(v)] ==
      if OneOf(v, ModelTypes) then 0 else Occurrences(doc.fields["models"].items, "type", v)
  {
    var f := UnknownModelType(v);
    assert Origin(f) == SectionCheck(Model);
    EntriesModelTypes(Model, doc.fields["models"].items, v);
    ListedStage(doc.fields, Model, f);
    StageCounted(doc, SectionCheck(Model), f);
  }

  /** A prompt role that is not allowed is an error once per prompt that
      sets it. */
  lemma RolesReported(doc: Value, v: Value)
    requires Listed(doc, Prompt)
    ensures multiset(Validate(doc).errors)[InvalidRole(v)] ==
      if OneOf(v, PromptRoles) then 0 else Occurrences(doc.fields["prompts"].items, "role", v)
  {
    var f := InvalidRole(v);
    assert Origin(f) == SectionCheck(Prompt);
    EntriesRoles(Prompt, doc.fields["prompts"].items, v);
    ListedStage(doc.fields, Prompt, f);
    StageCounted(doc, SectionCheck(Prompt), f);
  }

  /** A constraint severity that is not allowed is an error once per
      constraint that sets it. */
  lemma SeveritiesReported(doc: Value, v: Value)
    requires Listed(doc, Constraint)
    ensures multiset(Validate(doc).errors)[InvalidSeverity(v)] ==
      if OneOf(v, Severities) then 0 else Occurrences(doc.fields["constraints"].items, "severity", v)
  {
    var f := InvalidSeverity(v);
    assert Origin(f) == SectionCheck(Constraint);
    EntriesSeverities(Constraint, doc.fields["constraints"].items, v);
    ListedStage(doc.fields, Constraint, f);
    StageCounted(doc, SectionCheck(Constraint), f);
  }

  /** Each entry of a list section that is not a mapping is reported once,
      under its index. */
  lemma NonDictEntries(doc: Value, kind: Kind, i: nat)
    requires Listed(doc, kind)
    ensures var entries := doc.fields[SectionName(kind)].items;
      multiset(Validate(doc).errors)[EntryNotDict(kind, i)] == if i < |entries| && !entries[i].Dict? then 1 else 0
  {
    var f := EntryNotDict(kind, i);
    assert Origin(f) == SectionCheck(kind);
    EntriesNotDict(kind, doc.fields[SectionName(kind)].items, i);
    ListedStage(doc.fields, kind, f);
    StageCounted(doc, SectionCheck(kind), f);
  }

  /** Each absent required field of each mapping entry of a list section is
      reported once, under the entry's index: an entry that is not a mapping
      does not stop the entries after it from being checked. */
  lemma MissingFields(doc: Value, kind: Kind, i: nat, key: string)
    requires Listed(doc, kind)
    ensures var entries := doc.fields[SectionName(kind)].items;
      multiset(Validate(doc).errors)[MissingKey(Entry(kind, i), key)] ==
        if i < |entries| && entries[i].Dict? && key in RequiredFields(kind) && key !in entries[i].fields then 1 else 0
  {
    var f := MissingKey(Entry(kind, i), key);
    assert Origin(f) == SectionCheck(kind);
    EntriesMissing(kind, doc.fields[SectionName(kind)].items, i, key);
    ListedStage(doc.fields, kind, f);
    StageCounted(doc, SectionCheck(kind), f);
  }

  /** An unknown model type is never an error; an invalid prompt role or
      constraint severity is never a warning. */
  lemma Asymmetry(doc: Value, v: Value)
    ensures UnknownModelType(v) !in Validate(doc).errors
    ensures InvalidRole(v) !in Validate(doc).warnings && InvalidSeverity(v) !in Validate(doc).warnings
  {
    assert IsWarning(UnknownModelType(v)) && !IsWarning(InvalidRole(v)) && !IsWarning(InvalidSeverity(v));
    Classifies(doc, UnknownModelType(v));
    Classifies(doc, InvalidRole(v));
    Classifies(doc, InvalidSeverity(v));
  }
}
