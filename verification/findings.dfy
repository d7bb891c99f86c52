/** What the validator reports: findings, the check each one comes from,
    and the report of one check (its errors, its warnings, and whether it
    ran to the end or raised). */
module Findings {
  import opened Document

  /** The four list sections whose entries are checked one by one. */
  datatype Kind = Model | Prompt | Constraint | Task

  /** The two sections a task step can refer to, by its `model` or `prompt` key. */
  type RefKind = k: Kind | k == Model || k == Prompt witness Model

  /** Where a required key was looked for. */
  datatype Place = TopLevel | InfoSection | Entry(kind: Kind, index: nat)

  /** The syntax a file was parsed with. */
  datatype Format = Yaml | Json

  datatype Finding =
    // errors of the document checks
    | MissingKey(place: Place, key: string)
    | VersionNotString
    | InvalidComplexity(complexity: Value)
    | NotAList(kind: Kind)
    | NoModels
    | EntryNotDict(kind: Kind, index: nat)
    | DuplicateId(kind: Kind, id: Value)
    | InvalidRole(role: Value)
    | InvalidSeverity(severity: Value)
    | ContextNotADict
    | EvaluationNotADict
    | UnknownReference(referred: RefKind, target: Value)
    // warnings of the document checks
    | UnsupportedVersion(version: string)
    | DomainRecommended
    | UnknownModelType(modelType: Value)
    | MemoryRecommended
    | MetricsRecommended
    // errors of loading a file
    | FileNotFound(path: string)
    | UnsupportedFormat(path: string)
    | ParseError(format: Format)
    | UnexpectedError

  /** The findings that go to the warning list; every other one is an error. */
  predicate IsWarning(f: Finding) {
    f.UnsupportedVersion? || f.DomainRecommended? || f.UnknownModelType? ||
    f.MemoryRecommended? || f.MetricsRecommended?
  }

  /** The checks of one validation run, in the order they run, plus loading. */
  datatype Check =
    | RequiredCheck
    | VersionCheck
    | InfoCheck
    | SectionCheck(kind: Kind)
    | ContextCheck
    | EvaluationCheck
    | CrossCheck
    | LoadCheck

  /** The one check that can produce a given finding. */
  function Origin(f: Finding): Check {
    match f
    case MissingKey(place, _) =>
      (match place
       case TopLevel => RequiredCheck
       case InfoSection => InfoCheck
       case Entry(kind, _) => SectionCheck(kind))
    case VersionNotString => VersionCheck
    case UnsupportedVersion(_) => VersionCheck
    case InvalidComplexity(_) => InfoCheck
    case DomainRecommended => InfoCheck
    case NotAList(kind) => SectionCheck(kind)
    case NoModels => SectionCheck(Model)
    case EntryNotDict(kind, _) => SectionCheck(kind)
    case DuplicateId(kind, _) => SectionCheck(kind)
    case UnknownModelType(_) => SectionCheck(Model)
    case InvalidRole(_) => SectionCheck(Prompt)
    case InvalidSeverity(_) => SectionCheck(Constraint)
    case ContextNotADict => ContextCheck
    case EvaluationNotADict => EvaluationCheck
    case MemoryRecommended => ContextCheck
    case MetricsRecommended => EvaluationCheck
    case UnknownReference(_, _) => CrossCheck
    case FileNotFound(_) => LoadCheck
    case UnsupportedFormat(_) => LoadCheck
    case ParseError(_) => LoadCheck
    case UnexpectedError => LoadCheck
  }

  /** What one check appended to the error and warning lists, and whether it
      finished (false: the source raises an exception part-way, after
      appending `errors` and `warnings`). */
  datatype Report = Report(errors: seq<Finding>, warnings: seq<Finding>, completed: bool) {

    /** Running `next` after this check: skipped once this check has raised. */
    function Then(next: Report): Report {
      if completed then Report(errors + next.errors, warnings + next.warnings, next.completed) else this
    }
  }

  const Clean := Report([], [], true)
  const Raised := Report([], [], false)

  function Error(f: Finding): Report { Report([f], [], true) }
  function Warning(f: Finding): Report { Report([], [f], true) }

  /** Every finding of `r` comes from check `c`, and sits in the list its
      severity calls for. */
  predicate Emits(r: Report, c: Check) {
    (forall f | f in r.errors :: Origin(f) == c && !IsWarning(f)) &&
    (forall f | f in r.warnings :: Origin(f) == c && IsWarning(f))
  }

  /** Concatenation is associative; stated once so that the loops that append
      findings need not rediscover it. */
  lemma AppendAssoc(a: seq<Finding>, b: seq<Finding>, c: seq<Finding>)
    ensures a + (b + c) == (a + b) + c
  {
  }
}
