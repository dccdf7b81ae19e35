/** The command line front end of the batch compiler (`BatchCompilerCli`): how one option
    value is read (an empty value counts as absent, a missing required one is an error),
    how list options are split, trimmed and filtered, how the include and exclude
    patterns narrow the batch classes, how the batch classes are compiled one after
    another (fail-fast or continue-on-error), and which exit code the program ends with.
    The command line parser, the file system, the project's classes and the compiler
    tools are given as parameters. */
module BatchCompilerCli {
  import opened Common

  // ---------------------------------------------------------------------------
  // Options and their values

  /** A command line option: its long name and whether it must be given. */
  datatype CliOption = CliOption(longOpt: string, required: bool)

  /** The options of `Opts` whose values this model reads. */
  const ClassAnalyzerOption := CliOption("classAnalyzer", false)
  const BatchCompilerOption := CliOption("batchCompiler", false)
  const OutputOption := CliOption("output", true)
  const ExternalOption := CliOption("external", false)
  const ExploreOption := CliOption("explore", true)
  const EmbedOption := CliOption("embed", false)
  const AttachOption := CliOption("attach", false)
  const IncludeOption := CliOption("include", false)
  const ExcludeOption := CliOption("exclude", false)
  const DataModelLoaderFactoryOption := CliOption("dataModelLoaderFactory", false)
  const ExternalPortProcessorsOption := CliOption("externalPortProcessors", false)
  const BatchProcessorsOption := CliOption("batchProcessors", false)
  const JobflowProcessorsOption := CliOption("jobflowProcessors", false)
  const CompilerParticipantsOption := CliOption("participants", false)
  const RuntimeWorkingDirectoryOption := CliOption("runtimeWorkingDirectory", false)

  /** `CLASS_SEPARATOR`. */
  const ClassSeparator: char := ','

  function RequiredMessage(option: CliOption): string
  {
    "required argument was not set: --" + option.longOpt
  }

  /** `parse(cmd, option)`, where `value` is what the command line holds for the option:
      an empty value is treated as absent, and an absent value of a required option is
      an `IllegalArgumentException`. */
  function ParseValue(value: Option<string>, option: CliOption): (r: Result<Option<string>>)
    ensures r.Failure? <==> option.required && (value.None? || value.value == [])
    ensures r.Failure? ==> r.error == IllegalArgument(RequiredMessage(option))
    ensures r.Success? ==> (r.value.Some? <==> value.Some? && value.value != [])
    ensures r.Success? && r.value.Some? ==> r.value == value
  {
    var present := if value.Some? && value.value == [] then None else value;
    if present.None? && option.required then Failure(IllegalArgument(RequiredMessage(option)))
    else Success(present)
  }

  /** Leaving out `--output` or giving it an empty value stops the parse, naming the option. */
  lemma OutputIsRequired(value: Option<string>)
    requires value.None? || value == Some("")
    ensures ParseValue(value, OutputOption) == Failure(IllegalArgument("required argument was not set: --output"))
  {
  }

  // ---------------------------------------------------------------------------
  // List options

  /** Each part trimmed (`String.trim`). */
  function TrimAll(parts: seq<string>): (r: seq<string>)
  {
    seq(|parts|, i requires 0 <= i < |parts| => Trim(parts[i]))
  }

  /** The entries a list option keeps from its split parts: each part trimmed, the empty
      ones dropped, in order. */
  function Segments(parts: seq<string>): seq<string>
  {
    NonEmpty(TrimAll(parts))
  }

  /** One more part adds its trimmed form unless that is empty. */
  lemma SegmentsStep(parts: seq<string>, i: nat)
    requires i < |parts|
    ensures Segments(parts[..i + 1]) ==
      Segments(parts[..i]) + if Trim(parts[i]) == [] then [] else [Trim(parts[i])]
  {
    assert TrimAll(parts[..i + 1]) == TrimAll(parts[..i]) + [Trim(parts[i])];
    NonEmptyConcat(TrimAll(parts[..i]), [Trim(parts[i])]);
    assert NonEmpty([Trim(parts[i])]) == if Trim(parts[i]) == [] then [] else [Trim(parts[i])] by {
      assert [Trim(parts[i])][..0] == [];
    }
  }

  /** The entries of two runs of parts are the entries of each, in order. */
  lemma SegmentsConcat(a: seq<string>, b: seq<string>)
    ensures Segments(a + b) == Segments(a) + Segments(b)
  {
    var ab := TrimAll(a + b);
    var c := TrimAll(a) + TrimAll(b);
    assert |ab| == |c|;
    forall i | 0 <= i < |ab|
      ensures ab[i] == c[i]
    {
      if i < |a| {
        assert (a + b)[i] == a[i];
      } else {
        assert (a + b)[i] == b[i - |a|];
      }
    }
    assert ab == c;
    NonEmptyConcat(TrimAll(a), TrimAll(b));
  }

  /** A trimmed, non-empty string is left as it is by another trim. */
  lemma TrimOfTrimmed(t: string)
    requires t != [] && !IsTrimmed(t[0]) && !IsTrimmed(t[|t| - 1])
    ensures Trim(t) == t
  {
  }

  /** Every entry is non-empty and has no leading or trailing white space. */
  lemma SegmentsTrimmed(parts: seq<string>, i: nat)
    requires i < |Segments(parts)|
    ensures Segments(parts)[i] != [] && Trim(Segments(parts)[i]) == Segments(parts)[i]
  {
    var t := Segments(parts)[i];
    assert t in TrimAll(parts);
    var j :| 0 <= j < |parts| && TrimAll(parts)[j] == t;
    TrimBounds(parts[j]);
    TrimOfTrimmed(t);
  }

  /** The entries are exactly the non-empty trimmed parts. */
  lemma SegmentsMembers(parts: seq<string>, x: string)
    ensures x in Segments(parts) <==> x != [] && exists p | p in parts :: Trim(p) == x
  {
    if x != [] && exists p | p in parts :: Trim(p) == x {
      var p :| p in parts && Trim(p) == x;
      var j :| 0 <= j < |parts| && parts[j] == p;
      assert TrimAll(parts)[j] == x;
    }
    if x in Segments(parts) {
      assert x in TrimAll(parts);
      var j :| 0 <= j < |parts| && TrimAll(parts)[j] == x;
      assert parts[j] in parts;
    }
  }

  /** Parts that are all empty add no entries. */
  lemma SegmentsOfEmptyTail(kept: seq<string>, tail: seq<string>)
    requires forall i | 0 <= i < |tail| :: tail[i] == []
    ensures Segments(kept + tail) == Segments(kept)
  {
    SegmentsConcat(kept, tail);
    assert TrimAll(tail) == tail;
    NonEmptyOfEmpties(tail);
  }

  /** The trailing empty fields `String.split` removes make no difference to the entries. */
  lemma SegmentsOfSplit(s: string, sep: char)
    ensures Segments(JavaSplit(s, sep)) == Segments(SplitAll(s, sep))
  {
    if sep in s {
      var all := SplitAll(s, sep);
      var kept := DropTrailingEmpty(all);
      assert all == kept + all[|kept|..];
      SegmentsOfEmptyTail(kept, all[|kept|..]);
    } else {
      SplitAllWithoutSeparator(s, sep);
    }
  }

  /** A class named by its binary name (`ClassDescription`). */
  datatype ClassDescription = ClassDescription(binaryName: string)

  /** A file named by its path (`java.io.File`). */
  datatype File = File(path: string)

  /** The class named by each entry (`resolveClass`). */
  function ClassesOf(names: seq<string>): seq<ClassDescription>
  {
    seq(|names|, i requires 0 <= i < |names| => ClassDescription(names[i]))
  }

  lemma ClassesOfAppend(names: seq<string>, s: string)
    ensures ClassesOf(names + [s]) == ClassesOf(names) + [ClassDescription(s)]
  {
    var a := ClassesOf(names + [s]);
    var b := ClassesOf(names) + [ClassDescription(s)];
    assert |a| == |b|;
    forall i | 0 <= i < |a|
      ensures a[i] == b[i]
    {
      if i < |names| {
        assert (names + [s])[i] == names[i];
      }
    }
  }

  /** The entries of a list option's parsed value, split at `sep`: none when it is absent. */
  function ListEntries(parsed: Option<string>, sep: char): seq<string>
  {
    if parsed.None? then [] else Segments(JavaSplit(parsed.value, sep))
  }

  /** `parseClasses(cmd, option)`: the classes named by the comma separated entries. */
  method ParseClasses(value: Option<string>, option: CliOption) returns (r: Result<seq<ClassDescription>>)
    ensures var parsed := ParseValue(value, option);
      r == if parsed.Failure? then Failure(parsed.error) else Success(ClassesOf(ListEntries(parsed.value, ClassSeparator)))
  {
    var parsed := ParseValue(value, option);
    if parsed.Failure? {
      return Failure(parsed.error);
    }
    if parsed.value.None? {
      assert ClassesOf([]) == [];
      return Success([]);
    }
    var parts := JavaSplit(parsed.value.value, ClassSeparator);
    var results: seq<ClassDescription> := [];
    assert Segments(parts[..0]) == [] by {
      assert TrimAll(parts[..0]) == [];
    }
    for i := 0 to |parts|
      invariant results == ClassesOf(Segments(parts[..i]))
    {
      var s := Trim(parts[i]);
      SegmentsStep(parts, i);
      if s == [] {
        assert Segments(parts[..i + 1]) == Segments(parts[..i]);
      } else {
        assert Segments(parts[..i + 1]) == Segments(parts[..i]) + [s];
        ClassesOfAppend(Segments(parts[..i]), s);
        results := results + [ClassDescription(s)];
      }
    }
    assert parts[..|parts|] == parts;
    r := Success(results);
  }

  function MissingFileMessage(option: CliOption, path: string): string
  {
    "missing file: " + path + " (--" + option.longOpt + ")"
  }

  /** `resolveFile` applied to each entry in order: with `check`, the first entry that
      names no existing file is an `IllegalArgumentException`. */
  function ResolveFiles(entries: seq<string>, option: CliOption, check: bool, fileExists: string -> bool): (r: Result<seq<File>>)
    ensures r.Success? ==> |r.value| == |entries|
    ensures r.Failure? ==> check && r.error.IllegalArgument?
  {
    if entries == [] then Success([])
    else
      var previous := ResolveFiles(entries[..|entries| - 1], option, check, fileExists);
      var s := entries[|entries| - 1];
      if previous.Failure? then previous
      else if check && !fileExists(s) then Failure(IllegalArgument(MissingFileMessage(option, s)))
      else Success(previous.value + [File(s)])
  }

  /** A failure of earlier entries is not changed by later ones. */
  lemma {:induction false} ResolveFilesFailureSticks(a: seq<string>, b: seq<string>, option: CliOption, check: bool, fileExists: string -> bool)
    requires ResolveFiles(a, option, check, fileExists).Failure?
    ensures ResolveFiles(a + b, option, check, fileExists) == ResolveFiles(a, option, check, fileExists)
    decreases |b|
  {
    if b != [] {
      assert (a + b)[..|a + b| - 1] == a + b[..|b| - 1];
      ResolveFilesFailureSticks(a, b[..|b| - 1], option, check, fileExists);
    } else {
      assert a + b == a;
    }
  }

  /** The files of `entries`: one per entry, in order. */
  function FilesOf(entries: seq<string>): seq<File>
  {
    seq(|entries|, i requires 0 <= i < |entries| => File(entries[i]))
  }

  /** The entries resolve exactly when every one exists or nothing is checked, and then
      to one file per entry, in order. */
  lemma {:induction false} ResolveFilesSucceeds(entries: seq<string>, option: CliOption, check: bool, fileExists: string -> bool)
    ensures ResolveFiles(entries, option, check, fileExists).Success? <==>
      check ==> forall i | 0 <= i < |entries| :: fileExists(entries[i])
    ensures ResolveFiles(entries, option, check, fileExists).Success? ==>
      ResolveFiles(entries, option, check, fileExists).value == FilesOf(entries)
    decreases |entries|
  {
    if entries != [] {
      var previous := entries[..|entries| - 1];
      ResolveFilesSucceeds(previous, option, check, fileExists);
      assert forall i | 0 <= i < |previous| :: previous[i] == entries[i];
      if ResolveFiles(entries, option, check, fileExists).Success? {
        assert FilesOf(previous) + [File(entries[|entries| - 1])] == FilesOf(entries);
      }
    }
  }

  /** A checked entry that is missing, after entries that all exist, is the one the
      error names. */
  lemma {:induction false} ResolveFilesFirstMissing(entries: seq<string>, option: CliOption, fileExists: string -> bool, k: nat)
    requires k < |entries| && !fileExists(entries[k])
    requires forall j | 0 <= j < k :: fileExists(entries[j])
    ensures ResolveFiles(entries, option, true, fileExists) == Failure(IllegalArgument(MissingFileMessage(option, entries[k])))
  {
    var a := entries[..k + 1];
    ResolveFilesSucceeds(a[..k], option, true, fileExists);
    assert ResolveFiles(a, option, true, fileExists) == Failure(IllegalArgument(MissingFileMessage(option, entries[k])));
    ResolveFilesFailureSticks(a, entries[k + 1..], option, true, fileExists);
    assert a + entries[k + 1..] == entries;
  }

  /** Resolving one more entry: the earlier failure, the new entry's failure, or one
      more file. */
  lemma ResolveFilesAppend(entries: seq<string>, s: string, option: CliOption, check: bool, fileExists: string -> bool)
    ensures var previous := ResolveFiles(entries, option, check, fileExists);
      ResolveFiles(entries + [s], option, check, fileExists) ==
        if previous.Failure? then previous
        else if check && !fileExists(s) then Failure(IllegalArgument(MissingFileMessage(option, s)))
        else Success(previous.value + [File(s)])
  {
    assert (entries + [s])[..|entries|] == entries;
  }

  /** A missing checked entry after entries that all resolve decides the whole list. */
  lemma MissingEntryStops(a: seq<string>, s: string, b: seq<string>, option: CliOption, fileExists: string -> bool)
    requires ResolveFiles(a, option, true, fileExists).Success? && !fileExists(s)
    ensures ResolveFiles(a + [s] + b, option, true, fileExists) == Failure(IllegalArgument(MissingFileMessage(option, s)))
  {
    ResolveFilesAppend(a, s, option, true, fileExists);
    ResolveFilesFailureSticks(a + [s], b, option, true, fileExists);
  }

  /** A single part whose trimmed form is not empty is one entry. */
  lemma SegmentsOne(p: string)
    requires Trim(p) != []
    ensures Segments([p]) == [Trim(p)]
  {
    var t := [Trim(p)];
    assert TrimAll([p]) == t;
    assert t[..0] == [] && t[|t| - 1] != [];
    assert NonEmpty(t) == NonEmpty(t[..0]) + [t[0]];
  }

  /** The entries of the parts before, at and after `i`. */
  lemma SegmentsAround(parts: seq<string>, i: nat)
    requires i < |parts| && Trim(parts[i]) != []
    ensures Segments(parts) == Segments(parts[..i]) + [Trim(parts[i])] + Segments(parts[i + 1..])
  {
    var before, after := parts[..i], parts[i + 1..];
    assert parts == before + [parts[i]] + after;
    SegmentsConcat(before + [parts[i]], after);
    SegmentsConcat(before, [parts[i]]);
    SegmentsOne(parts[i]);
  }

  /** `parseFiles(cmd, option, check)`: the files named by the entries separated by
      `File.pathSeparator`, given here as `pathSeparator`; `fileExists` is `File.exists`. */
  method ParseFiles(value: Option<string>, option: CliOption, check: bool, pathSeparator: char, fileExists: string -> bool)
    returns (r: Result<seq<File>>)
    ensures var parsed := ParseValue(value, option);
      r == if parsed.Failure? then Failure(parsed.error)
           else ResolveFiles(ListEntries(parsed.value, pathSeparator), option, check, fileExists)
  {
    var parsed := ParseValue(value, option);
    if parsed.Failure? {
      return Failure(parsed.error);
    }
    if parsed.value.None? {
      return Success([]);
    }
    var parts := JavaSplit(parsed.value.value, pathSeparator);
    var results: seq<File> := [];
    assert Segments(parts[..0]) == [] by {
      assert TrimAll(parts[..0]) == [];
    }
    for i := 0 to |parts|
      invariant ResolveFiles(Segments(parts[..i]), option, check, fileExists) == Success(results)
    {
      var s := Trim(parts[i]);
      SegmentsStep(parts, i);
      if s == [] {
        assert Segments(parts[..i + 1]) == Segments(parts[..i]);
      } else {
        assert Segments(parts[..i + 1]) == Segments(parts[..i]) + [s];
        ResolveFilesAppend(Segments(parts[..i]), s, option, check, fileExists);
        if check && !fileExists(s) {
          SegmentsAround(parts, i);
          MissingEntryStops(Segments(parts[..i]), s, Segments(parts[i + 1..]), option, fileExists);
          return Failure(IllegalArgument(MissingFileMessage(option, s)));
        }
        results := results + [File(s)];
      }
    }
    assert parts[..|parts|] == parts;
    r := Success(results);
  }

  // ---------------------------------------------------------------------------
  // Class selection

  /** A predicate on project classes: batch classes (`BATCH_CLASS`), the classes whose
      name matches a pattern (`ClassNamePredicate.parse`), a negation, a conjunction. */
  datatype ClassPredicate =
    | BatchClass
    | Pattern(pattern: string)
    | Not(operand: ClassPredicate)
    | And(left: ClassPredicate, right: ClassPredicate)

  /** What the predicates refer to: which classes are batch classes, and which class
      names a pattern matches. */
  datatype Project = Project(isBatch: string -> bool, matches: (string, string) -> bool)

  predicate Accepts(p: ClassPredicate, project: Project, className: string)
  {
    match p
    case BatchClass => project.isBatch(className)
    case Pattern(pattern) => project.matches(pattern, className)
    case Not(q) => !Accepts(q, project, className)
    case And(l, q) => Accepts(l, project, className) && Accepts(q, project, className)
  }

  /** `parsePattern(cmd, option, negate)`: no predicate for an absent pattern, else the
      classes the pattern matches, or with `negate` those it does not match. */
  function ParsePattern(value: Option<string>, option: CliOption, negate: bool): (r: Result<Option<ClassPredicate>>)
    ensures r.Failure? <==> ParseValue(value, option).Failure?
    ensures r.Failure? ==> r.error == IllegalArgument(RequiredMessage(option))
    ensures r.Success? ==> (r.value.None? <==> value.None? || value.value == [])
    ensures r.Success? && r.value.Some? ==> forall project: Project, className ::
      Accepts(r.value.value, project, className) <==> (project.matches(value.value, className) != negate)
  {
    var parsed := ParseValue(value, option);
    if parsed.Failure? then Failure(parsed.error)
    else if parsed.value.None? then Success(None)
    else
      var resolved := Pattern(parsed.value.value);
      Success(Some(if negate then Not(resolved) else resolved))
  }

  /** The `sourcePredicate` list: the include and exclude predicates that are present. */
  function SourcePredicates(includes: Option<ClassPredicate>, excludes: Option<ClassPredicate>): (r: seq<ClassPredicate>)
    ensures forall p :: p in r <==> (includes == Some(p) || excludes == Some(p))
  {
    (if includes.Some? then [includes.value] else []) + (if excludes.Some? then [excludes.value] else [])
  }

  /** A class `process` compiles: a batch class accepted by every source predicate. */
  predicate Selected(sourcePredicate: seq<ClassPredicate>, project: Project, className: string)
  {
    project.isBatch(className) && forall i | 0 <= i < |sourcePredicate| :: Accepts(sourcePredicate[i], project, className)
  }

  /** The predicate `process` builds by conjoining `BATCH_CLASS` with each source predicate. */
  method SelectionPredicate(sourcePredicate: seq<ClassPredicate>) returns (p: ClassPredicate)
    ensures forall project: Project, className :: Accepts(p, project, className) <==> Selected(sourcePredicate, project, className)
  {
    p := BatchClass;
    for i := 0 to |sourcePredicate|
      invariant forall project: Project, className :: Accepts(p, project, className) <==>
        project.isBatch(className) && forall j | 0 <= j < i :: Accepts(sourcePredicate[j], project, className)
    {
      p := And(p, sourcePredicate[i]);
    }
  }

  /** With `--include` and `--exclude` read as the command line does, a class is
      compiled exactly when it is a batch class, matches the include pattern if one is
      given, and does not match the exclude pattern if one is given. */
  lemma IncludeExclude(includeValue: Option<string>, excludeValue: Option<string>, project: Project, className: string)
    ensures ParsePattern(includeValue, IncludeOption, false).Success? && ParsePattern(excludeValue, ExcludeOption, true).Success?
    ensures var sources := SourcePredicates(ParsePattern(includeValue, IncludeOption, false).value, ParsePattern(excludeValue, ExcludeOption, true).value);
      Selected(sources, project, className) <==>
        && project.isBatch(className)
        && (includeValue.Some? && includeValue.value != [] ==> project.matches(includeValue.value, className))
        && (excludeValue.Some? && excludeValue.value != [] ==> !project.matches(excludeValue.value, className))
  {
    var i := ParsePattern(includeValue, IncludeOption, false).value;
    var e := ParsePattern(excludeValue, ExcludeOption, true).value;
    var sources := SourcePredicates(i, e);
    if Selected(sources, project, className) {
      if i.Some? {
        assert sources[0] == i.value;
      }
      if e.Some? {
        assert sources[|sources| - 1] == e.value;
      }
    }
  }

  // ---------------------------------------------------------------------------
  // Compiling the batch classes

  /** A compilation that ended with a `DiagnosticException`. */
  predicate IsDiagnostic(outcome: Option<Exception>)
  {
    outcome.Some? && outcome.value.DiagnosticException?
  }

  /** A compilation that ends `process`: any exception other than a `DiagnosticException`,
      and with `failOnError` that one too. */
  predicate Stops(outcome: Option<Exception>, failOnError: bool)
  {
    outcome.Some? && (failOnError || !outcome.value.DiagnosticException?)
  }

  function BatchErrorMessage(className: string): string
  {
    "error occurred while compiling batch: " + className
  }

  /** The exception `process` ends with when compiling `className` stops it: a
      `DiagnosticException` becomes an ERROR naming the class, as `failOnError` asks;
      any other exception passes through. */
  function Escalated(className: string, outcome: Option<Exception>): (e: Exception)
    requires outcome.Some?
    ensures outcome.value.DiagnosticException? ==> e == Diagnose(Error, BatchErrorMessage(className))
    ensures !outcome.value.DiagnosticException? ==> e == outcome.value
  {
    if outcome.value.DiagnosticException? then Diagnose(Error, BatchErrorMessage(className)) else outcome.value
  }

  /** `process(root, configuration)`: `setup` is the exception instantiating the class
      analyzer and the batch compiler (or preparing the project) ends with, `classes` the
      selected batch classes in the order the project lists them, and `compile(c)` the
      exception analysing and compiling `c` ends with. `compiled` lists the classes
      whose compilation was started. The result is `true` exactly when no compilation
      raised a `DiagnosticException`. */
  method Process(setup: Option<Exception>, classes: seq<string>, compile: string -> Option<Exception>, failOnError: bool)
    returns (r: Result<bool>, compiled: seq<string>)
    ensures setup.Some? ==> r == Failure(setup.value) && compiled == []
    ensures compiled <= classes
    ensures forall i | 0 <= i < |compiled| - 1 :: !Stops(compile(compiled[i]), failOnError)
    ensures setup.None? && r.Failure? ==>
      && compiled != []
      && Stops(compile(compiled[|compiled| - 1]), failOnError)
      && r.error == Escalated(compiled[|compiled| - 1], compile(compiled[|compiled| - 1]))
    ensures r.Success? ==>
      && compiled == classes
      && (forall i | 0 <= i < |classes| :: !Stops(compile(classes[i]), failOnError))
      && (r.value <==> forall i | 0 <= i < |classes| :: !IsDiagnostic(compile(classes[i])))
  {
    compiled := [];
    if setup.Some? {
      return Failure(setup.value), compiled;
    }
    var sawError := false;
    for i := 0 to |classes|
      invariant compiled == classes[..i]
      invariant forall j | 0 <= j < i :: !Stops(compile(classes[j]), failOnError)
      invariant sawError <==> exists j | 0 <= j < i :: IsDiagnostic(compile(classes[j]))
    {
      var aClass := classes[i];
      compiled := compiled + [aClass];
      var outcome := compile(aClass);
      if outcome.Some? {
        if !outcome.value.DiagnosticException? {
          return Failure(outcome.value), compiled;
        }
        sawError := true;
        if failOnError {
          return Failure(Diagnose(Error, BatchErrorMessage(aClass))), compiled;
        }
      }
    }
    assert classes[..|classes|] == classes;
    r := Success(!sawError);
  }

  /** What every run of `process` does, for any result that meets its contract. */
  lemma ProcessLaws(setup: Option<Exception>, classes: seq<string>, compile: string -> Option<Exception>, failOnError: bool,
                    r: Result<bool>, compiled: seq<string>)
    requires setup.Some? ==> r == Failure(setup.value) && compiled == []
    requires compiled <= classes
    requires forall i | 0 <= i < |compiled| - 1 :: !Stops(compile(compiled[i]), failOnError)
    requires setup.None? && r.Failure? ==>
      && compiled != []
      && Stops(compile(compiled[|compiled| - 1]), failOnError)
      && r.error == Escalated(compiled[|compiled| - 1], compile(compiled[|compiled| - 1]))
    requires r.Success? ==>
      && compiled == classes
      && (forall i | 0 <= i < |classes| :: !Stops(compile(classes[i]), failOnError))
      && (r.value <==> forall i | 0 <= i < |classes| :: !IsDiagnostic(compile(classes[i])))
    // with failOnError, a compilation error is thrown instead of being reported as false
    ensures failOnError ==> r != Success(false)
    // without it, errors do not stop the loop: every class is compiled
    ensures setup.None? && !failOnError && (forall i | 0 <= i < |classes| :: compile(classes[i]).None? || IsDiagnostic(compile(classes[i]))) ==>
      r.Success? && compiled == classes
    // complete success is exactly no exception anywhere
    ensures r == Success(true) <==> setup.None? && forall i | 0 <= i < |classes| :: compile(classes[i]).None?
  {
    if setup.None? && r.Failure? {
      var last := |compiled| - 1;
      assert compiled[last] == classes[last];
    }
  }

  // ---------------------------------------------------------------------------
  // The configuration and the exit code

  /** The values `parse(args)` collects (`Configuration`). */
  datatype Configuration = Configuration(
    classAnalyzer: ClassDescription,
    batchCompiler: ClassDescription,
    output: Option<File>,
    external: seq<File>,
    explore: seq<File>,
    embed: seq<File>,
    attach: seq<File>,
    dataModelLoaderFactory: ClassDescription,
    externalPortProcessors: seq<ClassDescription>,
    batchProcessors: seq<ClassDescription>,
    jobflowProcessors: seq<ClassDescription>,
    compilerParticipants: seq<ClassDescription>,
    sourcePredicate: seq<ClassPredicate>,
    runtimeWorkingDirectory: string,
    properties: map<string, string>,
    failOnError: bool)

  /** A `Configuration` before any option is applied: the basic class analyzer, batch
      compiler and data model loader factory, the runtime working directory
      `target/hadoopwork/${executionId}`, no files, classes, predicates or properties,
      and `failOnError` off. */
  const DefaultConfiguration := Configuration(
    ClassDescription("com.asakusafw.lang.compiler.core.basic.BasicClassAnalyzer"),
    ClassDescription("com.asakusafw.lang.compiler.core.basic.BasicBatchCompiler"),
    None, [], [], [], [],
    ClassDescription("com.asakusafw.lang.compiler.core.basic.BasicDataModelLoaderFactory"),
    [], [], [], [], [],
    "target/hadoopwork/${executionId}",
    map[],
    false)

  /** The defaults of `Configuration`: the basic class analyzer, batch compiler and data
      model loader factory, the runtime working directory, no output, and `failOnError`
      off. */
  lemma DefaultConfigurationValues()
    ensures DefaultConfiguration.classAnalyzer.binaryName == "com.asakusafw.lang.compiler.core.basic.BasicClassAnalyzer"
    ensures DefaultConfiguration.batchCompiler.binaryName == "com.asakusafw.lang.compiler.core.basic.BasicBatchCompiler"
    ensures DefaultConfiguration.dataModelLoaderFactory.binaryName
      == "com.asakusafw.lang.compiler.core.basic.BasicDataModelLoaderFactory"
    ensures DefaultConfiguration.runtimeWorkingDirectory == "target/hadoopwork/${executionId}"
    ensures DefaultConfiguration.output.None? && DefaultConfiguration.sourcePredicate == []
    ensures !DefaultConfiguration.failOnError
  {
  }

  /** `execute(args)`: `parsed` is what `parse(args)` yields; the other parameters are
      those of `process`, for the classes the parsed configuration selects. A parse
      failure, a `process` that returns `false` and a `process` that throws all give 1;
      only a run in which nothing failed gives 0. */
  method Execute(parsed: Result<Configuration>, setup: Option<Exception>, classes: seq<string>, compile: string -> Option<Exception>)
    returns (code: int)
    ensures code == 0 || code == 1
    ensures code == 0 <==> parsed.Success? && setup.None? && forall i | 0 <= i < |classes| :: compile(classes[i]).None?
  {
    if parsed.Failure? {
      return 1;
    }
    var r, compiled := Process(setup, classes, compile, parsed.value.failOnError);
    ProcessLaws(setup, classes, compile, parsed.value.failOnError, r, compiled);
    if r.Failure? || !r.value {
      return 1;
    }
    return 0;
  }
}
