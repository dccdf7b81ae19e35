/** Values shared by every part of the model: optional values, the exceptions the
    compiler raises, diagnostics, and the string operations of the Java library that
    the code relies on (`String.split` with a literal separator, `String.trim`). */
module Common {

  /** A Java reference that may be `null`. */
  datatype Option<+T> = None | Some(value: T)

  /** Severity of a diagnostic (`Diagnostic.Level`). */
  datatype Level = Error | Warn | Info

  datatype Diagnostic = Diagnostic(level: Level, message: string)

  /** The Java exceptions the modelled code throws, each with its message. */
  datatype Exception =
    | IllegalArgument(message: string)
    | IllegalState(message: string)
    | NoSuchMethod(message: string)
    | ClassNotFound(message: string)
    | ReflectiveOperation(message: string)
    | UnsupportedOperation(message: string)
    | DiagnosticException(diagnostics: seq<Diagnostic>)
    | IO(message: string)

  /** Either a returned value or a thrown exception. */
  datatype Result<+T> = Success(value: T) | Failure(error: Exception)

  /** A `DiagnosticException` carrying a single diagnostic of the given level. */
  function Diagnose(level: Level, message: string): (e: Exception)
    ensures e.DiagnosticException? && e.diagnostics == [Diagnostic(level, message)]
  {
    DiagnosticException([Diagnostic(level, message)])
  }

  // ---------------------------------------------------------------------------
  // String.split(quoted separator)

  /** All fields of `s` between occurrences of `sep`, empty fields included. */
  function SplitAll(s: string, sep: char): (r: seq<string>)
    ensures |r| >= 1
  {
    if s == [] then [[]]
    else
      var rest := SplitAll(s[..|s| - 1], sep);
      if s[|s| - 1] == sep then rest + [[]]
      else rest[..|rest| - 1] + [rest[|rest| - 1] + [s[|s| - 1]]]
  }

  /** Removes the empty strings at the end of `xs`. */
  function DropTrailingEmpty(xs: seq<string>): (r: seq<string>)
    ensures |r| <= |xs| && r == xs[..|r|]
    ensures r != [] ==> r[|r| - 1] != []
    ensures forall i | |r| <= i < |xs| :: xs[i] == []
  {
    if xs == [] then []
    else if xs[|xs| - 1] == [] then DropTrailingEmpty(xs[..|xs| - 1])
    else xs
  }

  /** Java's `s.split(Pattern.quote(String.valueOf(sep)))`: the whole string when the
      separator does not occur, otherwise the fields with trailing empty ones removed. */
  function JavaSplit(s: string, sep: char): seq<string>
  {
    if sep !in s then [s] else DropTrailingEmpty(SplitAll(s, sep))
  }

  /** The non-empty strings of `xs`, in order. */
  function NonEmpty(xs: seq<string>): (r: seq<string>)
    ensures forall i | 0 <= i < |r| :: r[i] != []
    ensures forall x :: x in r <==> x in xs && x != []
  {
    if xs == [] then []
    else if xs[|xs| - 1] == [] then NonEmpty(xs[..|xs| - 1])
    else NonEmpty(xs[..|xs| - 1]) + [xs[|xs| - 1]]
  }

  lemma {:induction false} NonEmptyConcat(xs: seq<string>, ys: seq<string>)
    ensures NonEmpty(xs + ys) == NonEmpty(xs) + NonEmpty(ys)
    decreases |ys|
  {
    if ys == [] {
      assert xs + ys == xs;
    } else {
      var ys' := ys[..|ys| - 1];
      assert (xs + ys)[..|xs + ys| - 1] == xs + ys';
      NonEmptyConcat(xs, ys');
    }
  }

  lemma {:induction false} NonEmptyOfEmpties(xs: seq<string>)
    requires forall i | 0 <= i < |xs| :: xs[i] == []
    ensures NonEmpty(xs) == []
    decreases |xs|
  {
    if xs != [] {
      NonEmptyOfEmpties(xs[..|xs| - 1]);
    }
  }

  /** Dropping trailing empty fields, as `String.split` does, is invisible once the
      empty fields are filtered out anyway. */
  lemma JavaSplitNonEmpty(s: string, sep: char)
    ensures NonEmpty(JavaSplit(s, sep)) == NonEmpty(SplitAll(s, sep))
  {
    if sep in s {
      var all := SplitAll(s, sep);
      var kept := DropTrailingEmpty(all);
      assert all == kept + all[|kept|..];
      NonEmptyConcat(kept, all[|kept|..]);
      NonEmptyOfEmpties(all[|kept|..]);
    } else {
      SplitAllWithoutSeparator(s, sep);
    }
  }

  lemma {:induction false} SplitAllWithoutSeparator(s: string, sep: char)
    requires sep !in s
    ensures SplitAll(s, sep) == [s]
    decreases |s|
  {
    if s != [] {
      assert s[..|s| - 1] + [s[|s| - 1]] == s;
      SplitAllWithoutSeparator(s[..|s| - 1], sep);
    }
  }

  /** Splitting `a + [sep] + b` where `b` holds no separator ends with the field `b`. */
  lemma {:induction false} SplitAllLastField(a: string, b: string, sep: char)
    requires sep !in b
    ensures SplitAll(a + [sep] + b, sep) == SplitAll(a, sep) + [b]
    decreases |b|
  {
    if b == [] {
      assert a + [sep] + b == a + [sep];
      assert (a + [sep])[..|a + [sep]| - 1] == a;
    } else {
      var s := a + [sep] + b;
      var b' := b[..|b| - 1];
      assert s[..|s| - 1] == a + [sep] + b';
      assert s[|s| - 1] == b[|b| - 1];
      SplitAllLastField(a, b', sep);
      assert b' + [b[|b| - 1]] == b;
    }
  }

  // ---------------------------------------------------------------------------
  // Joining and separator replacement

  /** The strings of a non-empty `segments` with `sep` between them. */
  function Join(segments: seq<string>, sep: char): string
    requires |segments| >= 1
  {
    if |segments| == 1 then segments[0]
    else Join(segments[..|segments| - 1], sep) + [sep] + segments[|segments| - 1]
  }

  /** `s` with every `a` replaced by `b` (`String.replace(char, char)`). */
  function Replace(s: string, a: char, b: char): (r: string)
    ensures |r| == |s|
    ensures forall i | 0 <= i < |s| :: r[i] == if s[i] == a then b else s[i]
  {
    if s == [] then [] else Replace(s[..|s| - 1], a, b) + [if s[|s| - 1] == a then b else s[|s| - 1]]
  }

  // ---------------------------------------------------------------------------
  // String.trim

  /** Characters `String.trim` removes: every code point up to and including the space. */
  predicate IsTrimmed(c: char) { c <= ' ' }

  function TrimStart(s: string): (r: string)
    ensures |r| <= |s| && r == s[|s| - |r|..]
    ensures r != [] ==> !IsTrimmed(r[0])
    ensures forall i | 0 <= i < |s| - |r| :: IsTrimmed(s[i])
  {
    if s != [] && IsTrimmed(s[0]) then TrimStart(s[1..]) else s
  }

  function TrimEnd(s: string): (r: string)
    ensures |r| <= |s| && r == s[..|r|]
    ensures r != [] ==> !IsTrimmed(r[|r| - 1])
    ensures forall i | |r| <= i < |s| :: IsTrimmed(s[i])
  {
    if s != [] && IsTrimmed(s[|s| - 1]) then TrimEnd(s[..|s| - 1]) else s
  }

  /** `String.trim`: `s` without its leading and trailing control and space characters. */
  function Trim(s: string): string
  {
    TrimEnd(TrimStart(s))
  }

  lemma TrimBounds(s: string)
    ensures var t := Trim(s); t != [] ==> !IsTrimmed(t[0]) && !IsTrimmed(t[|t| - 1])
    ensures Trim(s) == [] <==> forall i | 0 <= i < |s| :: IsTrimmed(s[i])
  {
    var a := TrimStart(s);
    var t := TrimEnd(a);
    if t != [] {
      assert t[0] == a[0];
    }
    if t == [] {
      assert a == [];
    } else {
      assert !IsTrimmed(s[|s| - |a|]);
    }
  }
}
