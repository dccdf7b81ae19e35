/** Resource locations: a chain of segment names linked from the last segment to the
    root (`Location`), with parsing from and formatting to separated path strings,
    appending, prefix tests and structural equality. */
module Locations {
  import opened Common

  /** The default segment separator. */
  const DefaultSegmentSeparator: char := '/'

  /** A location is its last segment name with an optional parent location. */
  datatype Location = Root(name: string) | Child(parent: Location, name: string)
  {
    /** `getParent`: the parent location, or `None` for a single-segment location. */
    function Parent(): (r: Option<Location>)
      ensures r.None? <==> Root?
      ensures r.Some? ==> Segments(r.value) + [name] == Segments(this)
    {
      if Root? then None else Some(parent)
    }
  }

  /** The segment names of `l`, root first. */
  function Segments(l: Location): (r: seq<string>)
    ensures |r| >= 1 && r[|r| - 1] == l.name
  {
    match l
    case Root(n) => [n]
    case Child(p, n) => Segments(p) + [n]
  }

  /** The segments of an optional location: empty for `None`. */
  function Chain(o: Option<Location>): seq<string>
  {
    if o.None? then [] else Segments(o.value)
  }

  /** The location whose segments are `segments`. */
  function FromSegments(segments: seq<string>): (r: Location)
    requires |segments| >= 1
    ensures Segments(r) == segments
    ensures |segments| == 1 <==> r.Root?
  {
    if |segments| == 1 then Root(segments[0])
    else Child(FromSegments(segments[..|segments| - 1]), segments[|segments| - 1])
  }

  /** A location is determined by its segments: structural equality is value equality. */
  lemma {:induction false} SegmentsInjective(a: Location, b: Location)
    requires Segments(a) == Segments(b)
    ensures a == b
  {
    if a.Child? && b.Child? {
      var sa, sb := Segments(a), Segments(b);
      assert Segments(a.parent) == sa[..|sa| - 1];
      assert Segments(b.parent) == sb[..|sb| - 1];
      SegmentsInjective(a.parent, b.parent);
    }
  }

  lemma FromSegmentsOfSegments(l: Location)
    ensures FromSegments(Segments(l)) == l
  {
    SegmentsInjective(FromSegments(Segments(l)), l);
  }

  /** The path string of `l` with `sep` between segments. */
  function Path(l: Location, sep: char): (r: string)
    ensures (forall i | 0 <= i < |Segments(l)| :: sep !in Segments(l)[i]) ==> SplitAll(r, sep) == Segments(l)
  {
    if forall i | 0 <= i < |Segments(l)| :: sep !in Segments(l)[i] then
      SplitJoin(Segments(l), sep);
      Join(Segments(l), sep)
    else
      Join(Segments(l), sep)
  }

  /** The location a path string denotes, `None` when it holds no non-empty segment. */
  function Parse(pathString: string, sep: char): (r: Option<Location>)
    ensures r.None? <==> NonEmpty(SplitAll(pathString, sep)) == []
    ensures r.Some? ==> Segments(r.value) == NonEmpty(SplitAll(pathString, sep))
  {
    JavaSplitNonEmpty(pathString, sep);
    var parts := NonEmpty(JavaSplit(pathString, sep));
    if parts == [] then None else Some(FromSegments(parts))
  }

  /** Segments that survive a round trip through a path string with `sep`. */
  ghost predicate WellFormed(segments: seq<string>, sep: char)
  {
    forall i | 0 <= i < |segments| :: segments[i] != [] && sep !in segments[i]
  }

  // ---------------------------------------------------------------------------
  // Operations

  /** `append(String)`: the child location named `lastName`. */
  function AppendName(l: Location, lastName: string): (r: Location)
    ensures r.Parent() == Some(l) && r.name == lastName
    ensures Segments(r) == Segments(l) + [lastName]
  {
    Child(l, lastName)
  }

  /** The segments of `start` collected root first by walking the parent chain,
      as the `LinkedList.addFirst` loops of `append(Location)` and `toPath` do. */
  method CollectSegments(start: Location) returns (segments: seq<string>)
    ensures segments == Segments(start)
  {
    segments := [];
    var current: Option<Location> := Some(start);
    while current.Some?
      invariant Chain(current) + segments == Segments(start)
      decreases |Chain(current)|
    {
      var c := current.value;
      assert Chain(current) == Chain(c.Parent()) + [c.name];
      segments := [c.name] + segments;
      current := c.Parent();
    }
  }

  /** `append(Location)`: `suffix`'s segments placed under `l`. */
  method Append(l: Location, suffix: Location) returns (r: Location)
    ensures Segments(r) == Segments(l) + Segments(suffix)
  {
    var segments := CollectSegments(suffix);
    r := l;
    for i := 0 to |segments|
      invariant Segments(r) == Segments(l) + segments[..i]
    {
      assert segments[..i + 1] == segments[..i] + [segments[i]];
      r := Child(r, segments[i]);
    }
    assert segments[..|segments|] == segments;
  }

  /** `of(pathString, separator)`: the non-empty segments between separators; an
      `IllegalArgumentException` when there is none. */
  method Of(pathString: string, separator: char) returns (r: Result<Location>)
    ensures r.Failure? <==> Parse(pathString, separator).None?
    ensures r.Failure? ==> r.error.IllegalArgument?
    ensures r.Success? ==> Some(r.value) == Parse(pathString, separator)
  {
    var segments := JavaSplit(pathString, separator);
    var current: Option<Location> := None;
    for i := 0 to |segments|
      invariant Chain(current) == NonEmpty(segments[..i])
    {
      assert segments[..i + 1] == segments[..i] + [segments[i]];
      if segments[i] == [] {
        continue;
      }
      current := Some(if current.None? then Root(segments[i]) else Child(current.value, segments[i]));
    }
    assert segments[..|segments|] == segments;
    if current.None? {
      return Failure(IllegalArgument(""));
    }
    SegmentsInjective(current.value, FromSegments(NonEmpty(segments)));
    r := Success(current.value);
  }

  /** `of(pathString)`: `of` with the default separator. */
  method OfDefault(pathString: string) returns (r: Result<Location>)
    ensures r.Failure? <==> Parse(pathString, DefaultSegmentSeparator).None?
    ensures r.Failure? ==> r.error.IllegalArgument?
    ensures r.Success? ==> Some(r.value) == Parse(pathString, DefaultSegmentSeparator)
  {
    r := Of(pathString, DefaultSegmentSeparator);
  }

  /** `toPath(separator)`: the segments root first with `separator` between them. */
  method ToPath(l: Location, separator: char) returns (r: string)
    ensures r == Path(l, separator)
  {
    var segments := CollectSegments(l);
    r := segments[0];
    for i := 1 to |segments|
      invariant r == Join(segments[..i], separator)
    {
      assert segments[..i + 1][..i] == segments[..i];
      r := r + [separator] + segments[i];
    }
    assert segments[..|segments|] == segments;
  }

  /** `count`: the number of segments of `l`. */
  method Count(l: Location) returns (count: nat)
    ensures count == |Segments(l)| && count >= 1
  {
    count := 1;
    var current := l.Parent();
    while current.Some?
      invariant count + |Chain(current)| == |Segments(l)|
      decreases |Chain(current)|
    {
      count := count + 1;
      current := current.value.Parent();
    }
  }

  /** `equals`: both chains are walked towards the root in step, comparing names; a
      shared tail (identity in the source, value equality here) ends the walk early. */
  method Equals(a: Location, b: Location) returns (r: bool)
    ensures r <==> Segments(a) == Segments(b)
    ensures r <==> a == b
  {
    SegmentsToEquality(a, b);
    var thisCur: Option<Location> := Some(a);
    var otherCur: Option<Location> := Some(b);
    ghost var done: seq<string> := [];
    while thisCur.Some? && otherCur.Some?
      invariant Segments(a) == Chain(thisCur) + done
      invariant Segments(b) == Chain(otherCur) + done
      decreases |Chain(thisCur)|
    {
      var x, y := thisCur.value, otherCur.value;
      if x == y {
        return true;
      }
      if x.name != y.name {
        CommonTailDiffers(Chain(thisCur), Chain(otherCur), done);
        return false;
      }
      StepPreserves(a, x, done);
      StepPreserves(b, y, done);
      done := [x.name] + done;
      thisCur, otherCur := x.Parent(), y.Parent();
    }
    OptionChains(thisCur, otherCur);
    CommonTailDiffers(Chain(thisCur), Chain(otherCur), done);
    r := thisCur == otherCur;
  }

  lemma SegmentsToEquality(a: Location, b: Location)
    ensures Segments(a) == Segments(b) <==> a == b
  {
    if Segments(a) == Segments(b) {
      SegmentsInjective(a, b);
    }
  }

  /** When at least one chain has ended, the chains agree exactly when both ended. */
  lemma OptionChains(x: Option<Location>, y: Option<Location>)
    requires x.None? || y.None?
    ensures x == y <==> Chain(x) == Chain(y)
  {
    if x.Some? { assert |Chain(x)| >= 1; }
    if y.Some? { assert |Chain(y)| >= 1; }
  }

  lemma StepPreserves(a: Location, x: Location, done: seq<string>)
    requires Segments(a) == Chain(Some(x)) + done
    ensures Segments(a) == Chain(x.Parent()) + ([x.name] + done)
  {
    ChainStep(x);
  }

  lemma ChainStep(x: Location)
    ensures Chain(Some(x)) == Chain(x.Parent()) + [x.name]
  {
  }

  /** Two chains that end in the same names are equal only if their heads are. */
  lemma CommonTailDiffers(x: seq<string>, y: seq<string>, done: seq<string>)
    ensures x + done == y + done <==> x == y
  {
    if x + done == y + done {
      assert |x| == |y|;
      assert forall i | 0 <= i < |x| :: x[i] == (x + done)[i];
      assert forall i | 0 <= i < |y| :: y[i] == (y + done)[i];
    }
  }

  /** `isPrefixOf`: whether `l`'s segments are a prefix of, or equal to, `other`'s;
      an `IllegalArgumentException` for a `null` argument. */
  method IsPrefixOf(l: Location, other: Option<Location>) returns (r: Result<bool>)
    ensures other.None? <==> r.Failure?
    ensures r.Failure? ==> r.error == IllegalArgument("other must not be null")
    ensures r.Success? ==> (r.value <==> Segments(l) <= Segments(other.value))
  {
    if other.None? {
      return Failure(IllegalArgument("other must not be null"));
    }
    var o := other.value;
    var thisSegments := Count(l);
    var otherSegments := Count(o);
    if thisSegments > otherSegments {
      return Success(false);
    }
    var current := o;
    var n := otherSegments - thisSegments;
    for i := 0 to n
      invariant Segments(current) == Segments(o)[..otherSegments - i]
    {
      assert |Segments(current)| >= 2;
      assert Segments(current.parent) == Segments(current)[..|Segments(current)| - 1];
      current := current.parent;
    }
    var eq := Equals(l, current);
    r := Success(eq);
  }

  // ---------------------------------------------------------------------------
  // Laws

  /** `count` after appending: a name adds exactly one segment, a location adds as many
      as it has. */
  method CountAfterAppend(l: Location, lastName: string, suffix: Location) returns (named: nat, appended: nat)
    ensures named == |Segments(l)| + 1
    ensures appended == |Segments(l)| + |Segments(suffix)|
  {
    named := Count(AppendName(l, lastName));
    var a := Append(l, suffix);
    appended := Count(a);
  }

  /** Separated fields of a joined sequence are the segments themselves. */
  lemma {:induction false} SplitJoin(segments: seq<string>, sep: char)
    requires |segments| >= 1
    requires forall i | 0 <= i < |segments| :: sep !in segments[i]
    ensures SplitAll(Join(segments, sep), sep) == segments
    decreases |segments|
  {
    if |segments| == 1 {
      SplitAllWithoutSeparator(segments[0], sep);
    } else {
      var init := segments[..|segments| - 1];
      SplitJoin(init, sep);
      SplitAllLastField(Join(init, sep), segments[|segments| - 1], sep);
      assert init + [segments[|segments| - 1]] == segments;
    }
  }

  /** Round trip: parsing the path of a location whose segments are non-empty and
      free of the separator yields the same location. */
  lemma RoundTrip(l: Location, sep: char)
    requires WellFormed(Segments(l), sep)
    ensures Parse(Path(l, sep), sep) == Some(l)
  {
    var segments := Segments(l);
    SplitJoin(segments, sep);
    JavaSplitNonEmpty(Path(l, sep), sep);
    NonEmptyOfNonEmpty(segments);
    FromSegmentsOfSegments(l);
  }

  lemma {:induction false} NonEmptyOfNonEmpty(xs: seq<string>)
    requires forall i | 0 <= i < |xs| :: xs[i] != []
    ensures NonEmpty(xs) == xs
    decreases |xs|
  {
    if xs != [] {
      NonEmptyOfNonEmpty(xs[..|xs| - 1]);
    }
  }

  /** Every location that parsing produces has non-empty segments free of the separator. */
  lemma ParseWellFormed(pathString: string, sep: char)
    requires Parse(pathString, sep).Some?
    ensures WellFormed(Segments(Parse(pathString, sep).value), sep)
  {
    var all := SplitAll(pathString, sep);
    var parts := NonEmpty(JavaSplit(pathString, sep));
    JavaSplitNonEmpty(pathString, sep);
    SplitAllFieldsFree(pathString, sep);
    assert Segments(Parse(pathString, sep).value) == parts;
    forall i | 0 <= i < |parts| ensures parts[i] != [] && sep !in parts[i] {
      assert parts[i] in NonEmpty(all);
      assert parts[i] in all;
    }
  }

  lemma {:induction false} SplitAllFieldsFree(s: string, sep: char)
    ensures forall i | 0 <= i < |SplitAll(s, sep)| :: sep !in SplitAll(s, sep)[i]
    decreases |s|
  {
    if s != [] {
      SplitAllFieldsFree(s[..|s| - 1], sep);
    }
  }

  /** Re-joining with another separator rewrites only the separators. */
  lemma {:induction false} ChangeSeparator(l: Location, a: char, b: char)
    requires forall i | 0 <= i < |Segments(l)| :: a !in Segments(l)[i]
    ensures Replace(Path(l, a), a, b) == Path(l, b)
  {
    match l
    case Root(n) =>
      assert Segments(l)[0] == n;
      ReplaceFree(n, a, b);
    case Child(p, n) =>
      assert Segments(l)[..|Segments(l)| - 1] == Segments(p);
      ChangeSeparator(p, a, b);
      ReplaceConcat(Path(p, a) + [a], n, a, b);
      ReplaceConcat(Path(p, a), [a], a, b);
      assert Segments(l)[|Segments(l)| - 1] == n;
      ReplaceFree(n, a, b);
  }

  lemma ReplaceFree(s: string, a: char, b: char)
    requires a !in s
    ensures Replace(s, a, b) == s
  {
    assert forall i | 0 <= i < |s| :: s[i] != a;
  }

  lemma ReplaceConcat(s: string, t: string, a: char, b: char)
    ensures Replace(s + t, a, b) == Replace(s, a, b) + Replace(t, a, b)
  {
  }

  /** A path of well-formed segments neither starts nor ends with the separator. */
  lemma {:induction false} PathHasNoOuterSeparator(l: Location, sep: char)
    requires WellFormed(Segments(l), sep)
    ensures var p := Path(l, sep); p != [] && p[0] != sep && p[|p| - 1] != sep
  {
    match l
    case Root(n) =>
      assert Segments(l)[0] == n;
    case Child(p, n) =>
      var s := Segments(l);
      assert s[..|s| - 1] == Segments(p);
      assert forall i | 0 <= i < |Segments(p)| :: Segments(p)[i] == s[i];
      PathHasNoOuterSeparator(p, sep);
      assert s[|s| - 1] == n;
  }

  /** A location is a prefix of anything appended to it, and the longer location is
      never a prefix of the shorter. */
  method PrefixOfAppend(l: Location, suffix: Location) returns (forward: Result<bool>, backward: Result<bool>)
    ensures forward == Success(true)
    ensures backward == Success(false)
  {
    var appended := Append(l, suffix);
    forward := IsPrefixOf(l, Some(appended));
    backward := IsPrefixOf(appended, Some(l));
  }
}
