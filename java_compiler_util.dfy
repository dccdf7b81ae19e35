/** Library collection for the Java compiler (`JavaCompilerUtil`): the URL class
    loaders of a class loader's parent chain, and the library files of their URLs,
    root loader first. Class loaders are given as the chain from the target loader to
    the bootstrap side, each with an identity and, for URL class loaders, its URLs. */
module JavaCompilerUtil {
  import opened Common

  // ---------------------------------------------------------------------------
  // PATTERN_ARCHIVE = ".+\.(zip|jar)"

  /** The characters `.` does not match in a `java.util.regex` pattern without flags. */
  predicate IsLineTerminator(c: char)
  {
    c == '\n' || c == '\r' || c == '\U{85}' || c == '\U{2028}' || c == '\U{2029}'
  }

  /** `s` matches `.+`. */
  predicate MatchesAnyPlus(s: string)
  {
    |s| >= 1 && forall i | 0 <= i < |s| :: !IsLineTerminator(s[i])
  }

  /** The whole of `name` matches `.+\.(zip|jar)`: some non-empty first part matches
      `.+` and the rest is `.zip` or `.jar`. */
  ghost predicate MatchesArchivePattern(name: string)
  {
    exists k | 1 <= k <= |name| :: MatchesAnyPlus(name[..k]) && (name[k..] == ".zip" || name[k..] == ".jar")
  }

  /** The check as computed: at least one character without line terminators before a
      final `.zip` or `.jar`. */
  predicate IsArchiveName(name: string)
  {
    && |name| >= 5
    && (name[|name| - 4..] == ".zip" || name[|name| - 4..] == ".jar")
    && forall i | 0 <= i < |name| - 4 :: !IsLineTerminator(name[i])
  }

  lemma ArchivePattern(name: string)
    ensures MatchesArchivePattern(name) <==> IsArchiveName(name)
  {
    if IsArchiveName(name) {
      var k := |name| - 4;
      assert MatchesAnyPlus(name[..k]) by {
        forall i | 0 <= i < k ensures !IsLineTerminator(name[..k][i]) {
          assert name[..k][i] == name[i];
        }
      }
    }
    if MatchesArchivePattern(name) {
      var k :| 1 <= k <= |name| && MatchesAnyPlus(name[..k]) && (name[k..] == ".zip" || name[k..] == ".jar");
      assert |name[k..]| == 4;
      forall i | 0 <= i < |name| - 4 ensures !IsLineTerminator(name[i]) {
        assert name[i] == name[..k][i];
      }
    }
  }

  // ---------------------------------------------------------------------------
  // Class loaders, URLs and files

  /** A file: its path, its last name component, and whether it is a regular file. */
  datatype FileEntry = FileEntry(path: string, name: string, isFile: bool)

  /** `url.toURI()`: a `URISyntaxException`, or a URI that `new File(uri)` either turns
      into a file or rejects with an `IllegalArgumentException` carrying `fileError`. */
  datatype Uri = Malformed | WellFormed(fileError: Option<string>, file: FileEntry)

  /** A URL: its protocol (`None` for `null`) and its URI. */
  datatype Url = Url(protocol: Option<string>, uri: Uri)

  /** A class loader: its identity, whether it is a `URLClassLoader`, and its URLs. */
  datatype Loader = Loader(identity: nat, isUrlLoader: bool, urls: seq<Url>)

  /** `toFile(url)`: the file of a `file:` URL, nothing for other protocols and for
      malformed URIs, or the exception `new File(uri)` throws. */
  function ToFile(url: Url): (r: Result<Option<FileEntry>>)
    ensures url.protocol != Some("file") ==> r == Success(None)
    ensures url.protocol == Some("file") && url.uri.Malformed? ==> r == Success(None)
    ensures r.Failure? <==> url.protocol == Some("file") && url.uri.WellFormed? && url.uri.fileError.Some?
    ensures r.Success? && r.value.Some? ==> url.uri.WellFormed? && r.value.value == url.uri.file
  {
    if url.protocol.None? || url.protocol.value != "file" then Success(None)
    else if url.uri.Malformed? then Success(None)
    else if url.uri.fileError.Some? then Failure(IllegalArgument(url.uri.fileError.value))
    else Success(Some(url.uri.file))
  }

  /** A file is kept unless it is a regular file without an archive name. */
  predicate Keep(file: FileEntry)
  {
    !(file.isFile && !IsArchiveName(file.name))
  }

  /** The files a loader's URLs contribute, in URL order. */
  function LoaderFiles(urls: seq<Url>): (r: Result<seq<FileEntry>>)
    ensures r.Success? ==> forall i | 0 <= i < |r.value| :: Keep(r.value[i])
  {
    if urls == [] then Success([])
    else
      var previous := LoaderFiles(urls[..|urls| - 1]);
      var file := ToFile(urls[|urls| - 1]);
      if previous.Failure? then previous
      else if file.Failure? then Failure(file.error)
      else if file.value.None? || !Keep(file.value.value) then previous
      else Success(previous.value + [file.value.value])
  }

  /** The files of `loaders` (child first), emitted root first: the last loader's files
      come first; the first failure in that order is the result. */
  function RootFirst(loaders: seq<Loader>): (r: Result<seq<FileEntry>>)
    ensures r.Success? ==> forall i | 0 <= i < |r.value| :: Keep(r.value[i])
  {
    if loaders == [] then Success([])
    else
      var rest := RootFirst(loaders[1..]);
      var own := LoaderFiles(loaders[0].urls);
      if rest.Failure? then rest
      else if own.Failure? then own
      else Success(rest.value + own.value)
  }

  /** The loaders the walk visits: the whole chain, or without extension libraries the
      chain up to and including the system class loader. */
  function Walked(chain: seq<Loader>, systemLoader: nat, includeExtensionLibraries: bool): (r: seq<Loader>)
    ensures r <= chain
    ensures includeExtensionLibraries ==> r == chain
    ensures forall k | 0 <= k < |r| - 1 :: r[k].identity != systemLoader || includeExtensionLibraries
    ensures |r| < |chain| ==> |r| >= 1 && r[|r| - 1].identity == systemLoader
  {
    if chain == [] then []
    else if !includeExtensionLibraries && chain[0].identity == systemLoader then [chain[0]]
    else [chain[0]] + Walked(chain[1..], systemLoader, includeExtensionLibraries)
  }

  /** The URL class loaders of `loaders`, in order. */
  function UrlLoaders(loaders: seq<Loader>): (r: seq<Loader>)
    ensures forall l :: l in r <==> l in loaders && l.isUrlLoader
  {
    if loaders == [] then []
    else UrlLoaders(loaders[..|loaders| - 1]) + (if loaders[|loaders| - 1].isUrlLoader then [loaders[|loaders| - 1]] else [])
  }

  /** Filtering the URL loaders keeps the order of the walk: the loaders of a
      concatenation are those of the first part, then those of the second. */
  lemma {:induction false} UrlLoadersConcat(a: seq<Loader>, b: seq<Loader>)
    ensures UrlLoaders(a + b) == UrlLoaders(a) + UrlLoaders(b)
    decreases |b|
  {
    if b == [] {
      assert a + b == a;
    } else {
      var init := b[..|b| - 1];
      assert (a + b)[..|a + b| - 1] == a + init;
      assert (a + b)[|a + b| - 1] == b[|b| - 1];
      UrlLoadersConcat(a, init);
    }
  }

  /** A walk that meets the system loader at `i` for the first time stops there. */
  lemma {:induction false} WalkedStops(chain: seq<Loader>, systemLoader: nat, i: nat)
    requires i < |chain| && chain[i].identity == systemLoader
    requires forall k | 0 <= k < i :: chain[k].identity != systemLoader
    ensures Walked(chain, systemLoader, false) == chain[..i + 1]
    decreases i
  {
    if i > 0 {
      var rest := chain[1..];
      assert rest[i - 1] == chain[i];
      assert forall k | 0 <= k < i - 1 :: rest[k] == chain[k + 1];
      WalkedStops(rest, systemLoader, i - 1);
      assert chain[0].identity != systemLoader;
      assert Walked(chain, systemLoader, false) == [chain[0]] + Walked(rest, systemLoader, false);
      assert chain[..i + 1] == [chain[0]] + rest[..i];
    }
  }

  /** Without the system loader the walk covers the whole chain. */
  lemma {:induction false} WalkedAll(chain: seq<Loader>, systemLoader: nat)
    requires forall k | 0 <= k < |chain| :: chain[k].identity != systemLoader
    ensures Walked(chain, systemLoader, false) == chain
    decreases |chain|
  {
    if chain != [] {
      WalkedAll(chain[1..], systemLoader);
    }
  }

  /** `getClassLoaders(classLoader, includeExtensionLibraries)`: the URL loaders of
      the walk, child first; `systemLoader` is the identity of the system class loader. */
  method GetClassLoaders(chain: seq<Loader>, systemLoader: nat, includeExtensionLibraries: bool) returns (r: seq<Loader>)
    ensures r == UrlLoaders(Walked(chain, systemLoader, includeExtensionLibraries))
  {
    r := [];
    var i := 0;
    while i < |chain|
      invariant 0 <= i <= |chain|
      invariant r == UrlLoaders(chain[..i])
      invariant !includeExtensionLibraries ==> forall k | 0 <= k < i :: chain[k].identity != systemLoader
    {
      var current := chain[i];
      assert chain[..i + 1][..i] == chain[..i];
      if current.isUrlLoader {
        r := r + [current];
      }
      if !includeExtensionLibraries && current.identity == systemLoader {
        WalkedStops(chain, systemLoader, i);
        return;
      }
      i := i + 1;
    }
    assert chain[..i] == chain;
    if !includeExtensionLibraries {
      WalkedAll(chain, systemLoader);
    }
  }

  /** A failure among the first URLs is the failure of all of them. */
  lemma {:induction false} LoaderFilesFailureSticks(urls: seq<Url>, n: nat)
    requires n <= |urls| && LoaderFiles(urls[..n]).Failure?
    ensures LoaderFiles(urls) == LoaderFiles(urls[..n])
    decreases |urls| - n
  {
    if n < |urls| {
      assert urls[..n + 1][..n] == urls[..n];
      LoaderFilesFailureSticks(urls, n + 1);
    } else {
      assert urls[..n] == urls;
    }
  }

  /** A failure among the root-side loaders is the failure of the whole chain. */
  lemma {:induction false} RootFirstFailureSticks(loaders: seq<Loader>, i: nat)
    requires i <= |loaders| && RootFirst(loaders[i..]).Failure?
    ensures RootFirst(loaders) == RootFirst(loaders[i..])
    decreases i
  {
    if i > 0 {
      assert loaders[i - 1..][1..] == loaders[i..];
      RootFirstFailureSticks(loaders, i - 1);
    } else {
      assert loaders[0..] == loaders;
    }
  }

  /** The files of the loaders from `i` on: those of the loaders after `i`, then those
      of loader `i`. */
  lemma RootFirstStep(loaders: seq<Loader>, i: nat)
    requires i < |loaders|
    ensures var rest := RootFirst(loaders[i + 1..]);
      var own := LoaderFiles(loaders[i].urls);
      RootFirst(loaders[i..]) == if rest.Failure? then rest else if own.Failure? then own else Success(rest.value + own.value)
  {
    assert loaders[i..][1..] == loaders[i + 1..];
  }

  /** The files of the first `j + 1` URLs: those of the first `j`, then that of URL `j`. */
  lemma LoaderFilesStep(urls: seq<Url>, j: nat)
    requires j < |urls|
    ensures var previous := LoaderFiles(urls[..j]);
      var file := ToFile(urls[j]);
      LoaderFiles(urls[..j + 1]) ==
        if previous.Failure? then previous
        else if file.Failure? then Failure(file.error)
        else if file.value.None? || !Keep(file.value.value) then previous
        else Success(previous.value + [file.value.value])
  {
    assert urls[..j + 1][..j] == urls[..j];
  }

  /** The loop of `getLibraries` over the loaders, last loader first. */
  method LibrariesOf(loaders: seq<Loader>) returns (r: Result<seq<FileEntry>>)
    ensures r == RootFirst(loaders)
  {
    var results: seq<FileEntry> := [];
    var i := |loaders|;
    assert loaders[i..] == [];
    while i > 0
      invariant 0 <= i <= |loaders|
      invariant RootFirst(loaders[i..]) == Success(results)
    {
      i := i - 1;
      var current := loaders[i];
      RootFirstStep(loaders, i);
      var urls := current.urls;
      var base := results;
      assert urls[..0] == [];
      for j := 0 to |urls|
        invariant LoaderFiles(urls[..j]).Success? && results == base + LoaderFiles(urls[..j]).value
      {
        LoaderFilesStep(urls, j);
        var file := ToFile(urls[j]);
        if file.Failure? {
          LoaderFilesFailureSticks(urls, j + 1);
          RootFirstFailureSticks(loaders, i);
          return Failure(file.error);
        }
        if file.value.None? {
          continue;
        }
        if file.value.value.isFile && !IsArchiveName(file.value.value.name) {
          continue;
        }
        results := results + [file.value.value];
      }
      assert urls[..|urls|] == urls;
    }
    assert loaders[0..] == loaders;
    r := Success(results);
  }

  /** `getLibraries(classLoader, includeExtensionLibraries)`. */
  method GetLibraries(chain: seq<Loader>, systemLoader: nat, includeExtensionLibraries: bool) returns (r: Result<seq<FileEntry>>)
    ensures r == RootFirst(UrlLoaders(Walked(chain, systemLoader, includeExtensionLibraries)))
  {
    var loaders := GetClassLoaders(chain, systemLoader, includeExtensionLibraries);
    r := LibrariesOf(loaders);
  }

  /** `getLibraries(classLoader)`: without extension libraries. */
  method GetLibrariesDefault(chain: seq<Loader>, systemLoader: nat) returns (r: Result<seq<FileEntry>>)
    ensures r == RootFirst(UrlLoaders(Walked(chain, systemLoader, false)))
  {
    r := GetLibraries(chain, systemLoader, false);
  }

  /** Root-first order: the files of a chain are those of its parent side followed by
      those of its first loader. */
  lemma RootFirstOrder(loaders: seq<Loader>, more: seq<Loader>)
    requires RootFirst(more + loaders).Success?
    ensures RootFirst(loaders).Success? && RootFirst(more).Success?
    ensures RootFirst(more + loaders).value == RootFirst(loaders).value + RootFirst(more).value
    decreases |more|
  {
    if more != [] {
      assert (more + loaders)[1..] == more[1..] + loaders;
      RootFirstOrder(loaders, more[1..]);
    } else {
      assert more + loaders == loaders;
    }
  }

  /** Every file a loader contributes is the file of one of its `file:` URLs. */
  lemma {:induction false} LoaderFilesFromUrls(urls: seq<Url>)
    requires LoaderFiles(urls).Success?
    ensures forall f | f in LoaderFiles(urls).value ::
      exists i | 0 <= i < |urls| :: urls[i].protocol == Some("file") && urls[i].uri == WellFormed(None, f)
  {
    if urls != [] {
      var init := urls[..|urls| - 1];
      LoaderFilesFromUrls(init);
      forall f | f in LoaderFiles(urls).value
        ensures exists i | 0 <= i < |urls| :: urls[i].protocol == Some("file") && urls[i].uri == WellFormed(None, f)
      {
        if f in LoaderFiles(init).value {
          var i :| 0 <= i < |init| && init[i].protocol == Some("file") && init[i].uri == WellFormed(None, f);
          assert urls[i] == init[i];
        } else {
          assert urls[|urls| - 1].uri == WellFormed(None, f);
        }
      }
    }
  }
}
