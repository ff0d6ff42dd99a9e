/** The one-off rebranding script scripts/update-branding.js: walk the `app` directory for
    source files and rewrite old brand names in them. The directory tree is an input value
    and file contents live in a map from path to text; console output is not modelled. */
module Branding {
  import opened Text
  import opened Seqs

  /** A directory listing entry; a directory carries its own listing, in listing order. */
  datatype Entry = File(name: string) | Dir(name: string, children: seq<Entry>)

  /** A path as its components; `path.join` of a directory and an entry name appends one. */
  type Path = seq<string>

  /** Index of the last '.' in s, or -1 when there is none. */
  function LastDot(s: string): (k: int)
    ensures -1 <= k < |s|
    ensures k >= 0 ==> s[k] == '.'
    ensures forall j :: k < j < |s| ==> s[j] != '.'
    decreases |s|
  {
    if s == [] then -1 else if s[|s| - 1] == '.' then |s| - 1 else LastDot(s[..|s| - 1])
  }

  /** `path.extname` of a bare entry name: from the last '.' to the end, except that a name
      with no '.', a name whose only leading character is its last '.', and ".." have none. */
  function Extname(name: string): (ext: string)
    ensures ext == [] || (ext[0] == '.' && forall j :: 1 <= j < |ext| ==> ext[j] != '.')
    ensures ext != [] ==> |ext| < |name| && name[|name| - |ext|..] == ext
    ensures |name| > 0 && name[0] == '.' && LastDot(name) == 0 ==> ext == []
    ensures (exists j :: 0 < j < |name| && name[j] == '.') && name != ".." ==> ext != []
  {
    var k := LastDot(name);
    if k <= 0 || name == ".." then "" else name[k..]
  }

  const EXTENSIONS: seq<string> := [".tsx", ".ts", ".scss", ".css", ".js", ".jsx"]

  const EXCLUDE_DIRS: seq<string> := ["node_modules", ".git", "dist", "build", ".next"]

  /** The result of `findFiles(dir, extensions, excludeDirs)` over the listing `entries` of
      dir: depth first, each directory's files spliced in at the directory's position. */
  function Found(dir: Path, entries: seq<Entry>, exts: seq<string>, excl: seq<string>): seq<Path>
    decreases entries
  {
    if entries == [] then []
    else
      (match entries[0]
       case File(n) => if Extname(n) in exts then [dir + [n]] else []
       case Dir(n, kids) => if n in excl then [] else Found(dir + [n], kids, exts, excl))
      + Found(dir, entries[1..], exts, excl)
  }

  /** p names a file with a wanted extension that can be reached from dir through
      directories none of which is excluded. */
  ghost predicate Reaches(dir: Path, entries: seq<Entry>, p: Path, exts: seq<string>, excl: seq<string>)
    decreases entries
  {
    exists i :: 0 <= i < |entries| &&
      match entries[i]
      case File(n) => p == dir + [n] && Extname(n) in exts
      case Dir(n, kids) => n !in excl && Reaches(dir + [n], kids, p, exts, excl)
  }

  lemma {:induction false} FoundAppend(dir: Path, a: seq<Entry>, b: seq<Entry>, exts: seq<string>, excl: seq<string>)
    ensures Found(dir, a + b, exts, excl) == Found(dir, a, exts, excl) + Found(dir, b, exts, excl)
    decreases a
  {
    if a != [] {
      assert (a + b)[0] == a[0];
      assert (a + b)[1..] == a[1..] + b;
      FoundAppend(dir, a[1..], b, exts, excl);
    } else {
      assert a + b == b;
    }
  }

  /** Everything `findFiles` returns is a wanted file reached without entering an excluded directory. */
  lemma {:induction false} FoundSound(dir: Path, entries: seq<Entry>, p: Path, exts: seq<string>, excl: seq<string>)
    requires p in Found(dir, entries, exts, excl)
    ensures Reaches(dir, entries, p, exts, excl)
    decreases entries
  {
    var rest := Found(dir, entries[1..], exts, excl);
    if p in rest {
      FoundSound(dir, entries[1..], p, exts, excl);
      var i :| 0 <= i < |entries[1..]| && match entries[1..][i]
        case File(n) => p == dir + [n] && Extname(n) in exts
        case Dir(n, kids) => n !in excl && Reaches(dir + [n], kids, p, exts, excl);
      assert entries[i + 1] == entries[1..][i];
    } else {
      match entries[0]
      case File(n) =>
      case Dir(n, kids) =>
        FoundSound(dir + [n], kids, p, exts, excl);
    }
  }

  /** Every wanted file outside the excluded directories is returned. */
  lemma {:induction false} FoundComplete(dir: Path, entries: seq<Entry>, p: Path, exts: seq<string>, excl: seq<string>)
    requires Reaches(dir, entries, p, exts, excl)
    ensures p in Found(dir, entries, exts, excl)
    decreases entries
  {
    var i :| 0 <= i < |entries| && match entries[i]
      case File(n) => p == dir + [n] && Extname(n) in exts
      case Dir(n, kids) => n !in excl && Reaches(dir + [n], kids, p, exts, excl);
    if i == 0 {
      match entries[0]
      case File(n) =>
      case Dir(n, kids) =>
        FoundComplete(dir + [n], kids, p, exts, excl);
    } else {
      assert entries[1..][i - 1] == entries[i];
      FoundComplete(dir, entries[1..], p, exts, excl);
    }
  }

  /** Every returned path extends dir, ends in a name with a wanted extension, and passes
      through no directory whose bare name is excluded. */
  lemma {:induction false} FoundShape(dir: Path, entries: seq<Entry>, p: Path, exts: seq<string>, excl: seq<string>)
    requires p in Found(dir, entries, exts, excl)
    ensures |p| > |dir| && p[..|dir|] == dir
    ensures Extname(p[|p| - 1]) in exts
    ensures forall k :: |dir| <= k < |p| - 1 ==> p[k] !in excl
    decreases entries
  {
    var rest := Found(dir, entries[1..], exts, excl);
    if p in rest {
      FoundShape(dir, entries[1..], p, exts, excl);
    } else {
      match entries[0]
      case File(n) =>
      case Dir(n, kids) =>
        FoundShape(dir + [n], kids, p, exts, excl);
        assert p[..|dir|] == (dir + [n])[..|dir|];
    }
  }

  /** `findFiles`: walks the listing with a loop, recursing into each directory not excluded. */
  method FindFiles(dir: Path, entries: seq<Entry>, exts: seq<string>, excl: seq<string>) returns (results: seq<Path>)
    ensures results == Found(dir, entries, exts, excl)
    decreases entries
  {
    results := [];
    var i := 0;
    while i < |entries|
      invariant 0 <= i <= |entries|
      invariant results == Found(dir, entries[..i], exts, excl)
    {
      var entry := entries[i];
      assert entries[..i + 1] == entries[..i] + [entry];
      FoundAppend(dir, entries[..i], [entry], exts, excl);
      match entry {
        case Dir(n, kids) =>
          if n !in excl {
            var sub := FindFiles(dir + [n], kids, exts, excl);
            results := results + sub;
          }
        case File(n) =>
          if Extname(n) in exts {
            results := results + [dir + [n]];
          }
      }
      i := i + 1;
    }
    assert entries[..i] == entries;
  }

  /** One `{ from, to }` pair; every `from` in the script's list is a literal string. */
  datatype Replacement = Replacement(from: string, to: string)

  const REPLACEMENTS: seq<Replacement> := [
    Replacement("--bolt-elements-", "--refine-elements-"),
    Replacement("--bolt-terminal-", "--refine-terminal-"),
    Replacement("bolt-elements-", "refine-elements-"),
    Replacement("bolt-terminal-", "refine-terminal-"),
    Replacement("i-bolt:", "i-refine:"),
    Replacement("bolt_theme", "refine_theme"),
    Replacement("bolt_user_profile", "refine_user_profile"),
    Replacement("escapeBoltArtifactTags", "escapeRefineArtifactTags"),
    Replacement("escapeBoltAActionTags", "escapeRefineActionTags"),
    Replacement("escapeBoltTags", "escapeRefineTags"),
    Replacement("boltArtifact", "refineArtifact"),
    Replacement("boltAction", "refineAction")]

  /** Every pattern is non-empty, as a global replacement needs. */
  predicate NonEmptyPatterns(reps: seq<Replacement>)
  {
    forall i :: 0 <= i < |reps| ==> reps[i].from != []
  }

  /** Letters, '-', '_' and ':' have no special meaning in a JavaScript regular expression
      outside a character class. */
  predicate PlainChar(c: char)
  {
    ('a' <= c <= 'z') || ('A' <= c <= 'Z') || c == '-' || c == '_' || c == ':'
  }

  /** Read as a regular expression, s matches exactly the string s. */
  predicate PlainText(s: string)
  {
    forall j :: 0 <= j < |s| ==> PlainChar(s[j])
  }

  /** The CSS-variable, class and storage-key patterns are plain text. */
  lemma CssPatternsPlain()
    ensures PlainText("--bolt-elements-")
    ensures PlainText("--bolt-terminal-")
    ensures PlainText("bolt-elements-")
    ensures PlainText("bolt-terminal-")
    ensures PlainText("i-bolt:")
    ensures PlainText("bolt_theme")
    ensures PlainText("bolt_user_profile")
  {
  }

  /** The identifier patterns are plain text. */
  lemma CodePatternsPlain()
    ensures PlainText("escapeBoltArtifactTags")
    ensures PlainText("escapeBoltAActionTags")
    ensures PlainText("escapeBoltTags")
    ensures PlainText("boltArtifact")
    ensures PlainText("boltAction")
  {
  }

  /** No pattern of the script is empty. */
  lemma ReplacementsNonEmpty()
    ensures NonEmptyPatterns(REPLACEMENTS)
  {
  }

  /** The replacement texts contain no '$', so `replace` inserts them as they are. */
  lemma CssReplacementsPlain()
    ensures PlainText("--refine-elements-")
    ensures PlainText("--refine-terminal-")
    ensures PlainText("refine-elements-")
    ensures PlainText("refine-terminal-")
    ensures PlainText("i-refine:")
    ensures PlainText("refine_theme")
    ensures PlainText("refine_user_profile")
  {
  }

  /** The identifier replacement texts contain no '$'. */
  lemma CodeReplacementsPlain()
    ensures PlainText("escapeRefineArtifactTags")
    ensures PlainText("escapeRefineActionTags")
    ensures PlainText("escapeRefineTags")
    ensures PlainText("refineArtifact")
    ensures PlainText("refineAction")
  {
  }

  /** The script's `new RegExp(from, 'g')` matches each pattern literally, and `replace`
      inserts each replacement text as it is (none holds a '$' pattern), so reading both as
      plain strings loses nothing. */
  lemma ReplacementsArePlainText()
    ensures NonEmptyPatterns(REPLACEMENTS)
    ensures forall i :: 0 <= i < |REPLACEMENTS| ==> PlainText(REPLACEMENTS[i].from)
    ensures forall i :: 0 <= i < |REPLACEMENTS| ==> PlainText(REPLACEMENTS[i].to)
  {
    CssPatternsPlain();
    CodePatternsPlain();
    CssReplacementsPlain();
    CodeReplacementsPlain();
  }

  /** One step of the `forEach`: replace all occurrences when the pattern is found. */
  function Step(content: string, r: Replacement): string
    requires r.from != []
  {
    if Contains(content, r.from) then ReplaceAll(content, r.from, r.to) else content
  }

  /** The content after applying the replacements in list order. */
  function ApplyAll(content: string, reps: seq<Replacement>): string
    requires NonEmptyPatterns(reps)
    decreases |reps|
  {
    if reps == [] then content
    else Step(ApplyAll(content, reps[..|reps| - 1]), reps[|reps| - 1])
  }

  /** The `changed` flag after the replacements: some pattern was found when its turn came. */
  predicate Changed(content: string, reps: seq<Replacement>)
    requires NonEmptyPatterns(reps)
    decreases |reps|
  {
    reps != [] &&
    (Changed(content, reps[..|reps| - 1]) || Contains(ApplyAll(content, reps[..|reps| - 1]), reps[|reps| - 1].from))
  }

  /** Pattern k occurred in the content as it stood when its turn came. */
  predicate MatchedAt(content: string, reps: seq<Replacement>, k: int)
    requires NonEmptyPatterns(reps)
  {
    0 <= k < |reps| && Contains(ApplyAll(content, reps[..k]), reps[k].from)
  }

  /** `changed` holds exactly when some pattern occurred in the content as it stood when that
      pattern was applied. */
  lemma {:induction false} ChangedIffSomeMatch(content: string, reps: seq<Replacement>)
    requires NonEmptyPatterns(reps)
    ensures Changed(content, reps) <==> exists k :: MatchedAt(content, reps, k)
    decreases |reps|
  {
    if reps != [] {
      var n := |reps| - 1;
      var pre := reps[..n];
      ChangedIffSomeMatch(content, pre);
      forall k | 0 <= k < n
        ensures MatchedAt(content, pre, k) <==> MatchedAt(content, reps, k)
      {
        assert pre[..k] == reps[..k] && pre[k] == reps[k];
      }
      if Changed(content, reps) && !Changed(content, pre) {
        assert MatchedAt(content, reps, n);
      }
      if exists k :: MatchedAt(content, reps, k) {
        var k :| MatchedAt(content, reps, k);
        if k < n {
          assert MatchedAt(content, pre, k);
        }
      }
    }
  }

  /** Without any match the content comes out unchanged. */
  lemma {:induction false} UnchangedContent(content: string, reps: seq<Replacement>)
    requires NonEmptyPatterns(reps)
    requires !Changed(content, reps)
    ensures ApplyAll(content, reps) == content
    decreases |reps|
  {
    if reps != [] {
      UnchangedContent(content, reps[..|reps| - 1]);
    }
  }

  /** What the script changes on disk: file contents, the log of writes, and the log of
      files whose processing threw. */
  datatype DiskState = DiskState(files: map<Path, string>, writes: seq<Path>, failures: seq<Path>)

  /** `replaceInFile(path, reps)`: an unreadable file is logged; otherwise the file is written
      only when some pattern matched. */
  function Processed(st: DiskState, path: Path, reps: seq<Replacement>): DiskState
    requires NonEmptyPatterns(reps)
  {
    if path !in st.files then st.(failures := st.failures + [path])
    else if Changed(st.files[path], reps) then
      st.(files := st.files[path := ApplyAll(st.files[path], reps)], writes := st.writes + [path])
    else st
  }

  /** The script's final loop: every found file in turn. */
  function ProcessedAll(st: DiskState, paths: seq<Path>, reps: seq<Replacement>): DiskState
    requires NonEmptyPatterns(reps)
    decreases |paths|
  {
    if paths == [] then st
    else Processed(ProcessedAll(st, paths[..|paths| - 1], reps), paths[|paths| - 1], reps)
  }

  /** A path that is not processed keeps its content, is never written and never fails, and
      no file is created or removed. */
  lemma {:induction false} ProcessedAllUntouched(st: DiskState, paths: seq<Path>, reps: seq<Replacement>, p: Path)
    requires NonEmptyPatterns(reps)
    requires p !in paths
    ensures var r := ProcessedAll(st, paths, reps);
      && r.files.Keys == st.files.Keys
      && (p in st.files ==> r.files[p] == st.files[p])
      && |r.writes| >= |st.writes| && r.writes[..|st.writes|] == st.writes
      && p !in r.writes[|st.writes|..]
      && |r.failures| >= |st.failures| && r.failures[..|st.failures|] == st.failures
      && p !in r.failures[|st.failures|..]
    decreases |paths|
  {
    if paths != [] {
      var pre := paths[..|paths| - 1];
      assert forall q :: q in pre ==> q in paths;
      ProcessedAllUntouched(st, pre, reps, p);
      var mid := ProcessedAll(st, pre, reps);
      var r := ProcessedAll(st, paths, reps);
      var last := paths[|paths| - 1];
      assert r.writes == mid.writes || r.writes == mid.writes + [last];
      assert r.failures == mid.failures || r.failures == mid.failures + [last];
      assert r.writes[|st.writes|..] == mid.writes[|st.writes|..] || r.writes[|st.writes|..] == mid.writes[|st.writes|..] + [last];
      assert r.failures[|st.failures|..] == mid.failures[|st.failures|..] || r.failures[|st.failures|..] == mid.failures[|st.failures|..] + [last];
    }
  }

  /** A readable file found exactly once ends up with every replacement applied, however the
      other files fare. */
  lemma {:induction false} ProcessedAllApplies(st: DiskState, paths: seq<Path>, reps: seq<Replacement>, p: Path)
    requires NonEmptyPatterns(reps)
    requires p in st.files
    requires multiset(paths)[p] == 1
    ensures var r := ProcessedAll(st, paths, reps); p in r.files && r.files[p] == ApplyAll(st.files[p], reps)
    decreases |paths|
  {
    var n := |paths| - 1;
    var pre := paths[..n];
    assert paths == pre + [paths[n]];
    var mid := ProcessedAll(st, pre, reps);
    if paths[n] == p {
      assert multiset(pre)[p] == 0;
      ProcessedAllUntouched(st, pre, reps, p);
      if !Changed(mid.files[p], reps) {
        UnchangedContent(st.files[p], reps);
      }
    } else {
      ProcessedAllApplies(st, pre, reps, p);
    }
  }

  /** The disk as the script sees it: the listing of `./app` and the files' contents. */
  class Disk {
    var appTree: seq<Entry>
    var files: map<Path, string>
    var writes: seq<Path>
    var failures: seq<Path>

    function State(): DiskState
      reads this
    {
      DiskState(files, writes, failures)
    }

    /** `replaceInFile`: reassigns the content and raises `changed` pattern by pattern. */
    method ReplaceInFile(path: Path, reps: seq<Replacement>)
      requires NonEmptyPatterns(reps)
      modifies this
      ensures State() == Processed(old(State()), path, reps)
      ensures appTree == old(appTree)
    {
      if path !in files {
        failures := failures + [path];
        return;
      }
      var content := files[path];
      var changed := false;
      var i := 0;
      while i < |reps|
        invariant 0 <= i <= |reps|
        invariant content == ApplyAll(files[path], reps[..i])
        invariant changed == Changed(files[path], reps[..i])
      {
        var r := reps[i];
        assert reps[..i + 1][..i] == reps[..i] && reps[..i + 1][i] == r;
        if Contains(content, r.from) {
          content := ReplaceAll(content, r.from, r.to);
          changed := true;
        }
        i := i + 1;
      }
      assert reps[..i] == reps;
      if changed {
        files := files[path := content];
        writes := writes + [path];
      }
    }

    /** The script: find the files under `./app`, then process each one. */
    method UpdateBranding()
      modifies this
      ensures State() == ProcessedAll(old(State()), Found(["app"], old(appTree), EXTENSIONS, EXCLUDE_DIRS), REPLACEMENTS)
      ensures appTree == old(appTree)
    {
      var found := FindFiles(["app"], appTree, EXTENSIONS, EXCLUDE_DIRS);
      ReplacementsNonEmpty();
      var i := 0;
      while i < |found|
        invariant 0 <= i <= |found|
        invariant appTree == old(appTree)
        invariant State() == ProcessedAll(old(State()), found[..i], REPLACEMENTS)
      {
        assert found[..i + 1][..i] == found[..i];
        ReplaceInFile(found[i], REPLACEMENTS);
        i := i + 1;
      }
      assert found[..i] == found;
    }
  }
}
