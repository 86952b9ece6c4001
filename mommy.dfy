/**
 * utils/from_mommy_to_bakery.py: the migration script's text and path
 * transformations. Reading, writing, renaming and printing are the script's
 * I/O and appear here as the action it would take.
 */
module MommyToBakery {
  import opened Values
  import opened Text

  // ---------------------------------------------------------------------
  // whole-word substitution: re.subn(r"\bword\b", repl, content)

  /**
   * `word` occurs at `i` between word boundaries. Every pattern here starts
   * and ends with a word character, so `\b` means: no word character
   * right before nor right after.
   */
  predicate WholeWordAt(s: string, word: string, i: int)
  {
    OccursAt(s, word, i) &&
    (i == 0 || !IsWordChar(s[i - 1])) &&
    (i + |word| == |s| || !IsWordChar(s[i + |word|]))
  }

  predicate HasWholeWord(s: string, word: string, from: nat)
  {
    exists j :: from <= j <= |s| && WholeWordAt(s, word, j)
  }

  /**
   * The scan of `re.subn` from position `i`: a match is replaced and the scan
   * resumes after it; otherwise one character is kept. The count is the
   * number of substitutions.
   */
  function SubnFrom(s: string, word: string, repl: string, i: nat): (r: (string, nat))
    requires i <= |s| && |word| >= 1
    decreases |s| - i
  {
    if i == |s| then ("", 0)
    else if WholeWordAt(s, word, i) then
      var rest := SubnFrom(s, word, repl, i + |word|);
      (repl + rest.0, rest.1 + 1)
    else
      var rest := SubnFrom(s, word, repl, i + 1);
      ([s[i]] + rest.0, rest.1)
  }

  /** With no substitution the scan gives back the text it read. */
  lemma {:induction false} SubnNoneKeeps(s: string, word: string, repl: string, i: nat)
    requires i <= |s| && |word| >= 1 && SubnFrom(s, word, repl, i).1 == 0
    ensures SubnFrom(s, word, repl, i).0 == s[i..]
    decreases |s| - i
  {
    if i < |s| {
      SubnNoneKeeps(s, word, repl, i + 1);
      assert s[i..] == [s[i]] + s[i + 1..];
    }
  }

  /** The scan substitutes something exactly when the word occurs whole somewhere ahead. */
  lemma {:induction false} SubnCounts(s: string, word: string, repl: string, i: nat)
    requires i <= |s| && |word| >= 1
    ensures SubnFrom(s, word, repl, i).1 > 0 <==> HasWholeWord(s, word, i)
    decreases |s| - i
  {
    if i < |s| && !WholeWordAt(s, word, i) {
      SubnCounts(s, word, repl, i + 1);
      if HasWholeWord(s, word, i) {
        var j :| i <= j <= |s| && WholeWordAt(s, word, j);
        assert j != i;
        assert HasWholeWord(s, word, i + 1);
      }
    }
  }

  /** `_find_changes`: the rewritten text, and whether anything was substituted. */
  function FindChanges(content: string, word: string, repl: string): (r: (string, bool))
    requires |word| >= 1
    ensures r.1 <==> HasWholeWord(content, word, 0)
    ensures !r.1 ==> r.0 == content
  {
    var (newContent, substitutions) := SubnFrom(content, word, repl, 0);
    SubnCounts(content, word, repl, 0);
    if substitutions == 0 then
      SubnNoneKeeps(content, word, repl, 0);
      (newContent, false)
    else (newContent, true)
  }

  /** `LEGACY_AND_NEW`, in the order the script applies it. */
  const LegacyAndNew: seq<(string, string)> :=
    [("model_mommy", "model_bakery"), ("mommy_recipes", "baker_recipes"), ("mommy", "baker")]

  predicate ValidPatterns(patterns: seq<(string, string)>)
  {
    forall k :: 0 <= k < |patterns| ==> |patterns[k].0| >= 1
  }

  /** The patterns applied one after the other: the final text and, per pattern, whether it changed something. */
  function Rewrite(content: string, patterns: seq<(string, string)>): (r: (string, seq<bool>))
    requires ValidPatterns(patterns)
    ensures |r.1| == |patterns|
  {
    if patterns == [] then (content, [])
    else
      var init := patterns[..|patterns| - 1];
      var last := patterns[|patterns| - 1];
      var (c, flags) := Rewrite(content, init);
      var (c', changed) := FindChanges(c, last.0, last.1);
      (c', flags + [changed])
  }

  /** When no pattern changed anything the content is as it was. */
  lemma {:induction false} RewriteUnchanged(content: string, patterns: seq<(string, string)>)
    requires ValidPatterns(patterns)
    requires forall k :: 0 <= k < |patterns| ==> !Rewrite(content, patterns).1[k]
    ensures Rewrite(content, patterns).0 == content
    decreases |patterns|
  {
    if patterns != [] {
      var init := patterns[..|patterns| - 1];
      var flags := Rewrite(content, init).1;
      var last := patterns[|patterns| - 1];
      var c := Rewrite(content, init).0;
      assert forall k :: 0 <= k < |init| ==> Rewrite(content, patterns).1[k] == flags[k];
      assert Rewrite(content, patterns).1[|init|] == FindChanges(c, last.0, last.1).1;
      assert Rewrite(content, patterns).0 == FindChanges(c, last.0, last.1).0;
      RewriteUnchanged(content, init);
    }
  }

  /** What the script does with one file. */
  datatype FileAction = Untouched | WriteFile(path: string, content: string) | PrintPath(path: string)

  /**
   * `_replace_legacy_terms`: apply the patterns in order, remembering for
   * each whether it changed something; a file that cannot be decoded
   * (`None`) is left alone; a changed file is written back, or in a dry run
   * its path is printed.
   */
  method ReplaceLegacyTerms(filePath: string, read: Option<string>, dryRun: bool) returns (action: FileAction)
    ensures read.None? ==> action == Untouched
    ensures read.Some? ==>
              var (content, changed) := Rewrite(read.value, LegacyAndNew);
              var anyChanged := exists k :: 0 <= k < |changed| && changed[k];
              action == (if !anyChanged then Untouched else if !dryRun then WriteFile(filePath, content) else PrintPath(filePath))
  {
    if read.None? {
      return Untouched;
    }
    var content := read.value;
    var changed: seq<bool> := [];
    var i := 0;
    while i < |LegacyAndNew|
      invariant 0 <= i <= |LegacyAndNew|
      invariant (content, changed) == Rewrite(read.value, LegacyAndNew[..i])
    {
      assert LegacyAndNew[..i + 1][..i] == LegacyAndNew[..i];
      var (legacy, repl) := LegacyAndNew[i];
      var hasChanged;
      content, hasChanged := FindChanges(content, legacy, repl).0, FindChanges(content, legacy, repl).1;
      changed := changed + [hasChanged];
      i := i + 1;
    }
    assert LegacyAndNew[..i] == LegacyAndNew;
    var anyChanged := exists k :: 0 <= k < |changed| && changed[k];
    if anyChanged {
      if !dryRun {
        action := WriteFile(filePath, content);
      } else {
        action := PrintPath(filePath);
      }
    } else {
      action := Untouched;
    }
  }

  // ---------------------------------------------------------------------
  // paths

  /** `str.isspace` for one character: the characters Python's `strip()` removes. */
  predicate IsSpace(c: char)
  {
    c == ' ' || '\t' <= c <= '\r' || '\U{1c}' <= c <= '\U{1f}' || c == '\U{85}' || c == '\U{a0}' ||
    c == '\U{1680}' || '\U{2000}' <= c <= '\U{200a}' || c == '\U{2028}' || c == '\U{2029}' ||
    c == '\U{202f}' || c == '\U{205f}' || c == '\U{3000}'
  }

  function StripLeft(s: string): (r: string)
    ensures |r| <= |s| && r == s[|s| - |r|..]
    ensures r == [] || !IsSpace(r[0])
    ensures forall i :: 0 <= i < |s| - |r| ==> IsSpace(s[i])
  {
    if s == [] || !IsSpace(s[0]) then s
    else
      var r := StripLeft(s[1..]);
      assert forall i :: 1 <= i < |s| - |r| ==> s[i] == s[1..][i - 1];
      r
  }

  function StripRight(s: string): (r: string)
    ensures |r| <= |s| && r == s[..|r|]
    ensures r == [] || !IsSpace(r[|r| - 1])
    ensures forall i :: |r| <= i < |s| ==> IsSpace(s[i])
  {
    if s == [] || !IsSpace(s[|s| - 1]) then s
    else StripRight(s[..|s| - 1])
  }

  /** Where `s.strip()` cuts: only whitespace before `a` and from `b` on, and none at either end of what remains. */
  function StripBounds(s: string): (r: (nat, nat))
    ensures r.0 <= r.1 <= |s|
    ensures forall i :: 0 <= i < r.0 ==> IsSpace(s[i])
    ensures forall i :: r.1 <= i < |s| ==> IsSpace(s[i])
    ensures r.0 < r.1 ==> !IsSpace(s[r.0]) && !IsSpace(s[r.1 - 1])
  {
    var left := StripLeft(s);
    var right := StripRight(left);
    var a := |s| - |left|;
    assert forall i :: a + |right| <= i < |s| ==> s[i] == left[i - a];
    (a, a + |right|)
  }

  /** `s.strip()`. */
  function Strip(s: string): (r: string)
    ensures r == s[StripBounds(s).0..StripBounds(s).1]
  {
    s[StripBounds(s).0..StripBounds(s).1]
  }

  /** Text with no whitespace at either end is its own strip. */
  lemma StripUnspaced(s: string)
    requires s == [] || (!IsSpace(s[0]) && !IsSpace(s[|s| - 1]))
    ensures Strip(s) == s
  {
    var (a, b) := StripBounds(s);
    if s != [] {
      assert a == 0;
      assert b == |s|;
    }
  }

  /** `_sanitize_folder_or_file`: strip, then drop one trailing `/`. */
  function Sanitize(entry: string): (r: string)
    ensures EndsWith(Strip(entry), "/") ==> r + "/" == Strip(entry)
    ensures !EndsWith(Strip(entry), "/") ==> r == Strip(entry)
  {
    var s := Strip(entry);
    if EndsWith(s, "/") then
      assert s[..|s| - 1] + "/" == s;
      s[..|s| - 1]
    else s
  }

  /** Only one trailing slash goes: `.tox//` becomes `.tox/`. */
  lemma SanitizeOneSlash()
    ensures Sanitize(".tox//") == ".tox/"
  {
    StripUnspaced(".tox//");
  }

  /** The target of `_rename_recipe_file`: the path up to its last `/`, then `/baker_recipes.py`; without a slash `rfind` gives -1 and the slice drops the last character. */
  function RenameTarget(path: string): (r: string)
    ensures '/' in path ==> r == path[..RFind(path, '/')] + "/baker_recipes.py"
    ensures '/' !in path ==> r == (if path == [] then [] else path[..|path| - 1]) + "/baker_recipes.py"
  {
    var i := RFind(path, '/');
    var root := if i >= 0 then path[..i] else if |path| + i >= 0 then path[..|path| + i] else [];
    root + "/baker_recipes.py"
  }

  /** A recipe file found by the walk is renamed in its own directory. */
  lemma RenameInPlace(root: string)
    ensures RenameTarget(root + "/mommy_recipes.py") == root + "/baker_recipes.py"
  {
    var path := root + "/mommy_recipes.py";
    var name := "mommy_recipes.py";
    assert path[|root|] == '/';
    assert path[|root| + 1..] == name;
    assert '/' !in name;
    assert RFind(path, '/') == |root|;
    assert path[..|root|] == root;
  }

  // ---------------------------------------------------------------------
  // the walk filter of check_files

  /** `EXCLUDE`. */
  const Exclude: seq<string> :=
    ["node_modules", "venv", ".git", "sql", "docs", "from_mommy_to_bakery.py", "Pipfile", "Pipfile.lock"]

  /** Each line of `.gitignore`, sanitised. */
  function SanitizeAll(lines: seq<string>): (r: seq<string>)
    ensures |r| == |lines|
    ensures forall i :: 0 <= i < |lines| ==> r[i] == Sanitize(lines[i])
  {
    if lines == [] then [] else [Sanitize(lines[0])] + SanitizeAll(lines[1..])
  }

  /** `EXCLUDE` extended with the sanitised lines of `.gitignore`. */
  function ExcludeList(gitignoreLines: seq<string>): (r: seq<string>)
    ensures |r| == |Exclude| + |gitignoreLines|
    ensures forall i :: 0 <= i < |Exclude| ==> r[i] == Exclude[i]
    ensures forall i :: 0 <= i < |gitignoreLines| ==> r[|Exclude| + i] == Sanitize(gitignoreLines[i])
  {
    Exclude + SanitizeAll(gitignoreLines)
  }

  /** `dirs[:] = [d for d in dirs if d not in exclude]`: the directories the walk still enters, in order. */
  function PruneDirs(dirs: seq<string>, exclude: seq<string>): (r: seq<string>)
    ensures forall d :: d in r <==> d in dirs && d !in exclude
    ensures |r| <= |dirs|
  {
    if dirs == [] then []
    else
      var rest := PruneDirs(dirs[1..], exclude);
      assert forall d :: d in dirs <==> d == dirs[0] || d in dirs[1..];
      if dirs[0] in exclude then rest else [dirs[0]] + rest
  }

  /** Pruning keeps the walk's order: the kept directories are a subsequence of `dirs`. */
  lemma {:induction false} PruneDirsOrder(dirs: seq<string>, exclude: seq<string>)
    ensures IsSubsequence(PruneDirs(dirs, exclude), dirs)
    decreases |dirs|
  {
    if dirs != [] {
      PruneDirsOrder(dirs[1..], exclude);
    }
  }

  predicate IsSubsequence(xs: seq<string>, ys: seq<string>)
    decreases |ys|
  {
    if xs == [] then true
    else if ys == [] then false
    else if xs[0] == ys[0] then IsSubsequence(xs[1..], ys[1..])
    else IsSubsequence(xs, ys[1..])
  }

  /** A file of the walk the script looks at: not excluded, and ending in `.py`. */
  predicate Considered(file: string, exclude: seq<string>)
  {
    file !in exclude && EndsWith(file, ".py")
  }

  /**
   * The loop over one directory's files in `check_files`: the paths handed
   * to `_replace_legacy_terms`, and those collected for renaming.
   */
  method ScanFiles(root: string, files: seq<string>, exclude: seq<string>) returns (processed: seq<string>, toBeRenamed: seq<string>)
    ensures |processed| <= |files|
    ensures forall p :: p in processed <==> exists f :: f in files && Considered(f, exclude) && p == root + "/" + f
    ensures forall p :: p in toBeRenamed <==>
              p == root + "/" + "mommy_recipes.py" && "mommy_recipes.py" in files && Considered("mommy_recipes.py", exclude)
  {
    processed, toBeRenamed := [], [];
    var i := 0;
    while i < |files|
      invariant 0 <= i <= |files|
      invariant |processed| <= i
      invariant forall p :: p in processed <==> exists f :: f in files[..i] && Considered(f, exclude) && p == root + "/" + f
      invariant forall p :: p in toBeRenamed <==>
                  p == root + "/" + "mommy_recipes.py" && "mommy_recipes.py" in files[..i] && Considered("mommy_recipes.py", exclude)
    {
      assert files[..i + 1] == files[..i] + [files[i]];
      var file := files[i];
      if Considered(file, exclude) {
        var filePath := root + "/" + file;
        if file == "mommy_recipes.py" {
          toBeRenamed := toBeRenamed + [filePath];
        }
        processed := processed + [filePath];
      }
      i := i + 1;
    }
    assert files[..i] == files;
  }
}
