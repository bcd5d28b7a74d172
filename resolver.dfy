/** Target resolution: the anchored URL test, the git-repository check and the
    temporary clone workspace, over an abstract set of existing directories. */
module Resolver {
  import opened Text

  const HttpScheme := "http://"
  const HttpsScheme := "https://"

  /** `re.match(r'^(http|https)://', target)`: the target begins with one of the
      two schemes, lower-case, nothing before it (main.py:120, 211, 240, 247). */
  predicate IsUrl(target: string) {
    StartsWith(target, HttpScheme) || StartsWith(target, HttpsScheme)
  }

  /** The regular expression's meaning: the target is a scheme followed by any
      rest at all, and nothing else matches. */
  lemma IsUrlIffScheme(target: string)
    ensures IsUrl(target) <==> exists rest :: target == HttpScheme + rest || target == HttpsScheme + rest
  {
    if StartsWith(target, HttpScheme) {
      assert target == HttpScheme + target[|HttpScheme|..];
    } else if StartsWith(target, HttpsScheme) {
      assert target == HttpsScheme + target[|HttpsScheme|..];
    }
    forall rest | target == HttpScheme + rest || target == HttpsScheme + rest
      ensures IsUrl(target)
    {
      if target == HttpScheme + rest {
        assert target[..|HttpScheme|] == HttpScheme;
      } else {
        assert target[..|HttpsScheme|] == HttpsScheme;
      }
    }
  }

  /** The test looks at the start only: whatever follows a URL, it stays one. */
  lemma UrlIgnoresSuffix(target: string, suffix: string)
    requires IsUrl(target)
    ensures IsUrl(target + suffix)
  {
  }

  /** Anchoring: a scheme preceded by non-empty text that is not itself a URL
      is not matched, and the scheme is case-sensitive. */
  lemma UrlIsAnchored(pre: string, rest: string)
    requires pre != [] && !IsUrl(pre)
    ensures !IsUrl(pre + HttpScheme + rest) && !IsUrl(pre + HttpsScheme + rest)
    ensures !IsUrl("HTTPS://" + rest)
  {
    assert ("HTTPS://" + rest)[0] == 'H';
    var s1 := pre + HttpScheme + rest;
    var s2 := pre + HttpsScheme + rest;
    if |pre| >= |HttpsScheme| {
      assert s1[..|HttpScheme|] == pre[..|HttpScheme|];
      assert s1[..|HttpsScheme|] == pre[..|HttpsScheme|];
      assert s2[..|HttpScheme|] == pre[..|HttpScheme|];
      assert s2[..|HttpsScheme|] == pre[..|HttpsScheme|];
    } else {
      assert s1[|pre|] == 'h' && s1[|pre| + 1] == 't';
      assert s2[|pre|] == 'h' && s2[|pre| + 1] == 't';
      if |pre| >= |HttpScheme| {
        assert s1[..|HttpScheme|] == pre[..|HttpScheme|];
        assert s2[..|HttpScheme|] == pre[..|HttpScheme|];
      }
    }
  }

  /** The workspace a remote target is cloned into (main.py:214). */
  const TempRepo := "temp_repo"

  /** `os.path.join(dir, name)` on POSIX for a relative `name`. */
  function Join(dir: string, name: string): string {
    if dir == [] || dir[|dir| - 1] == '/' then dir + name else dir + "/" + name
  }

  function GitDir(path: string): string {
    Join(path, ".git")
  }

  /** What `git rev-parse --is-inside-work-tree` did: it ran and exited,
      `FileNotFoundError` (git missing) or another exception. */
  datatype RevParse = RevParseExited(code: int, stdout: string) | GitNotFound | RevParseRaised

  /** `is_git_repository` (main.py:46-64): a `.git` directory inside `path`, or
      a rev-parse that exits 0 and prints `true` up to surrounding whitespace. */
  predicate IsGitRepository(dirs: set<string>, path: string, revParse: RevParse) {
    || GitDir(path) in dirs
    || (revParse.RevParseExited? && revParse.code == 0 && Strip(revParse.stdout) == "true")
  }

  /** The decision in both directions. Without a runnable git, or with a
      rev-parse that fails or prints anything that does not strip to `true`,
      only a `.git` directory counts; an exit 0 with `true` and any whitespace
      around it counts on its own. */
  lemma GitCheckMeaning(dirs: set<string>, path: string, revParse: RevParse, pre: string, post: string)
    ensures !revParse.RevParseExited? ==> (IsGitRepository(dirs, path, revParse) <==> GitDir(path) in dirs)
    ensures AllSpace(pre) && AllSpace(post) ==> IsGitRepository(dirs, path, RevParseExited(0, pre + "true" + post))
    ensures forall code: int, out: string :: code != 0 ==>
              (IsGitRepository(dirs, path, RevParseExited(code, out)) <==> GitDir(path) in dirs)
    ensures forall out: string :: Strip(out) != "true" ==>
              (IsGitRepository(dirs, path, RevParseExited(0, out)) <==> GitDir(path) in dirs)
  {
    assert Trimmed("true");
    if AllSpace(pre) && AllSpace(post) {
      StripPadded(pre, "true", post);
    }
  }

  /** What git itself prints inside a work tree, `"true\n"`, passes the check
      whatever the directories are. */
  lemma GitOutputAccepted(dirs: set<string>, path: string)
    ensures IsGitRepository(dirs, path, RevParseExited(0, "true\n"))
  {
    assert Trimmed("true");
    assert AllSpace("\n") && AllSpace([]);
    StripPadded([], "true", "\n");
    assert [] + "true" + "\n" == "true\n";
  }

  /** Outcome of `git clone <url> temp_repo`: it succeeds, and git then leaves
      a `.git` directory in the workspace, or it raises (main.py:67-81). */
  datatype CloneOutcome = Cloned | CloneFailed

  /** The path the tools scan and the directories that exist once resolution
      has run, or the directories left behind by a resolution that failed. */
  datatype Resolution = Resolved(path: string, dirs: set<string>) | Unresolved(dirs: set<string>)

  /** Resolution (main.py:211-224): a URL is cloned into `temp_repo` after
      `os.makedirs(temp_repo, exist_ok=True)`; otherwise the target must be an
      existing directory, which is scanned in place. */
  function Resolve(dirs: set<string>, target: string, makedirsOk: bool, clone: CloneOutcome): (r: Resolution)
    ensures r.Resolved? ==> r.path == (if IsUrl(target) then TempRepo else target)
    ensures !IsUrl(target) ==> r.dirs == dirs && (r.Resolved? <==> target in dirs)
    ensures IsUrl(target) ==> (r.Resolved? <==> makedirsOk && clone.Cloned?)
  {
    if IsUrl(target) then
      if !makedirsOk then Unresolved(dirs)
      else if clone.CloneFailed? then Unresolved(dirs + {TempRepo})
      else Resolved(TempRepo, dirs + {TempRepo, GitDir(TempRepo)})
    else if target in dirs then Resolved(target, dirs)
    else Unresolved(dirs)
  }

  /** `d` is `root` or lies below it. */
  predicate Within(d: string, root: string) {
    d == root || StartsWith(d, root + "/")
  }

  /** `shutil.rmtree(root)` when it succeeds: `root` and every directory
      below it go. */
  function RemoveTree(dirs: set<string>, root: string): set<string> {
    set d | d in dirs && !Within(d, root)
  }

  /** What removal promises: `root` and anything joined below it are gone,
      nothing is created, a path that does not start with `root` survives,
      so does a sibling that only shares its prefix (`temp_repo2` beside
      `temp_repo`), and removing the same tree again changes nothing. */
  lemma RemoveTreeFacts(dirs: set<string>, root: string)
    ensures root !in RemoveTree(dirs, root)
    ensures RemoveTree(dirs, root) <= dirs
    ensures forall d :: d in dirs && !StartsWith(d, root) ==> d in RemoveTree(dirs, root)
    ensures root != [] && root[|root| - 1] != '/' ==> forall name :: Join(root, name) !in RemoveTree(dirs, root)
    ensures root != [] && root[|root| - 1] != '/' ==>
              forall d :: d in dirs && d != root && (forall name :: d != Join(root, name)) ==> d in RemoveTree(dirs, root)
    ensures RemoveTree(RemoveTree(dirs, root), root) == RemoveTree(dirs, root)
  {
    if root != [] && root[|root| - 1] != '/' {
      forall name ensures Join(root, name) !in RemoveTree(dirs, root) {
        assert Join(root, name) == (root + "/") + name;
        assert Join(root, name)[..|root + "/"|] == root + "/";
      }
      forall d | d in dirs && d != root && (forall name :: d != Join(root, name))
        ensures d in RemoveTree(dirs, root)
      {
        if StartsWith(d, root + "/") {
          assert d == Join(root, d[|root| + 1..]) by {
            assert d == d[..|root + "/"|] + d[|root| + 1..];
          }
        }
      }
    }
    forall d | d in dirs && !StartsWith(d, root) ensures d in RemoveTree(dirs, root) {
      PrefixOfSub(d, root);
    }
  }

  lemma PrefixOfSub(d: string, root: string)
    ensures StartsWith(d, root + "/") ==> StartsWith(d, root)
  {
    if StartsWith(d, root + "/") {
      assert d[..|root|] == (root + "/")[..|root|];
    }
  }

  /** The `finally` block (main.py:259-267): a URL target's workspace is removed
      if it exists; a failed removal leaves the directories as they were. */
  function Cleanup(dirs: set<string>, target: string, rmtreeOk: bool): set<string> {
    if IsUrl(target) && TempRepo in dirs && rmtreeOk then RemoveTree(dirs, TempRepo) else dirs
  }

  /** The directories once `perform_scan` has returned; the tools create none. */
  function FinalDirs(dirs: set<string>, target: string, makedirsOk: bool, clone: CloneOutcome, rmtreeOk: bool): set<string> {
    Cleanup(Resolve(dirs, target, makedirsOk, clone).dirs, target, rmtreeOk)
  }

  /** `perform_scan`'s return value (main.py:227-229, 254-258): resolution
      succeeded and the resolved path passed the git check. */
  predicate ScanSucceeds(dirs: set<string>, target: string, makedirsOk: bool, clone: CloneOutcome, revParse: RevParse) {
    var res := Resolve(dirs, target, makedirsOk, clone);
    res.Resolved? && IsGitRepository(res.dirs, res.path, revParse)
  }

  /** A successful clone always passes the git check, through its `.git`
      directory, whatever rev-parse would have said. */
  lemma ClonedRepositoryIsGit(dirs: set<string>, target: string, revParse: RevParse)
    requires IsUrl(target)
    ensures ScanSucceeds(dirs, target, true, Cloned, revParse)
  {
  }

  /** Cleanup: after a URL scan with a successful removal, `temp_repo` and
      everything below it are gone, whether the clone or the git check failed
      or not, and no directory outside it was touched. */
  lemma UrlWorkspaceRemoved(dirs: set<string>, target: string, makedirsOk: bool, clone: CloneOutcome)
    requires IsUrl(target)
    ensures var after := FinalDirs(dirs, target, makedirsOk, clone, true);
            && TempRepo !in after
            && RemoveTree(after, TempRepo) == RemoveTree(dirs, TempRepo)
            && (makedirsOk ==> after == RemoveTree(dirs, TempRepo))
  {
  }

  /** A local target leaves the directories exactly as they were. */
  lemma LocalTargetKeepsDirs(dirs: set<string>, target: string, makedirsOk: bool, clone: CloneOutcome, rmtreeOk: bool)
    requires !IsUrl(target)
    ensures FinalDirs(dirs, target, makedirsOk, clone, rmtreeOk) == dirs
  {
  }
}
