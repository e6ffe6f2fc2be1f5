/** POSIX path helpers used by the generator: `str.endswith`,
    `os.path.join` of two components and `os.path.basename`. */
module Paths {
  import opened Seqs

  /** `s.endswith(suffix)`: a plain suffix test, not an extension test. */
  predicate EndsWith(s: string, suffix: string) {
    |suffix| <= |s| && s[|s| - |suffix|..] == suffix
  }

  /** `os.path.join(dir, name)`: an absolute `name` replaces `dir`; otherwise
      a single '/' is inserted unless `dir` is empty or already ends with one. */
  function Join(dir: string, name: string): string
  {
    if |name| > 0 && name[0] == '/' then name
    else if dir == [] || dir[|dir| - 1] == '/' then dir + name
    else dir + "/" + name
  }

  /** A relative name is appended to the directory, with at most one '/'
      between them; an absolute one replaces it. */
  lemma JoinShape(dir: string, name: string)
    ensures var p := Join(dir, name); EndsWith(p, name) && (p == name || p[|p| - |name| - 1] == '/')
    ensures |name| > 0 && name[0] == '/' ==> Join(dir, name) == name
    ensures !(|name| > 0 && name[0] == '/') ==>
              dir <= Join(dir, name) && |dir| + |name| <= |Join(dir, name)| <= |dir| + 1 + |name|
  {
  }

  /** `os.path.basename(p)`: everything after the last '/'. */
  function Basename(p: string): string
    decreases |p|
  {
    if p == [] || p[|p| - 1] == '/' then [] else Basename(p[..|p| - 1]) + [p[|p| - 1]]
  }

  /** The base name is the longest slash-free suffix of `p`: a slash-free
      suffix that is either all of `p` or follows a '/'. */
  lemma {:induction false} BasenameSpec(p: string)
    ensures var b := Basename(p);
            EndsWith(p, b) && '/' !in b && (b == p || p[|p| - |b| - 1] == '/')
    decreases |p|
  {
    if p != [] && p[|p| - 1] != '/' {
      var init := p[..|p| - 1];
      var rest := Basename(init);
      assert Basename(p) == rest + [p[|p| - 1]];
      BasenameSpec(init);
      BasenameStep(p, rest);
    }
  }

  /** Extending the base name of all but the last character by that character. */
  lemma BasenameStep(p: string, rest: string)
    requires p != [] && p[|p| - 1] != '/'
    requires EndsWith(p[..|p| - 1], rest) && '/' !in rest
    requires rest == p[..|p| - 1] || p[..|p| - 1][|p| - 1 - |rest| - 1] == '/'
    ensures EndsWith(p, rest + [p[|p| - 1]]) && '/' !in rest + [p[|p| - 1]]
    ensures rest + [p[|p| - 1]] == p || p[|p| - |rest| - 2] == '/'
  {
    var init, c := p[..|p| - 1], p[|p| - 1];
    SplitLast([], p);
    SuffixSnoc(init, c, |rest|);
    assert forall x :: x in rest + [c] ==> x in rest || x == c;
  }

  /** A suffix of `p` that is slash-free and is either all of `p` or follows a
      '/' is unique. */
  lemma MaximalSlashFreeSuffixUnique(p: string, b1: string, b2: string)
    requires EndsWith(p, b1) && '/' !in b1 && (b1 == p || p[|p| - |b1| - 1] == '/')
    requires EndsWith(p, b2) && '/' !in b2 && (b2 == p || p[|p| - |b2| - 1] == '/')
    ensures b1 == b2
  {
  }

  /** The station name of a listed file is the name it was listed under. */
  lemma BasenameOfJoin(dir: string, name: string)
    requires '/' !in name
    ensures Basename(Join(dir, name)) == name
  {
    var p := Join(dir, name);
    JoinShape(dir, name);
    BasenameSpec(p);
    MaximalSlashFreeSuffixUnique(p, Basename(p), name);
  }
}
