/** Where the config generator puts a cluster's kubeconfig, and why that place
    identifies the cluster's own config path. */
module KubeconfigPath {

  const FILE_PREFIX := "kube_config_"

  /** `strings.Split` for a one-character separator. */
  function Split(s: string, sep: char): (parts: seq<string>)
    ensures |parts| >= 1
    ensures forall p :: p in parts ==> sep !in p
    ensures Join(parts, sep) == s
  {
    if s == [] then [[]]
    else
      var rest := Split(s[1..], sep);
      if s[0] == sep then
        assert ([[]] + rest)[1..] == rest;
        assert Join([[]] + rest, sep) == [sep] + Join(rest, sep);
        [[]] + rest
      else
        assert ([[s[0]] + rest[0]] + rest[1..])[1..] == rest[1..];
        [[s[0]] + rest[0]] + rest[1..]
  }

  /** `strings.Join`: what `Split` takes apart. */
  function Join(parts: seq<string>, sep: char): string
    requires |parts| >= 1
  {
    if |parts| == 1 then parts[0] else parts[0] + [sep] + Join(parts[1..], sep)
  }

  /** `strings.TrimSuffix`. */
  function TrimSuffix(s: string, suffix: string): string {
    if |suffix| <= |s| && s[|s| - |suffix|..] == suffix then s[..|s| - |suffix|] else s
  }

  function FileName(path: string): string {
    var parts := Split(path, '/');
    parts[|parts| - 1]
  }

  function Directory(path: string): string {
    TrimSuffix(path, FileName(path))
  }

  function GetKubeConfigPath(clusterConfigPath: string): string {
    Directory(clusterConfigPath) + "/" + FILE_PREFIX + FileName(clusterConfigPath)
  }

  /** The spec path a kubeconfig path came from. */
  function ClusterConfigPath(kubeConfigPath: string): string {
    var name := FileName(kubeConfigPath);
    if |name| < |FILE_PREFIX| then kubeConfigPath
    else TrimSuffix(kubeConfigPath, "/" + name) + name[|FILE_PREFIX|..]
  }

  lemma {:induction false} LastPartEnds(parts: seq<string>, sep: char)
    requires |parts| >= 1
    ensures var s, last := Join(parts, sep), parts[|parts| - 1];
      |last| <= |s| && s[|s| - |last|..] == last && (|last| < |s| ==> s[|s| - |last| - 1] == sep)
  {
    if |parts| > 1 {
      LastPartEnds(parts[1..], sep);
    }
  }

  lemma {:induction false} SplitAtLast(dir: string, name: string, sep: char)
    requires sep !in name
    ensures var parts := Split(dir + [sep] + name, sep); parts[|parts| - 1] == name
    decreases |dir|
  {
    var s := dir + [sep] + name;
    if dir == [] {
      assert s[1..] == name;
      SplitWhole(name, sep);
    } else {
      assert s[1..] == dir[1..] + [sep] + name;
      SplitAtLast(dir[1..], name, sep);
      SplitHasMore(dir[1..], name, sep);
    }
  }

  lemma {:induction false} SplitWhole(name: string, sep: char)
    requires sep !in name
    ensures Split(name, sep) == [name]
  {
    if name != [] {
      SplitWhole(name[1..], sep);
    }
  }

  lemma {:induction false} SplitHasMore(dir: string, name: string, sep: char)
    ensures |Split(dir + [sep] + name, sep)| >= 2
    decreases |dir|
  {
    var s := dir + [sep] + name;
    if dir != [] {
      assert s[1..] == dir[1..] + [sep] + name;
      SplitHasMore(dir[1..], name, sep);
    }
  }

  /** The directory part, empty or closed by a slash, followed by the
      slash-free file name is the input. */
  lemma PathParts(path: string)
    ensures Directory(path) + FileName(path) == path
    ensures var dir := Directory(path); dir != [] ==> dir[|dir| - 1] == '/'
    ensures '/' !in FileName(path)
  {
    FileNameEnds(path);
    Trimmed(path, FileName(path));
  }

  lemma FileNameEnds(path: string)
    ensures var name := FileName(path);
      && '/' !in name && |name| <= |path| && path[|path| - |name|..] == name
      && (|name| < |path| ==> path[|path| - |name| - 1] == '/')
  {
    LastPartEnds(Split(path, '/'), '/');
  }

  lemma Trimmed(s: string, suffix: string)
    requires |suffix| <= |s| && s[|s| - |suffix|..] == suffix
    ensures TrimSuffix(s, suffix) == s[..|s| - |suffix|] && TrimSuffix(s, suffix) + suffix == s
  {
  }

  /** A path is its directory part, empty or closed by a slash, followed by a
      slash-free file name. */
  ghost predicate IsSplit(path: string, dir: string, name: string) {
    path == dir + name && '/' !in name && (dir == "" || dir[|dir| - 1] == '/')
  }

  /** The kubeconfig path that belongs to a spec path, said of its two parts. */
  ghost predicate Beside(path: string, kubeConfigPath: string) {
    exists dir, name :: IsSplit(path, dir, name) && kubeConfigPath == dir + "/kube_config_" + name
  }

  /** What is computed, part by part: the directory, a slash, and the file name
      behind its prefix. */
  lemma PathIs(dir: string, name: string)
    requires IsSplit(dir + name, dir, name)
    ensures GetKubeConfigPath(dir + name) == dir + "/kube_config_" + name
  {
    FileNameOf(dir, name);
    DirectoryOf(dir, name);
    assert "/" + FILE_PREFIX == "/kube_config_";
    Regroup(dir, "/", FILE_PREFIX, name);
  }

  lemma Regroup(a: string, b: string, c: string, d: string)
    ensures a + b + c + d == a + (b + c) + d
  {
  }

  lemma DirectoryOf(dir: string, name: string)
    requires FileName(dir + name) == name
    ensures Directory(dir + name) == dir
  {
    assert (dir + name)[|dir|..] == name && (dir + name)[..|dir|] == dir;
    Trimmed(dir + name, name);
  }

  lemma FileNameOf(dir: string, name: string)
    requires IsSplit(dir + name, dir, name)
    ensures FileName(dir + name) == name
  {
    if dir == "" {
      assert dir + name == name;
      SplitWhole(name, '/');
    } else {
      var front := dir[..|dir| - 1];
      assert dir + name == front + ['/'] + name;
      SplitAtLast(front, name, '/');
    }
  }

  /** And for every spec path it is exactly that. */
  lemma ComputesBeside(path: string, k: string)
    ensures Beside(path, k) <==> k == GetKubeConfigPath(path)
  {
    PathParts(path);
    var dir, name := Directory(path), FileName(path);
    assert IsSplit(path, dir, name);
    PathIs(dir, name);
    if Beside(path, k) {
      var d, n :| IsSplit(path, d, n) && k == d + "/kube_config_" + n;
      PathIs(d, n);
    }
  }

  lemma LastSlash(dir: string, name: string)
    requires '/' !in name
    ensures var k := dir + "/" + name; FileName(k) == name && TrimSuffix(k, "/" + name) == dir
  {
    var k, suffix := dir + "/" + name, "/" + name;
    assert k == dir + ['/'] + name;
    SplitAtLast(dir, name, '/');
    assert k == dir + suffix;
    assert k[|k| - |suffix|..] == suffix;
  }

  /** The kubeconfig path gives the spec path back, for every spec path. */
  lemma PathRoundTrip(path: string)
    ensures ClusterConfigPath(GetKubeConfigPath(path)) == path
  {
    PathParts(path);
    var dir, prefix, file := Directory(path), FILE_PREFIX, FileName(path);
    var k := GetKubeConfigPath(path);
    assert '/' !in prefix;
    LastSlash(dir, prefix + file);
    assert dir + "/" + prefix + file == dir + "/" + (prefix + file);
    assert (prefix + file)[|prefix|..] == file;
  }

  /** Distinct spec paths never share a kubeconfig path. */
  lemma PathInjective(p: string, q: string)
    requires GetKubeConfigPath(p) == GetKubeConfigPath(q)
    ensures p == q
  {
    PathRoundTrip(p);
    PathRoundTrip(q);
  }
}
