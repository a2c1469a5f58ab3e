/** File names, paths and remote commands used by the local sink and the remote replicator. */
module LogPaths {
  import opened JsonValues

  /** Local directory used when `ANSIBLE_LOG_DIR` is unset or empty. */
  const DefaultLogDir := "/var/log/ansible_audit"
  /** Fixed directory prefix on every managed host. */
  const RemoteDirPrefix := "/var/log/ansible_audit/"
  /** Shell command that creates the remote directory with owner-only access. */
  const MkdirScript := "mkdir -p /var/log/ansible_audit && chmod 700 /var/log/ansible_audit"

  /** The local log directory chosen at construction from `$ANSIBLE_LOG_DIR`. */
  function LogDir(envValue: Option<string>): (d: string)
    ensures d != ""
    ensures envValue.Some? && envValue.value != "" ==> d == envValue.value
    ensures envValue.None? || envValue.value == "" ==> d == DefaultLogDir
  {
    if envValue.Some? && envValue.value != "" then envValue.value else DefaultLogDir
  }

  predicate IsAbsolute(p: string)
  {
    |p| > 0 && p[0] == '/'
  }

  /** The directory part `os.path.join` puts in front of a relative name. */
  function WithSeparator(dir: string): (s: string)
    ensures |s| > 0 ==> s[|s| - 1] == '/'
    ensures |dir| <= |s| <= |dir| + 1 && s[..|dir|] == dir
  {
    if dir == "" || dir[|dir| - 1] == '/' then dir else dir + "/"
  }

  /** `os.path.join(dir, name)` on POSIX: an absolute name discards the directory. */
  function Join(dir: string, name: string): (p: string)
    ensures |name| <= |p| && p[|p| - |name|..] == name
    ensures IsAbsolute(name) ==> p == name
    ensures !IsAbsolute(name) ==> p == WithSeparator(dir) + name
  {
    if IsAbsolute(name) then name
    else if dir == "" || dir[|dir| - 1] == '/' then dir + name
    else dir + "/" + name
  }

  /** A single path component: no separator, so `os.path.join` puts it directly inside the
      directory and no `.`/`..` segment or repeated separator can make two different
      names denote one file. */
  predicate IsPlainName(s: string)
  {
    '/' !in s
  }

  /** `{host}_{execution_timestamp}.json`. */
  function FileName(host: string, runStamp: string): (name: string)
    ensures |name| == |host| + |runStamp| + 6
    ensures name[..|host|] == host && name[|host|] == '_'
    ensures name[|host| + 1..|host| + 1 + |runStamp|] == runStamp && name[|name| - 5..] == ".json"
  {
    host + "_" + runStamp + ".json"
  }

  /** Where the local sink appends the lines of `host` during the run stamped `runStamp`. */
  function LocalPath(logDir: string, runStamp: string, host: string): (p: string)
    ensures IsAbsolute(host) ==> p == FileName(host, runStamp)
    ensures !IsAbsolute(host) ==> p == WithSeparator(logDir) + FileName(host, runStamp)
  {
    FileNameAbsolute(host, runStamp);
    Join(logDir, FileName(host, runStamp))
  }

  /** Where the replicator copies that file on the host itself. */
  function RemotePath(runStamp: string, host: string): (p: string)
    ensures |RemoteDirPrefix| <= |p| && p[..|RemoteDirPrefix|] == RemoteDirPrefix
    ensures p[|RemoteDirPrefix|..] == FileName(host, runStamp)
  {
    RemoteDirPrefix + FileName(host, runStamp)
  }

  /** The first subprocess: create the remote directory on `host`. */
  function MkdirCommand(host: string): (argv: seq<string>)
    ensures |argv| == 6 && argv[0] == "ansible" && argv[1] == host
    ensures argv[2] == "-m" && argv[3] == "shell" && argv[4] == "-a" && argv[5] == MkdirScript
  {
    ["ansible", host, "-m", "shell", "-a", MkdirScript]
  }

  /** The second subprocess: copy the local file to `dest` on `host` with mode 0600. */
  function CopyCommand(host: string, src: string, dest: string): (argv: seq<string>)
    ensures |argv| == 6 && argv[0] == "ansible" && argv[1] == host
    ensures argv[2] == "-m" && argv[3] == "copy" && argv[4] == "-a"
  {
    ["ansible", host, "-m", "copy", "-a", "src=" + src + " dest=" + dest + " mode=0600"]
  }

  /** The copy's argument names the local file as source and the remote path as
      destination, and asks for mode 0600. */
  lemma CopyArgument(host: string, src: string, dest: string)
    ensures var a := CopyCommand(host, src, dest)[5];
            && |a| == |src| + |dest| + 20
            && a[..4] == "src=" && a[4..4 + |src|] == src
            && a[4 + |src|..10 + |src|] == " dest=" && a[10 + |src|..10 + |src| + |dest|] == dest
            && a[|a| - 10..] == " mode=0600"
  {
  }

  /** The file name starts with the host name, so it is absolute exactly when the host name is. */
  lemma FileNameAbsolute(host: string, runStamp: string)
    ensures IsAbsolute(FileName(host, runStamp)) <==> IsAbsolute(host)
  {
  }

  /** Within one run, distinct hosts get distinct file names. */
  lemma {:induction false} FileNameInjective(h1: string, h2: string, runStamp: string)
    requires FileName(h1, runStamp) == FileName(h2, runStamp)
    ensures h1 == h2
  {
    var tail := "_" + runStamp + ".json";
    assert FileName(h1, runStamp) == h1 + tail;
    assert FileName(h2, runStamp) == h2 + tail;
    assert |h1| == |h2|;
    assert h1 == (h1 + tail)[..|h1|];
    assert h2 == (h2 + tail)[..|h2|];
  }

  /** `os.path.join` with a fixed directory is injective on relative names. */
  lemma JoinInjective(dir: string, n1: string, n2: string)
    requires !IsAbsolute(n1) && !IsAbsolute(n2)
    requires Join(dir, n1) == Join(dir, n2)
    ensures n1 == n2
  {
  }

  /** With a plain host name and a plain run stamp the log file is one name directly
      inside the log directory. */
  lemma FileNameIsOneComponent(logDir: string, runStamp: string, host: string)
    requires IsPlainName(host) && IsPlainName(runStamp)
    ensures IsPlainName(FileName(host, runStamp))
    ensures LocalPath(logDir, runStamp, host) == WithSeparator(logDir) + FileName(host, runStamp)
  {
    var name := FileName(host, runStamp);
    assert name == host + ['_'] + runStamp + ".json";
    assert !IsAbsolute(name) by {
      if |host| > 0 { assert name[0] == host[0] && host[0] in host; }
    }
  }

  /** The local file of a host whose name is not absolute lies under the log directory,
      and its path ends with the per-run file name. */
  lemma LocalPathInLogDir(logDir: string, runStamp: string, host: string)
    ensures var p := LocalPath(logDir, runStamp, host);
            var name := FileName(host, runStamp);
            && |name| <= |p| && p[|p| - |name|..] == name
            && (!IsAbsolute(host) ==> |logDir| <= |p| && p[..|logDir|] == logDir)
  {
    FileNameAbsolute(host, runStamp);
  }

  /** Two hosts with plain names never share a local log file in one run. */
  lemma LocalPathInjective(logDir: string, runStamp: string, h1: string, h2: string)
    requires IsPlainName(h1) && IsPlainName(h2)
    requires LocalPath(logDir, runStamp, h1) == LocalPath(logDir, runStamp, h2)
    ensures h1 == h2
  {
    assert !IsAbsolute(h1) by { if |h1| > 0 { assert h1[0] in h1; } }
    assert !IsAbsolute(h2) by { if |h2| > 0 { assert h2[0] in h2; } }
    FileNameAbsolute(h1, runStamp);
    FileNameAbsolute(h2, runStamp);
    JoinInjective(logDir, FileName(h1, runStamp), FileName(h2, runStamp));
    FileNameInjective(h1, h2, runStamp);
  }

  /** A host name starting with '/' makes `os.path.join` drop the log directory, so such a
      host's file can coincide with another host's file. */
  lemma AbsoluteHostCollides()
    ensures LocalPath(DefaultLogDir, "20240101_000000", DefaultLogDir + "/web01")
         == LocalPath(DefaultLogDir, "20240101_000000", "web01")
  {
  }

  /** The local path ends with the per-run file name, which is also the remote file's name;
      with the default directory the local and remote paths coincide. */
  lemma PathsShareFileName(logDir: string, runStamp: string, host: string)
    ensures var local := LocalPath(logDir, runStamp, host);
            var name := FileName(host, runStamp);
            && |name| <= |local| && local[|local| - |name|..] == name
            && RemotePath(runStamp, host)[|RemoteDirPrefix|..] == name
            && (!IsAbsolute(host) ==> LocalPath(DefaultLogDir, runStamp, host) == RemotePath(runStamp, host))
  {
    FileNameAbsolute(host, runStamp);
  }
}
