// Service names out of binary paths, in the wrapping arithmetic of a 64-bit size_t.
module ServiceNames {
  import opened Types
  import M = Manifests

  const SIZE_MODULUS: nat := 0x1_0000_0000_0000_0000
  const NPOS: nat := SIZE_MODULUS - 1

  // The sum or difference of two size_t values, as size_t.
  function Wrap(x: int): (r: nat)
    requires 0 - SIZE_MODULUS < x < SIZE_MODULUS + SIZE_MODULUS
    ensures r < SIZE_MODULUS && (r == x || r == x + SIZE_MODULUS || r == x - SIZE_MODULUS)
  {
    if x < 0 then x + SIZE_MODULUS
    else if x >= SIZE_MODULUS then x - SIZE_MODULUS
    else x
  }

  predicate Slash(path: string, i: nat) {
    i < |path| && path[i] == '/'
  }

  // The last slash before n, or npos.
  function LastSlash(path: string, n: nat): (r: nat)
    requires n <= |path| < NPOS
    ensures r == NPOS || (r < n && Slash(path, r))
    ensures forall i: nat :: i < n && Slash(path, i) ==> r != NPOS && i <= r
  {
    if n == 0 then NPOS
    else if path[n - 1] == '/' then n - 1
    else LastSlash(path, n - 1)
  }

  // find_last_of('/', pos): the search starts at pos, or at the end if that comes first.
  function FindLastOf(path: string, pos: nat): (r: nat)
    requires |path| < NPOS
    ensures r == NPOS || r < |path|
  {
    LastSlash(path, if pos < |path| then pos + 1 else |path|)
  }

  // substr(start, count); None stands for the out_of_range it throws.
  function Substr(path: string, start: nat, count: nat): Option<string> {
    if start > |path| then None
    else Some(path[start..End(path, start, count)])
  }

  function End(path: string, start: nat, count: nat): (r: nat)
    requires start <= |path|
    ensures start <= r <= |path|
  {
    if count < |path| - start then start + count else |path|
  }

  const PROCESSES := "/processes/"

  // A string never reaches npos characters.
  function ParseServiceName(path: string): Option<string>
    requires |path| < NPOS
  {
    var pos := FindLastOf(path, NPOS);
    match Substr(path, Wrap(pos + 1), NPOS)
    case None => None
    case Some(process) =>
      var prev := Wrap(pos - |PROCESSES|);
      var before: int := FindLastOf(path, prev);
      match Substr(path, Wrap(before + 1), Wrap(prev - before))
      case None => None
      case Some(app) => Some(M.ServiceName(app, process))
  }

  // A start one past a search result is in range, npos wrapping to the front.
  lemma StartInRange(path: string, pos: nat, count: nat)
    requires |path| < NPOS && (pos == NPOS || pos < |path|)
    ensures var start := Wrap(pos + 1);
            && start == (if pos == NPOS then 0 else pos + 1) && start <= |path|
            && Substr(path, start, count).Some?
            && (count >= |path| - start ==> Substr(path, start, count) == Some(path[start..]))
  {
    assert path[Wrap(pos + 1)..|path|] == path[Wrap(pos + 1)..];
  }

  // The text after the last slash: the process part.
  lemma AfterLastSlash(path: string, process: string)
    requires |path| < NPOS && process == path[Wrap(FindLastOf(path, NPOS) + 1)..]
    ensures '/' !in process
    ensures |process| < |path| ==> path[|path| - |process| - 1] == '/'
  {
    var start := Wrap(FindLastOf(path, NPOS) + 1);
    forall i | 0 <= i < |process| ensures process[i] != '/' {
      assert process[i] == path[start + i];
      assert !Slash(path, start + i);
    }
  }

  // The name once both searches are known.
  lemma ParsedParts(path: string, pos: nat, before: nat)
    requires |path| < NPOS && pos == FindLastOf(path, NPOS)
    requires before == FindLastOf(path, Wrap(pos - |PROCESSES|))
    ensures Wrap(before + 1) <= |path| && Wrap(pos + 1) <= |path|
    ensures var count := Wrap(Wrap(pos - |PROCESSES|) as int - before);
            var start := Wrap(before + 1);
            ParseServiceName(path)
              == Some(M.ServiceName(path[start..End(path, start, count)], path[Wrap(pos + 1)..]))
  {
    StartInRange(path, pos, NPOS);
    StartInRange(path, before, Wrap(Wrap(pos - |PROCESSES|) as int - before));
  }

  // No path makes a substring start out of range, and the name ends with exactly the text after
  // the last slash.
  lemma ParsingNeverThrows(path: string)
    requires |path| < NPOS
    ensures exists app, process ::
              && ParseServiceName(path) == Some(app + "_" + process)
              && |process| <= |path| && path[|path| - |process|..] == process && '/' !in process
              && (|process| < |path| ==> path[|path| - |process| - 1] == '/')
  {
    var pos := FindLastOf(path, NPOS);
    var before := FindLastOf(path, Wrap(pos - |PROCESSES|));
    ParsedParts(path, pos, before);
    AfterLastSlash(path, path[Wrap(pos + 1)..]);
  }

  function PathOf(prefix: string, app: string, process: string): string {
    prefix + app + "/processes/" + process
  }

  predicate IsFolder(prefix: string) {
    prefix == "" || prefix[|prefix| - 1] == '/'
  }

  lemma PathCharacters(prefix: string, app: string, process: string, i: nat)
    requires i < |PathOf(prefix, app, process)|
    ensures var path, n, m := PathOf(prefix, app, process), |prefix|, |prefix| + |app|;
            path[i] == if i < n then prefix[i]
                       else if i < m then app[i - n]
                       else if i < m + |PROCESSES| then PROCESSES[i - m]
                       else process[i - m - |PROCESSES|]
  {
  }

  // The last slash of such a path closes "/processes/".
  lemma LastSlashOfPath(prefix: string, app: string, process: string)
    requires '/' !in process && |PathOf(prefix, app, process)| < NPOS
    ensures var path := PathOf(prefix, app, process);
            FindLastOf(path, NPOS) == |prefix| + |app| + |PROCESSES| - 1
  {
    var path := PathOf(prefix, app, process);
    var k := |prefix| + |app| + |PROCESSES| - 1;
    PathCharacters(prefix, app, process, k);
    assert Slash(path, k);
    forall i: nat | k < i < |path| ensures !Slash(path, i) {
      PathCharacters(prefix, app, process, i);
    }
  }

  // The last slash up to the application's last character closes the prefix.
  lemma LastSlashBeforeApp(prefix: string, app: string, process: string)
    requires IsFolder(prefix) && '/' !in app && prefix + app != ""
    requires |PathOf(prefix, app, process)| < NPOS
    ensures var path := PathOf(prefix, app, process);
            FindLastOf(path, |prefix| + |app| - 1) == if prefix == "" then NPOS else |prefix| - 1
  {
    var path := PathOf(prefix, app, process);
    forall i: nat | |prefix| <= i < |prefix| + |app| ensures !Slash(path, i) {
      PathCharacters(prefix, app, process, i);
    }
    if prefix != "" {
      PathCharacters(prefix, app, process, |prefix| - 1);
      assert Slash(path, |prefix| - 1);
    }
  }

  lemma ParsesWithFolderOrApp(prefix: string, app: string, process: string)
    requires IsFolder(prefix) && '/' !in app && '/' !in process && prefix + app != ""
    requires |PathOf(prefix, app, process)| < NPOS
    ensures ParseServiceName(PathOf(prefix, app, process)) == Some(M.ServiceName(app, process))
  {
    var path := PathOf(prefix, app, process);
    var pos := FindLastOf(path, NPOS);
    LastSlashOfPath(prefix, app, process);
    assert path[pos + 1..] == process;
    LastSlashBeforeApp(prefix, app, process);
    ParsedParts(path, pos, FindLastOf(path, Wrap(pos - |PROCESSES|)));
    assert path[|prefix|..|prefix| + |app|] == app;
  }

  // Without either, the second search wraps around and finds the process part again.
  lemma ParsesBareProcess(process: string)
    requires '/' !in process && |PathOf("", "", process)| < NPOS
    ensures ParseServiceName(PathOf("", "", process)) == Some(M.ServiceName(process, process))
  {
    var path := PathOf("", "", process);
    var pos := FindLastOf(path, NPOS);
    LastSlashOfPath("", "", process);
    assert path[pos + 1..] == process;
    ParsedParts(path, pos, FindLastOf(path, Wrap(pos - |PROCESSES|)));
    assert path[pos + 1..|path|] == process;
  }

  // Parsing prefix/App/processes/Proc gives App_Proc. It fails in one family of cases only: no
  // prefix, an empty application name and a process name that is not empty.
  lemma ParsesInstalledPaths(prefix: string, app: string, process: string)
    requires IsFolder(prefix) && '/' !in app && '/' !in process
    requires |PathOf(prefix, app, process)| < NPOS
    ensures ParseServiceName(PathOf(prefix, app, process)) == Some(app + "_" + process)
            <==> !(prefix == "" && app == "" && process != "")
  {
    if prefix + app == "" {
      ParsesBareProcess(process);
      assert |M.ServiceName(process, process)| == 1 + 2 * |process|;
    } else {
      ParsesWithFolderOrApp(prefix, app, process);
    }
  }
}
