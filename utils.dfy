/**
 * The shared helpers of `packages/utils/src/index.ts`: the bounded upward search for a JSON
 * file, workspace discovery, the process list read from two `ps` runs, and the test for a
 * running `rechunk dev-server`. The file system, `find-up`, `realpath` and `ps` are parameters.
 */
module Utils {
  import opened Wrappers
  import opened Text
  import opened Json
  import Paths

  // ---------------------------------------------------------------------------------------
  // getRealPath, findClosestJSON, findWorkspaceDir

  /** `getRealPath`: the resolved path, or the path itself when `realpath` fails (None). */
  function GetRealPath(filePath: string, realpath: string -> Option<string>): (r: string)
    ensures realpath(filePath).None? ==> r == filePath
    ensures realpath(filePath).Some? ==> r == realpath(filePath).value
  {
    match realpath(filePath)
    case Some(p) => p
    case None => filePath
  }

  /** The last level `findClosestJSON` tries before it gives up. */
  const MaxLevel: nat := 10

  /**
   * `findClosestJSON(filename, start, level)`. `load(dir, filename)` stands for resolving
   * `filename` against `dir`, reading it and parsing it, None when any of these throws.
   */
  function FindClosestJson(load: (string, string) -> Option<Json>, filename: string,
                           start: string, level: nat): (r: Json)
    ensures load(start, filename).Some? ==> r == load(start, filename).value
    ensures load(start, filename).None? && level >= MaxLevel ==> r == JObject([])
    decreases MaxLevel - level
  {
    match load(start, filename)
    case Some(json) => json
    case None =>
      if level >= MaxLevel then JObject([])
      else FindClosestJson(load, filename, Paths.Dirname(start), level + 1)
  }

  /** `start` and its first `n - 1` ancestors, nearest first. */
  function Ancestors(start: string, n: nat): (dirs: seq<string>)
    ensures |dirs| == n
    ensures n > 0 ==> dirs[0] == start
    decreases n
  {
    if n == 0 then [] else [start] + Ancestors(Paths.Dirname(start), n - 1)
  }

  /** The file's contents in the first of `dirs` where it loads, or `{}` when it loads in none. */
  function FirstFound(load: (string, string) -> Option<Json>, filename: string, dirs: seq<string>): Json {
    if |dirs| == 0 then JObject([])
    else match load(dirs[0], filename)
      case Some(json) => json
      case None => FirstFound(load, filename, dirs[1..])
  }

  /** `FirstFound` is `{}` when no directory has the file, and otherwise the first one's contents. */
  lemma {:induction false} FirstFoundMeaning(load: (string, string) -> Option<Json>, filename: string,
                                             dirs: seq<string>)
    ensures (forall i :: 0 <= i < |dirs| ==> load(dirs[i], filename).None?)
            ==> FirstFound(load, filename, dirs) == JObject([])
    ensures forall i :: 0 <= i < |dirs| && load(dirs[i], filename).Some?
                        && (forall j :: 0 <= j < i ==> load(dirs[j], filename).None?)
                        ==> FirstFound(load, filename, dirs) == load(dirs[i], filename).value
    decreases |dirs|
  {
    if |dirs| > 0 && load(dirs[0], filename).None? {
      FirstFoundMeaning(load, filename, dirs[1..]);
      assert forall i :: 1 <= i < |dirs| ==> dirs[i] == dirs[1..][i - 1];
    }
  }

  /**
   * The search from level `level` tries exactly the `11 - level` directories from `start`
   * upwards, so from level 0 it makes at most 11 attempts before answering `{}`.
   */
  lemma {:induction false} FindClosestJsonTriesAncestors(load: (string, string) -> Option<Json>,
                                                          filename: string, start: string, level: nat)
    requires level <= MaxLevel
    ensures FindClosestJson(load, filename, start, level)
         == FirstFound(load, filename, Ancestors(start, MaxLevel + 1 - level))
    decreases MaxLevel - level
  {
    var dirs := Ancestors(start, MaxLevel + 1 - level);
    var up := Paths.Dirname(start);
    assert dirs == [start] + Ancestors(up, MaxLevel - level);
    assert dirs[1..] == Ancestors(up, MaxLevel - level);
    if load(start, filename).None? {
      assert FirstFound(load, filename, dirs) == FirstFound(load, filename, dirs[1..]);
      if level < MaxLevel {
        FindClosestJsonTriesAncestors(load, filename, up, level + 1);
      } else {
        assert dirs[1..] == [];
      }
    }
  }

  /** The lockfiles `findWorkspaceDir` looks for. */
  const Lockfiles: seq<string> := ["package-lock.json", "yarn.lock", "pnpm-lock.yaml", "bun.lockb"]

  /**
   * `findWorkspaceDir(cwd)`: `workspaceDir` is `process.env.WORKSPACE_DIR`; `findUp(names, dir)`
   * is `findUp.sync`, the path of the first of `names` found from `dir` upwards.
   */
  function FindWorkspaceDir(cwd: string, workspaceDir: Option<string>,
                            realpath: string -> Option<string>,
                            findUp: (seq<string>, string) -> Option<string>): (r: Option<string>)
    ensures workspaceDir.Some? && workspaceDir.value != "" ==> r == workspaceDir
    ensures r.None? <==> !(workspaceDir.Some? && workspaceDir.value != "")
                         && (findUp(Lockfiles, GetRealPath(cwd, realpath)).None?
                             || findUp(Lockfiles, GetRealPath(cwd, realpath)) == Some(""))
  {
    if workspaceDir.Some? && workspaceDir.value != "" then workspaceDir
    else
      match findUp(Lockfiles, GetRealPath(cwd, realpath))
      case Some(manifest) => if manifest != "" then Some(Paths.Dirname(manifest)) else None
      case None => None
  }

  /** A set `WORKSPACE_DIR` decides alone: the file system is not consulted. */
  lemma WorkspaceEnvIgnoresFilesystem(cwd: string, workspaceDir: string,
                                      realpath: string -> Option<string>, realpath': string -> Option<string>,
                                      findUp: (seq<string>, string) -> Option<string>,
                                      findUp': (seq<string>, string) -> Option<string>)
    requires workspaceDir != ""
    ensures FindWorkspaceDir(cwd, Some(workspaceDir), realpath, findUp)
         == FindWorkspaceDir(cwd, Some(workspaceDir), realpath', findUp')
         == Some(workspaceDir)
  {
  }

  /** Without `WORKSPACE_DIR`, the result is the directory holding the lockfile `find-up` found. */
  lemma FoundLockfileDirectory(cwd: string, workspaceDir: Option<string>,
                               realpath: string -> Option<string>,
                               findUp: (seq<string>, string) -> Option<string>,
                               dir: string, lockfile: string)
    requires workspaceDir.None? || workspaceDir == Some("")
    requires lockfile in Lockfiles && dir != "" && dir != "/"
    requires findUp(Lockfiles, GetRealPath(cwd, realpath)) == Some(Paths.JoinPath(dir, lockfile))
    ensures FindWorkspaceDir(cwd, workspaceDir, realpath, findUp) == Some(dir)
  {
    Paths.DirnameOfJoin(dir, lockfile);
  }

  // ---------------------------------------------------------------------------------------
  // nonWindowsCall

  const ParseFailed: string := "ps output parsing failed"
  /** What `basename(undefined)` throws when a line has no command name. */
  const PathNotString: string := "The \"path\" argument must be of type string. Received undefined"
  const PsColumns: string := "pid,ppid,uid,%cpu,%mem,comm"
  const PsArgsColumns: string := "pid,args"

  /** The `ps` flags: every user's processes unless `all` is explicitly false. */
  function Flags(all: Option<bool>): (flags: string)
    ensures flags == "wwxo" <==> all == Some(false)
    ensures flags == "awwxo" <==> all != Some(false)
  {
    if all == Some(false) then "wwxo" else "awwxo"
  }

  /** The lines of a `ps` output after `trim`, `split('\n')` and `shift()` of the header. */
  function DataLines(output: string): (lines: seq<string>)
    ensures |lines| == |Split(Trim(output), '\n')| - 1
  {
    Split(Trim(output), '\n')[1..]
  }

  lemma TrimUntouched(s: string)
    requires |s| > 0 && !IsSpace(s[0]) && !IsSpace(s[|s| - 1])
    ensures Trim(s) == s
  {
  }

  /** The header is dropped and every other line is kept, in order. */
  lemma {:induction false} HeaderDropped(header: string, rows: seq<string>)
    requires header != "" && !IsSpace(header[0]) && '\n' !in header
    requires forall i :: 0 <= i < |rows| ==> '\n' !in rows[i]
    requires |rows| > 0 ==> rows[|rows| - 1] != "" && !IsSpace(rows[|rows| - 1][|rows[|rows| - 1]| - 1])
    requires |rows| == 0 ==> !IsSpace(header[|header| - 1])
    ensures DataLines(Join([header] + rows, "\n")) == rows
  {
    var all := [header] + rows;
    var s := Join(all, "\n");
    LastOfJoin(all, "\n");
    FirstOfJoin(all, "\n");
    TrimUntouched(s);
    SplitUnique(all, '\n');
    assert all[1..] == rows;
  }

  lemma {:induction false} FirstOfJoin(parts: seq<string>, sep: string)
    requires |parts| > 0 && parts[0] != ""
    ensures |Join(parts, sep)| > 0 && Join(parts, sep)[0] == parts[0][0]
  {
  }

  lemma {:induction false} LastOfJoin(parts: seq<string>, sep: string)
    requires |parts| > 0 && parts[|parts| - 1] != ""
    ensures var s := Join(parts, sep); |s| > 0 && s[|s| - 1] == parts[|parts| - 1][|parts[|parts| - 1]| - 1]
    decreases |parts|
  {
    if |parts| > 1 {
      LastOfJoin(parts[1..], sep);
    }
  }

  /** `const [pid, ...cmds] = line.trim().split(' ')`: the pid. */
  function PidOf(line: string): string {
    Split(Trim(line), ' ')[0]
  }

  /** `cmds.join(' ')`. */
  function CmdOf(line: string): string {
    Join(Split(Trim(line), ' ')[1..], " ")
  }

  /** The pid is the trimmed line up to its first space and the command the rest after it. */
  lemma CmdIsTextAfterFirstSpace(line: string, k: nat)
    requires var t := Trim(line); k < |t| && t[k] == ' ' && ' ' !in t[..k]
    ensures PidOf(line) == Trim(line)[..k] && CmdOf(line) == Trim(line)[k + 1..]
  {
    JoinTailOfSplit(Trim(line), ' ', k);
  }

  /** A trimmed line without a space is all pid, with an empty command. */
  lemma CmdOfSpacelessLine(line: string)
    requires ' ' !in Trim(line)
    ensures PidOf(line) == Trim(line) && CmdOf(line) == ""
  {
    SplitHasSecondPart(Trim(line), ' ');
  }

  /** The `[pid, cmds.join(' ')]` pair of every line, in order. */
  function Entries(lines: seq<string>): (e: seq<(string, string)>)
    ensures |e| == |lines|
    ensures forall i :: 0 <= i < |lines| ==> e[i] == (PidOf(lines[i]), CmdOf(lines[i]))
  {
    seq(|lines|, i requires 0 <= i < |lines| => (PidOf(lines[i]), CmdOf(lines[i])))
  }

  /** The record after assigning each entry's key in order. */
  function TableOf(entries: seq<(string, string)>): map<string, string> {
    if |entries| == 0 then map[]
    else TableOf(entries[..|entries| - 1])[entries[|entries| - 1].0 := entries[|entries| - 1].1]
  }

  /** `processCmds` after the loop has seen `lines`. */
  function CmdTable(lines: seq<string>): map<string, string> {
    TableOf(Entries(lines))
  }

  /** The record holds exactly the keys assigned, each with the value of its last assignment. */
  lemma {:induction false} TableOfLookup(entries: seq<(string, string)>, key: string)
    ensures key in TableOf(entries) <==> exists i :: 0 <= i < |entries| && entries[i].0 == key
    ensures forall i :: 0 <= i < |entries| && entries[i].0 == key
                        && (forall j :: i < j < |entries| ==> entries[j].0 != key)
                        ==> key in TableOf(entries) && TableOf(entries)[key] == entries[i].1
    decreases |entries|
  {
    if |entries| > 0 {
      var n := |entries| - 1;
      var init := entries[..n];
      TableOfLookup(init, key);
      assert forall i :: 0 <= i < n ==> init[i] == entries[i];
    }
  }

  /** The table holds exactly the pids of the lines, each with the command of its last line. */
  lemma CmdTableLookup(lines: seq<string>, pid: string)
    ensures pid in CmdTable(lines) <==> exists i :: 0 <= i < |lines| && PidOf(lines[i]) == pid
    ensures forall i :: 0 <= i < |lines| && PidOf(lines[i]) == pid
                        && (forall j :: i < j < |lines| ==> PidOf(lines[j]) != pid)
                        ==> pid in CmdTable(lines) && CmdTable(lines)[pid] == CmdOf(lines[i])
  {
    var entries := Entries(lines);
    TableOfLookup(entries, pid);
    forall i | 0 <= i < |lines| && PidOf(lines[i]) == pid
                          && (forall j :: i < j < |lines| ==> PidOf(lines[j]) != pid)
      ensures pid in CmdTable(lines) && CmdTable(lines)[pid] == CmdOf(lines[i])
    {
      assert entries[i].0 == pid;
      assert forall j :: i < j < |entries| ==> entries[j].0 != pid by {
        forall j | i < j < |entries| ensures entries[j].0 != pid { assert entries[j].0 == PidOf(lines[j]); }
      }
    }
    if pid in CmdTable(lines) {
      var i :| 0 <= i < |entries| && entries[i].0 == pid;
      assert PidOf(lines[i]) == pid;
    }
  }

  /** The `for` loop filling `processCmds`. */
  method BuildCmdTable(lines: seq<string>) returns (table: map<string, string>)
    ensures table == CmdTable(lines)
  {
    ghost var entries := Entries(lines);
    table := map[];
    var i := 0;
    while i < |lines|
      invariant i <= |lines|
      invariant table == TableOf(entries[..i])
    {
      assert entries[..i + 1][..i] == entries[..i];
      var parts := Split(Trim(lines[i]), ' ');
      table := table[parts[0] := Join(parts[1..], " ")];
      i := i + 1;
    }
    assert entries[..i] == entries;
  }

  predicate IsBlank(c: char) {
    c == ' ' || c == '\t'
  }

  predicate IsUidChar(c: char) {
    c == '-' || IsDigit(c)
  }

  predicate NotLineTerminator(c: char) {
    !IsLineTerminator(c)
  }

  /** The named groups of `PS_OUTPUT_REGEX`; `comm` is None when the optional group is unmatched. */
  datatype PsFields = PsFields(pid: string, ppid: string, uid: string, cpu: string, memory: string,
                               comm: Option<string>)

  predicate AllOf(s: string, inClass: char -> bool) {
    forall j :: 0 <= j < |s| ==> inClass(s[j])
  }

  predicate IsDecimal(s: string) {
    exists k :: 0 < k < |s| - 1 && s[k] == '.' && AllOf(s[..k], IsDigit) && AllOf(s[k + 1..], IsDigit)
  }

  /** What the groups of a match can hold. */
  predicate WellFormed(f: PsFields) {
    && f.pid != "" && AllOf(f.pid, IsDigit)
    && f.ppid != "" && AllOf(f.ppid, IsDigit)
    && f.uid != "" && AllOf(f.uid, IsUidChar)
    && IsDecimal(f.cpu) && IsDecimal(f.memory)
    && (f.comm.Some? ==> f.comm.value != "" && !IsBlank(f.comm.value[0]) && AllOf(f.comm.value, NotLineTerminator))
  }

  /** A non-empty run of a class at the start of `s` and the blanks after it: the run and what follows the blanks. */
  function Field(s: string, inClass: char -> bool): (r: Option<(string, string)>)
    ensures r.Some? ==> r.value.0 != "" && AllOf(r.value.0, inClass)
                        && |r.value.1| < |s| && (r.value.1 == "" || !IsBlank(r.value.1[0]))
  {
    var e := RunEnd(s, 0, inClass);
    var b := RunEnd(s, e, IsBlank);
    if e == 0 || b == e then None else Some((s[..e], s[b..]))
  }

  /** `\d+\.\d+` at the start of `s` and the blanks after it. */
  function DecimalField(s: string): (r: Option<(string, string)>)
    ensures r.Some? ==> IsDecimal(r.value.0) && |r.value.1| < |s| && (r.value.1 == "" || !IsBlank(r.value.1[0]))
  {
    var d := RunEnd(s, 0, IsDigit);
    if d == 0 || d == |s| || s[d] != '.' then None
    else
      var e := RunEnd(s, d + 1, IsDigit);
      var b := RunEnd(s, e, IsBlank);
      if e == d + 1 || b == e then None
      else
        var x := s[..e];
        assert x[..d] == s[..d] && x[d + 1..] == s[d + 1..e] && x[d] == '.';
        assert AllOf(x[..d], IsDigit) && AllOf(x[d + 1..], IsDigit);
        assert IsDecimal(x) by { assert 0 < d < |x| - 1; }
        Some((x, s[b..]))
  }

  /**
   * `PS_OUTPUT_REGEX.exec(line)`. Every quantifier of the pattern stops where the next part must
   * begin with a character it cannot take, so the greedy scan without backtracking finds the
   * match; an empty `(.*)` counts as the group not taking part, as in ECMAScript.
   */
  function MatchPs(line: string): Option<PsFields> {
    var rest := line[RunEnd(line, 0, IsBlank)..];
    match Field(rest, IsDigit)
    case None => None
    case Some((pid, rest)) =>
      match Field(rest, IsDigit)
      case None => None
      case Some((ppid, rest)) =>
        match Field(rest, IsUidChar)
        case None => None
        case Some((uid, rest)) =>
          match DecimalField(rest)
          case None => None
          case Some((cpu, rest)) =>
            match DecimalField(rest)
            case None => None
            case Some((memory, rest)) =>
              Some(PsFields(pid, ppid, uid, cpu, memory, Comm(rest)))
  }

  /** The optional group `(?<comm>.*)?`: the text up to the first line terminator, if any. */
  function Comm(rest: string): (comm: Option<string>)
    requires rest == "" || !IsBlank(rest[0])
    ensures comm.Some? ==> comm.value != "" && !IsBlank(comm.value[0]) && AllOf(comm.value, NotLineTerminator)
  {
    var end := RunEnd(rest, 0, NotLineTerminator);
    if end > 0 then Some(rest[..end]) else None
  }

  /** Every group of a match holds what its part of the pattern allows. */
  lemma MatchPsWellFormed(line: string)
    requires MatchPs(line).Some?
    ensures WellFormed(MatchPs(line).value)
  {
  }

  /** A line laid out as `ps` prints its columns, one space apart. */
  function PsLine(lead: string, f: PsFields): string
    requires f.comm.Some?
  {
    lead + (f.pid + " " + (f.ppid + " " + (f.uid + " " + (f.cpu + " " + (f.memory + " " + f.comm.value)))))
  }

  /** A run of a class followed by one space and a non-blank is read as one field. */
  lemma FieldOf(x: string, rest: string, inClass: char -> bool)
    requires x != "" && AllOf(x, inClass) && !inClass(' ')
    requires rest != "" && !IsBlank(rest[0])
    ensures Field(x + " " + rest, inClass) == Some((x, rest))
  {
    var s := x + " " + rest;
    forall j | 0 <= j < |x| ensures inClass(s[j]) {
      assert s[j] == x[j];
    }
    RunEndAt(s, 0, |x|, inClass);
    RunEndAt(s, |x|, |x| + 1, IsBlank);
    assert s[..|x|] == x && s[|x| + 1..] == rest;
  }

  lemma DecimalFieldOf(x: string, rest: string)
    requires IsDecimal(x)
    requires rest != "" && !IsBlank(rest[0])
    ensures DecimalField(x + " " + rest) == Some((x, rest))
  {
    var s := x + " " + rest;
    var k :| 0 < k < |x| - 1 && x[k] == '.' && AllOf(x[..k], IsDigit) && AllOf(x[k + 1..], IsDigit);
    forall j | 0 <= j < k ensures IsDigit(s[j]) {
      assert s[j] == x[..k][j];
    }
    assert s[k] == x[k];
    RunEndAt(s, 0, k, IsDigit);
    forall j | k + 1 <= j < |x| ensures IsDigit(s[j]) {
      assert s[j] == x[k + 1..][j - k - 1];
    }
    RunEndAt(s, k + 1, |x|, IsDigit);
    RunEndAt(s, |x|, |x| + 1, IsBlank);
    assert s[..|x|] == x && s[|x| + 1..] == rest;
  }

  lemma DecimalStartsWithDigit(x: string)
    requires IsDecimal(x)
    ensures x != "" && IsDigit(x[0])
  {
    var k :| 0 < k < |x| - 1 && x[k] == '.' && AllOf(x[..k], IsDigit) && AllOf(x[k + 1..], IsDigit);
    assert x[..k][0] == x[0];
  }

  /** Leading blanks are skipped up to the first column. */
  lemma SkipLead(lead: string, t: string)
    requires AllOf(lead, IsBlank) && t != "" && !IsBlank(t[0])
    ensures var s := lead + t; RunEnd(s, 0, IsBlank) == |lead| && s[|lead|..] == t
  {
    var s := lead + t;
    forall j | 0 <= j < |lead| ensures IsBlank(s[j]) { assert s[j] == lead[j]; }
    assert s[|lead|] == t[0];
    RunEndAt(s, 0, |lead|, IsBlank);
  }

  /** The command name runs to the end of a line without line terminators. */
  lemma CommToEnd(comm: string)
    requires comm != "" && !IsBlank(comm[0]) && AllOf(comm, NotLineTerminator)
    ensures Comm(comm) == Some(comm)
  {
    RunEndAt(comm, 0, |comm|, NotLineTerminator);
    assert comm[..|comm|] == comm;
  }

  /** Any line in the column layout of `ps` matches, and the groups are its columns. */
  lemma {:induction false} PsLineMatches(lead: string, f: PsFields)
    requires WellFormed(f) && f.comm.Some? && AllOf(lead, IsBlank)
    ensures MatchPs(PsLine(lead, f)) == Some(f)
  {
    var comm := f.comm.value;
    var t5 := f.memory + " " + comm;
    var t4 := f.cpu + " " + t5;
    var t3 := f.uid + " " + t4;
    var t2 := f.ppid + " " + t3;
    var t1 := f.pid + " " + t2;
    DecimalStartsWithDigit(f.cpu);
    DecimalStartsWithDigit(f.memory);
    assert t1[0] == f.pid[0] && t2[0] == f.ppid[0] && t3[0] == f.uid[0] && t4[0] == f.cpu[0] && t5[0] == f.memory[0];
    SkipLead(lead, t1);
    FieldOf(f.pid, t2, IsDigit);
    FieldOf(f.ppid, t3, IsDigit);
    FieldOf(f.uid, t4, IsUidChar);
    DecimalFieldOf(f.cpu, t5);
    DecimalFieldOf(f.memory, comm);
    CommToEnd(comm);
  }

  /** A line that does not start with blanks and a digit does not match. */
  lemma NoLeadingPidNoMatch(line: string)
    requires var a := RunEnd(line, 0, IsBlank); a == |line| || !IsDigit(line[a])
    ensures MatchPs(line).None?
  {
  }

  /** `parseInt(digits, 10)` for a run of decimal digits. */
  function DecimalValue(digits: string): int {
    if |digits| == 0 then 0
    else DecimalValue(digits[..|digits| - 1]) * 10 + (digits[|digits| - 1] as int - '0' as int)
  }

  /** The digits of `n` in base 10, most significant first. */
  function DecimalDigits(n: nat): (s: string)
    ensures s != "" && AllOf(s, IsDigit)
  {
    if n < 10 then [(n + '0' as int) as char] else DecimalDigits(n / 10) + [(n % 10 + '0' as int) as char]
  }

  /** Reading back the digits of a number gives the number. */
  lemma {:induction false} DecimalValueOfDigits(n: nat)
    ensures DecimalValue(DecimalDigits(n)) == n
  {
    if n >= 10 {
      var s := DecimalDigits(n);
      assert s[..|s| - 1] == DecimalDigits(n / 10);
      DecimalValueOfDigits(n / 10);
    }
  }

  /**
   * `parseInt(s, 10)` for the text `[-\d]+` matched: an optional minus sign, then the longest run
   * of digits; None stands for `NaN` when no digit follows the sign.
   */
  function ParseIntPrefix(s: string): (r: Option<int>)
    ensures r.None? <==> (if |s| > 0 && s[0] == '-' then s[1..] else s) == ""
                         || !IsDigit((if |s| > 0 && s[0] == '-' then s[1..] else s)[0])
  {
    var negative := |s| > 0 && s[0] == '-';
    var rest := if negative then s[1..] else s;
    var d := RunEnd(rest, 0, IsDigit);
    if d == 0 then None
    else
      assert AllOf(rest[..d], IsDigit);
      var n: int := DecimalValue(rest[..d]);
      Some(if negative then -n else n)
  }

  /** A plain run of digits is read as its decimal value, and with a minus sign as its negation. */
  lemma ParseIntOfDigits(digits: string)
    requires digits != "" && AllOf(digits, IsDigit)
    ensures ParseIntPrefix(digits) == Some(DecimalValue(digits))
    ensures ParseIntPrefix("-" + digits) == Some(0 - DecimalValue(digits))
  {
    RunEndAt(digits, 0, |digits|, IsDigit);
    assert digits[..|digits|] == digits;
    assert ("-" + digits)[1..] == digits;
  }

  /** One entry of the list; `cpu` and `memory` keep their text, since `parseFloat` is not modelled. */
  datatype ProcessInfo = ProcessInfo(pid: int, ppid: int, uid: Option<int>, cpu: string, memory: string,
                                     name: string, cmd: Option<string>)

  /** The callback of `psLines.map`: the entry for one line, or what it throws. */
  function ToProcess(line: string, cmds: map<string, string>): (r: Result<ProcessInfo>)
    ensures MatchPs(line).None? ==> r == Err(ParseFailed)
    ensures MatchPs(line).Some? && MatchPs(line).value.comm.None? ==> r == Err(PathNotString)
    ensures r.Ok? ==> var f := MatchPs(line).value;
                      r.value.pid == DecimalValue(f.pid) && r.value.ppid == DecimalValue(f.ppid)
                      && r.value.name == Paths.Basename(f.comm.value)
                      && (r.value.cmd.Some? <==> f.pid in cmds)
                      && (f.pid in cmds ==> r.value.cmd == Some(cmds[f.pid]))
  {
    match MatchPs(line)
    case None => Err(ParseFailed)
    case Some(f) =>
      if f.comm.None? then Err(PathNotString)
      else Ok(ProcessInfo(DecimalValue(f.pid), DecimalValue(f.ppid), ParseIntPrefix(f.uid), f.cpu, f.memory,
                          Paths.Basename(f.comm.value), if f.pid in cmds then Some(cmds[f.pid]) else None))
  }

  /** The results of a `map` whose callback may throw: all values in order, or the first error. */
  function Collect<T>(results: seq<Result<T>>): (r: Result<seq<T>>)
    ensures r.Ok? <==> forall i :: 0 <= i < |results| ==> results[i].Ok?
    ensures r.Ok? ==> |r.value| == |results| && forall i :: 0 <= i < |results| ==> results[i] == Ok(r.value[i])
    ensures r.Err? ==> exists i :: 0 <= i < |results| && results[i] == Err(r.error)
                                   && forall j :: 0 <= j < i ==> results[j].Ok?
  {
    if |results| == 0 then Ok([])
    else match results[0]
      case Err(e) => Err(e)
      case Ok(p) =>
        match Collect(results[1..])
        case Err(e) =>
          var i :| 0 <= i < |results| - 1 && results[1..][i] == Err(e)
                   && forall j :: 0 <= j < i ==> results[1..][j].Ok?;
          assert results[i + 1] == Err(e);
          Err(e)
        case Ok(ps) =>
          assert forall i :: 1 <= i < |results| ==> results[i] == results[1..][i - 1];
          Ok([p] + ps)
  }

  /** `psLines.map(...)`: every line's entry in order, or the error of the first line that throws. */
  function ToProcesses(lines: seq<string>, cmds: map<string, string>): Result<seq<ProcessInfo>> {
    MapResults(lines, line => ToProcess(line, cmds))
  }

  /** `xs.map(f)` where `f` may throw. */
  function MapResults<A, T>(xs: seq<A>, f: A -> Result<T>): Result<seq<T>> {
    Collect(seq(|xs|, k requires 0 <= k < |xs| => f(xs[k])))
  }

  /** The first element the callback throws on decides the error. */
  lemma MapResultsFirstError<A, T>(xs: seq<A>, f: A -> Result<T>, i: nat)
    requires i < |xs| && f(xs[i]).Err?
    requires forall j :: 0 <= j < i ==> f(xs[j]).Ok?
    ensures MapResults(xs, f) == Err(f(xs[i]).error)
  {
    var results := seq(|xs|, k requires 0 <= k < |xs| => f(xs[k]));
    assert results[i] == f(xs[i]);
    assert forall j :: 0 <= j < i ==> results[j] == f(xs[j]);
  }

  /** When the callback throws on nothing, the result has its value for every element, in order. */
  lemma MapResultsAllOk<A, T>(xs: seq<A>, f: A -> Result<T>)
    requires forall i :: 0 <= i < |xs| ==> f(xs[i]).Ok?
    ensures MapResults(xs, f).Ok? && |MapResults(xs, f).value| == |xs|
    ensures forall i :: 0 <= i < |xs| ==> f(xs[i]) == Ok(MapResults(xs, f).value[i])
  {
    var results := seq(|xs|, k requires 0 <= k < |xs| => f(xs[k]));
    assert forall i :: 0 <= i < |xs| ==> results[i] == f(xs[i]);
  }

  /** A line that fails the pattern, after lines that all parse, makes the whole call throw. */
  lemma FirstBadLineThrows(lines: seq<string>, cmds: map<string, string>, i: nat)
    requires i < |lines| && MatchPs(lines[i]).None?
    requires forall j :: 0 <= j < i ==> ToProcess(lines[j], cmds).Ok?
    ensures ToProcesses(lines, cmds) == Err(ParseFailed)
  {
    MapResultsFirstError(lines, line => ToProcess(line, cmds), i);
  }

  /** When no line throws, the list has one entry per line, in order. */
  lemma EveryLineListed(lines: seq<string>, cmds: map<string, string>)
    requires forall i :: 0 <= i < |lines| ==> ToProcess(lines[i], cmds).Ok?
    ensures ToProcesses(lines, cmds).Ok?
    ensures |ToProcesses(lines, cmds).value| == |lines|
    ensures forall i :: 0 <= i < |lines| ==> ToProcess(lines[i], cmds) == Ok(ToProcesses(lines, cmds).value[i])
  {
    MapResultsAllOk(lines, line => ToProcess(line, cmds));
  }

  /**
   * The command line of a listed process is the text after the pid on the last `pid,args` line
   * with the same pid; a process no such line names has no command line.
   */
  lemma ProcessCmdFromArgs(line: string, argLines: seq<string>, i: nat)
    requires ToProcess(line, CmdTable(argLines)).Ok?
    requires i < |argLines| && PidOf(argLines[i]) == MatchPs(line).value.pid
    requires forall j :: i < j < |argLines| ==> PidOf(argLines[j]) != MatchPs(line).value.pid
    ensures ToProcess(line, CmdTable(argLines)).value.cmd == Some(CmdOf(argLines[i]))
  {
    var pid := MatchPs(line).value.pid;
    CmdTableLookup(argLines, pid);
    assert pid in CmdTable(argLines) && CmdTable(argLines)[pid] == CmdOf(argLines[i]);
  }

  lemma ProcessWithoutArgsLine(line: string, argLines: seq<string>)
    requires ToProcess(line, CmdTable(argLines)).Ok?
    requires forall j :: 0 <= j < |argLines| ==> PidOf(argLines[j]) != MatchPs(line).value.pid
    ensures ToProcess(line, CmdTable(argLines)).value.cmd == None
  {
    CmdTableLookup(argLines, MatchPs(line).value.pid);
  }

  /** What `nonWindowsCall` returns, in terms of what `ps` printed for each column list. */
  function ListProcesses(all: Option<bool>, ps: seq<string> -> string): Result<seq<ProcessInfo>> {
    ToProcesses(DataLines(ps([Flags(all), PsColumns])), CmdTable(DataLines(ps([Flags(all), PsArgsColumns]))))
  }

  /** `nonWindowsCall(options)`; `ps(args)` is the output of `execFileSync('ps', args)`. */
  method NonWindowsCall(all: Option<bool>, ps: seq<string> -> string) returns (r: Result<seq<ProcessInfo>>)
    ensures r == ListProcesses(all, ps)
  {
    var flags := Flags(all);
    var psOutput := ps([flags, PsColumns]);
    var psArgsOutput := ps([flags, PsArgsColumns]);
    var psLines := DataLines(psOutput);
    var psArgsLines := DataLines(psArgsOutput);
    var processCmds := BuildCmdTable(psArgsLines);
    r := ToProcesses(psLines, processCmds);
  }

  // ---------------------------------------------------------------------------------------
  // isRechunkDevServerRunning

  const DevServerCmd: string := "rechunk dev-server"

  /** The template `node ${workspaceDir}`: an undefined directory prints as "undefined". */
  function NodeInWorkspace(workspaceDir: Option<string>): string {
    "node " + workspaceDir.GetOr("undefined")
  }

  /** The test `processes.some` applies to each entry. */
  predicate IsDevServer(p: ProcessInfo, workspaceDir: Option<string>) {
    && p.cmd.Some?
    && Contains(p.cmd.value, DevServerCmd)
    && (StartsWith(p.cmd.value, "node ./node_modules") || StartsWith(p.cmd.value, NodeInWorkspace(workspaceDir)))
  }

  /** `processes.some(...)`. */
  function AnyDevServer(processes: seq<ProcessInfo>, workspaceDir: Option<string>): (b: bool)
    ensures b <==> exists i :: 0 <= i < |processes| && IsDevServer(processes[i], workspaceDir)
  {
    if |processes| == 0 then false
    else if IsDevServer(processes[0], workspaceDir) then true
    else
      assert forall i :: 1 <= i < |processes| ==> processes[i] == processes[1..][i - 1];
      AnyDevServer(processes[1..], workspaceDir)
  }

  /**
   * `isRechunkDevServerRunning()`: the process list of `ps` with every user's processes, checked
   * against the workspace found from `cwd`; an error of `nonWindowsCall` propagates.
   */
  method IsRechunkDevServerRunning(ps: seq<string> -> string, cwd: string, workspaceEnv: Option<string>,
                                   realpath: string -> Option<string>,
                                   findUp: (seq<string>, string) -> Option<string>)
    returns (r: Result<bool>)
    ensures ListProcesses(None, ps).Err? ==> r == Err(ListProcesses(None, ps).error)
    ensures ListProcesses(None, ps).Ok? ==>
              r == Ok(AnyDevServer(ListProcesses(None, ps).value, FindWorkspaceDir(cwd, workspaceEnv, realpath, findUp)))
  {
    var processes := NonWindowsCall(None, ps);
    if processes.Err? {
      return Err(processes.error);
    }
    var workspaceDir := FindWorkspaceDir(cwd, workspaceEnv, realpath, findUp);
    r := Ok(AnyDevServer(processes.value, workspaceDir));
  }

  /** A server started from the installed package counts, wherever the workspace is. */
  lemma NodeModulesServerCounts(p: ProcessInfo, workspaceDir: Option<string>, path: string, args: string)
    requires p.cmd == Some("node ./node_modules" + path + DevServerCmd + args)
    ensures IsDevServer(p, workspaceDir)
  {
    var cmd := p.cmd.value;
    assert OccursAt(cmd, DevServerCmd, |"node ./node_modules" + path|);
    assert cmd[..|"node ./node_modules"|] == "node ./node_modules";
  }

  /** A server started from the workspace counts; without a workspace only "node undefined…" would. */
  lemma WorkspaceServerCounts(p: ProcessInfo, workspaceDir: Option<string>, path: string, args: string)
    requires p.cmd == Some(NodeInWorkspace(workspaceDir) + path + DevServerCmd + args)
    ensures IsDevServer(p, workspaceDir)
  {
    var cmd := p.cmd.value;
    assert OccursAt(cmd, DevServerCmd, |NodeInWorkspace(workspaceDir) + path|);
    assert cmd[..|NodeInWorkspace(workspaceDir)|] == NodeInWorkspace(workspaceDir);
  }

  /** A process whose command line does not mention the dev server never counts. */
  lemma OtherCommandsDoNotCount(p: ProcessInfo, workspaceDir: Option<string>)
    requires p.cmd.None? || !Contains(p.cmd.value, DevServerCmd)
    ensures !IsDevServer(p, workspaceDir)
  {
  }
}
