/** Resolution of the `terraform` binary and the restricted environment every
    invocation of it runs in (internal/terraform/state_pull.go, lines 15-41).
    The search-path lookup and the `stat` call are external: their outcomes
    are inputs. */
module SecureInvoker {
  import opened Wrappers

  newtype byte = x: int | 0 <= x < 256

  /** Go's `os.FileMode`: a 32-bit word whose low nine bits are the
      permission bits and whose high bits give the file type. */
  type FileMode = bv32

  /** `os.ModePerm`, octal 0777. */
  const PermissionBits: FileMode := 0x1FF
  /** Octal 0020: writable by the owning group. */
  const GroupWrite: FileMode := 0x10
  /** Octal 0002: writable by every other user. */
  const OtherWrite: FileMode := 0x02
  /** Octal 0022, the mask the resolver tests against. */
  const GroupOrOtherWrite: FileMode := 0x12

  /** `FileMode.Perm()`: the permission bits alone. */
  function Perm(mode: FileMode): FileMode
  {
    mode & PermissionBits
  }

  /** The resolver's rejection test: `mode.Perm() & 0022 != 0`. */
  function IsInsecureMode(mode: FileMode): (insecure: bool)
    ensures insecure <==> (mode & GroupWrite != 0 || mode & OtherWrite != 0)
  {
    Perm(mode) & GroupOrOtherWrite != 0
  }

  /** A mode is rejected exactly when the group-write or the other-write bit
      is set; no other bit, and in particular no file-type bit, matters. */
  lemma InsecureModeMeansWritableByOthers(mode: FileMode)
    ensures IsInsecureMode(mode) <==> (mode & GroupWrite != 0 || mode & OtherWrite != 0)
    ensures IsInsecureMode(mode) == IsInsecureMode(mode & PermissionBits)
  {
  }

  /** 0775 (group-writable) and 0757 (other-writable) are rejected; 0755 and
      0555 are accepted, also for a file carrying a type bit. */
  lemma ModeExamples()
    ensures IsInsecureMode(0x1FD)       // 0775
    ensures IsInsecureMode(0x1EF)       // 0757
    ensures !IsInsecureMode(0x1ED)      // 0755
    ensures !IsInsecureMode(0x16D)      // 0555
    ensures !IsInsecureMode(0x8000_01ED) // a directory bit with 0755
  {
  }

  /** Outcome of `os.Stat` on the resolved path. */
  datatype StatResult = StatOk(mode: FileMode) | StatErr(reason: string)

  /** The three ways resolution fails. */
  datatype ResolveError =
    | NotInPath
    | StatFailed(reason: string)
    | WritableBinary
  {
    /** The error text `resolveTerraformBinary` returns. */
    function Message(): string
    {
      match this
      case NotInPath => "terraform binary not found in PATH"
      case StatFailed(reason) => "unable to stat terraform binary: " + reason
      case WritableBinary => "terraform binary is writable; insecure PATH configuration"
    }
  }

  /** What resolution consults: the outcome of the search-path lookup (the
      absolute path found, if any) and `os.Stat` as a function of the path. */
  datatype Toolchain = Toolchain(lookup: Option<string>, stat: string -> StatResult)

  /** `resolveTerraformBinary`: the path found on the search path, provided it
      can be stat'ed and is not writable by group or others. */
  function ResolveTerraformBinary(tool: Toolchain): (r: Result<string, ResolveError>)
    ensures r.Success? <==>
      tool.lookup.Some? && tool.stat(tool.lookup.value).StatOk?
      && !IsInsecureMode(tool.stat(tool.lookup.value).mode)
    ensures r.Success? ==> r.value == tool.lookup.value
    ensures tool.lookup.None? ==> r == Failure(NotInPath)
    ensures tool.lookup.Some? && tool.stat(tool.lookup.value).StatErr? ==>
      r == Failure(StatFailed(tool.stat(tool.lookup.value).reason))
    ensures (tool.lookup.Some? && tool.stat(tool.lookup.value).StatOk?
             && IsInsecureMode(tool.stat(tool.lookup.value).mode)) ==> r == Failure(WritableBinary)
  {
    match tool.lookup
    case None => Failure(NotInPath)
    case Some(path) =>
      match tool.stat(path)
      case StatErr(reason) => Failure(StatFailed(reason))
      case StatOk(mode) =>
        if IsInsecureMode(mode) then Failure(WritableBinary) else Success(path)
  }

  /** A failed lookup is reported before anything is stat'ed: the outcome
      does not depend on `stat` at all. */
  lemma LookupFailureIgnoresStat(stat1: string -> StatResult, stat2: string -> StatResult)
    ensures ResolveTerraformBinary(Toolchain(None, stat1))
         == ResolveTerraformBinary(Toolchain(None, stat2))
  {
  }

  /** Only the stat of the path found on the search path is consulted. */
  lemma OnlyFoundPathIsStated(path: string, stat1: string -> StatResult, stat2: string -> StatResult)
    requires stat1(path) == stat2(path)
    ensures ResolveTerraformBinary(Toolchain(Some(path), stat1))
         == ResolveTerraformBinary(Toolchain(Some(path), stat2))
  {
  }

  /** The fixed search path of the restricted environment. */
  const SecurePath := "/usr/local/sbin:/usr/local/bin:/usr/sbin:/usr/bin:/bin"

  /** `secureEnv`: a one-entry environment that defines `PATH` and nothing
      else, so that nothing of the caller's environment is inherited. */
  function SecureEnv(): (env: seq<string>)
    ensures |env| == 1
    ensures EnvLookup(env, "PATH") == Some(SecurePath)
    ensures forall name :: name != "PATH" ==> EnvLookup(env, name) == None
  {
    var entry := "PATH" + "=" + SecurePath;
    KeyOfDefinition("PATH", SecurePath);
    assert entry[5..] == SecurePath;
    [entry]
  }

  /** Length of the variable name of an environment entry: the position of
      its first `=`, or its whole length when it has none. */
  function KeyLength(entry: string): (n: nat)
    ensures n <= |entry|
  {
    if entry == [] then 0
    else if entry[0] == '=' then 0
    else 1 + KeyLength(entry[1..])
  }

  /** The variable an entry `name=value` defines, when it has an `=`. */
  function EntryKey(entry: string): Option<string>
  {
    var n := KeyLength(entry);
    if n < |entry| then Some(entry[..n]) else None
  }

  /** The value a child process sees for `name` in `env`: as with Go's
      `os/exec`, the last entry defining `name` wins. */
  function EnvLookup(env: seq<string>, name: string): Option<string>
  {
    if env == [] then None
    else
      var last := env[|env| - 1];
      if EntryKey(last) == Some(name) then Some(last[|name| + 1..])
      else EnvLookup(env[..|env| - 1], name)
  }

  /** An entry built as `name=value` from a name without `=` defines exactly
      `name`, whatever the value holds. */
  lemma {:induction false} KeyOfDefinition(name: string, value: string)
    requires '=' !in name
    ensures KeyLength(name + "=" + value) == |name|
    ensures EntryKey(name + "=" + value) == Some(name)
  {
    var entry := name + "=" + value;
    if name != [] {
      assert entry[0] == name[0];
      assert entry[1..] == name[1..] + "=" + value;
      KeyOfDefinition(name[1..], value);
    }
    assert entry[..|name|] == name;
  }

  /** One child process as it is started: the binary, its arguments, its
      working directory and its environment. */
  datatype Invocation = Invocation(binary: string, args: seq<string>, dir: string, env: seq<string>)

  /** What the child's exit reported, and its two output buffers, kept apart. */
  datatype ProcessResult = ProcessResult(exitError: Option<string>, stdout: seq<byte>, stderr: seq<byte>)

  /** `bytes.Buffer.String()`: a Go string is a byte string, one character
      per byte here. */
  function BytesToString(b: seq<byte>): (s: string)
    ensures |s| == |b|
    ensures forall i :: 0 <= i < |b| ==> s[i] as int == b[i] as int
  {
    seq(|b|, i requires 0 <= i < |b| => (b[i] as int) as char)
  }
}
