/** Pulling the remote Terraform state (internal/terraform/state_pull.go,
    lines 43-130 and 188-211): the advisory backend precheck, the
    `terraform state pull` run and the two ways its result is used, shown on
    the terminal or saved to a file. The processes, the file system, the
    JSON formatter and the terminal are outside the model; what they report
    is given as inputs. */
module StatePull {
  import opened Wrappers
  import opened SecureInvoker
  import opened Text
  import ErrorClassifier

  const StatePullArgs := ["state", "pull"]
  const InitCheckArgs := ["init", "-backend=true", "-get=false"]

  /** Why `pullRemoteState` failed. */
  datatype PullError =
    | Unresolved(cause: ResolveError)
    | RunFailed(message: string)
    | EmptyState
  {
    /** The error text the caller sees. */
    function Message(): string
    {
      match this
      case Unresolved(cause) => cause.Message()
      case RunFailed(message) => message
      case EmptyState => "received empty state"
    }
  }

  /** What the pull consults: how `terraform` resolves and what the
      `terraform state pull` child reported. */
  datatype PullFacts = PullFacts(tool: Toolchain, proc: ProcessResult)

  /** The error text of a failed run: the exit error, followed by the
      captured stderr only when there is some. */
  function RunFailureMessage(exitError: string, stderr: seq<byte>): string
  {
    if |stderr| > 0 then exitError + ": " + BytesToString(stderr) else exitError
  }

  /** What `pullRemoteState` returns, rule by rule. */
  function PullOutcome(facts: PullFacts): Result<seq<byte>, PullError>
  {
    var resolved := ResolveTerraformBinary(facts.tool);
    if resolved.Failure? then Failure(Unresolved(resolved.error))
    else if facts.proc.exitError.Some? then
      Failure(RunFailed(RunFailureMessage(facts.proc.exitError.value, facts.proc.stderr)))
    else if |facts.proc.stdout| == 0 then Failure(EmptyState)
    else Success(facts.proc.stdout)
  }

  /** The child `pullRemoteState` starts, if the binary resolves. */
  function PullInvocation(dir: string, facts: PullFacts): Option<Invocation>
  {
    var resolved := ResolveTerraformBinary(facts.tool);
    if resolved.Success? then Some(Invocation(resolved.value, StatePullArgs, dir, SecureEnv()))
    else None
  }

  /** `pullRemoteState(workingDir)`: resolve the binary, run
      `terraform state pull` in `workingDir` with the restricted environment,
      and interpret the two captured buffers. */
  method PullRemoteState(workingDir: string, facts: PullFacts)
    returns (r: Result<seq<byte>, PullError>, invoked: Option<Invocation>)
    ensures r == PullOutcome(facts)
    ensures invoked == PullInvocation(workingDir, facts)
  {
    var resolved := ResolveTerraformBinary(facts.tool);
    if resolved.Failure? {
      return Failure(Unresolved(resolved.error)), None;
    }
    invoked := Some(Invocation(resolved.value, StatePullArgs, workingDir, SecureEnv()));
    var stdout, stderr := facts.proc.stdout, facts.proc.stderr;
    if facts.proc.exitError.Some? {
      var exitError := facts.proc.exitError.value;
      if |stderr| > 0 {
        return Failure(RunFailed(exitError + ": " + BytesToString(stderr))), invoked;
      }
      return Failure(RunFailed(exitError)), invoked;
    }
    if |stdout| == 0 {
      return Failure(EmptyState), invoked;
    }
    r := Success(stdout);
  }

  /** A pull never succeeds with no bytes, and a success hands back stdout
      exactly; it succeeds precisely when the binary resolves, the child
      exits cleanly and stdout is non-empty. */
  lemma PullSuccessIsStdout(facts: PullFacts)
    ensures PullOutcome(facts).Success? <==>
      ResolveTerraformBinary(facts.tool).Success?
      && facts.proc.exitError.None? && |facts.proc.stdout| > 0
    ensures PullOutcome(facts).Success? ==>
      PullOutcome(facts).value == facts.proc.stdout && |PullOutcome(facts).value| > 0
  {
  }

  /** A clean exit with nothing on stdout is reported as an empty state. */
  lemma EmptyOutputIsEmptyState(facts: PullFacts)
    requires ResolveTerraformBinary(facts.tool).Success?
    requires facts.proc.exitError.None? && facts.proc.stdout == []
    ensures PullOutcome(facts) == Failure(EmptyState)
    ensures PullOutcome(facts).error.Message() == "received empty state"
  {
  }

  /** The error of a failed run shows the captured stderr exactly when there
      is some, after the exit error and ": "; otherwise it is the exit error
      alone. */
  lemma RunFailureShowsStderr(exitError: string, stderr: seq<byte>)
    ensures |stderr| > 0 ==>
      RunFailureMessage(exitError, stderr)[..|exitError| + 2] == exitError + ": "
      && RunFailureMessage(exitError, stderr)[|exitError| + 2..] == BytesToString(stderr)
      && Contains(RunFailureMessage(exitError, stderr), BytesToString(stderr))
    ensures |stderr| == 0 ==> RunFailureMessage(exitError, stderr) == exitError
  {
    if |stderr| > 0 {
      var m := RunFailureMessage(exitError, stderr);
      assert m == exitError + ": " + BytesToString(stderr);
      assert m[..|exitError| + 2] == exitError + ": ";
      ContainsMiddle(exitError + ": ", BytesToString(stderr), "");
      assert exitError + ": " + BytesToString(stderr) + "" == m;
    }
  }

  /** When the binary does not resolve no child runs, and what the child
      would have reported plays no part. */
  lemma UnresolvedBinaryRunsNothing(dir: string, tool: Toolchain, p1: ProcessResult, p2: ProcessResult)
    requires ResolveTerraformBinary(tool).Failure?
    ensures PullInvocation(dir, PullFacts(tool, p1)) == None
    ensures PullOutcome(PullFacts(tool, p1)) == PullOutcome(PullFacts(tool, p2))
  {
  }

  /** A resolved binary is run as `terraform state pull` in the given
      directory with the one-entry restricted environment. */
  lemma PullRunsStatePull(dir: string, facts: PullFacts)
    requires ResolveTerraformBinary(facts.tool).Success?
    ensures PullInvocation(dir, facts).Some?
    ensures PullInvocation(dir, facts).value.binary == facts.tool.lookup.value
    ensures PullInvocation(dir, facts).value.args == ["state", "pull"]
    ensures PullInvocation(dir, facts).value.dir == dir
    ensures EnvLookup(PullInvocation(dir, facts).value.env, "PATH") == Some(SecurePath)
  {
  }

  /** Outcome of `os.Stat` on the `.terraform` directory. */
  datatype DirStat = DirPresent | DirMissing | DirStatFailed(reason: string)

  /** What the precheck consults: how `terraform` resolves, how the
      `terraform init` child exited, and the stat of `.terraform`. */
  datatype PrecheckFacts = PrecheckFacts(tool: Toolchain, initExit: Option<string>, dotTerraform: DirStat)

  const InitCheckFailed := "backend initialization check failed"
  const NoTerraformDir := "terraform directory not found, run 'terraform init' first"

  /** What `checkBackendConfiguration` returns: the error text, or None. */
  function PrecheckOutcome(facts: PrecheckFacts): Option<string>
  {
    var resolved := ResolveTerraformBinary(facts.tool);
    if resolved.Failure? then Some(resolved.error.Message())
    else if facts.initExit.Some? then Some(InitCheckFailed)
    else if facts.dotTerraform == DirMissing then Some(NoTerraformDir)
    else None
  }

  /** The child the precheck starts, if the binary resolves. */
  function PrecheckInvocation(dir: string, facts: PrecheckFacts): Option<Invocation>
  {
    var resolved := ResolveTerraformBinary(facts.tool);
    if resolved.Success? then Some(Invocation(resolved.value, InitCheckArgs, dir, SecureEnv()))
    else None
  }

  /** `checkBackendConfiguration(dir)`: run `terraform init -backend=true
      -get=false`, then require that `.terraform` exists. */
  method CheckBackendConfiguration(dir: string, facts: PrecheckFacts)
    returns (err: Option<string>, invoked: Option<Invocation>)
    ensures err == PrecheckOutcome(facts)
    ensures invoked == PrecheckInvocation(dir, facts)
  {
    var resolved := ResolveTerraformBinary(facts.tool);
    if resolved.Failure? {
      return Some(resolved.error.Message()), None;
    }
    invoked := Some(Invocation(resolved.value, InitCheckArgs, dir, SecureEnv()));
    if facts.initExit.Some? {
      return Some(InitCheckFailed), invoked;
    }
    if facts.dotTerraform.DirMissing? {
      return Some(NoTerraformDir), invoked;
    }
    err := None;
  }

  /** The precheck passes exactly when the binary resolves, `terraform init`
      exits cleanly and the stat of `.terraform` does not report it missing:
      any other stat failure lets the precheck pass. */
  lemma PrecheckPassesUnlessNotExist(facts: PrecheckFacts)
    ensures PrecheckOutcome(facts).None? <==>
      ResolveTerraformBinary(facts.tool).Success?
      && facts.initExit.None? && !facts.dotTerraform.DirMissing?
    ensures (ResolveTerraformBinary(facts.tool).Success? && facts.initExit.None?
             && facts.dotTerraform.DirStatFailed?) ==> PrecheckOutcome(facts).None?
  {
  }

  const WarningPrefix := "No remote backend configured or unable to check: "
  const StatePullFailedPrefix := "state pull failed: "

  /** What `StatePull` puts on the terminal for a pulled state. */
  datatype Display = NothingShown | Formatted(state: seq<byte>) | Raw(state: seq<byte>)

  /** `StatePull(dir, useAI)`. `setupError` is what `GetTerraform(dir)`
      reported; `formats(state)` is whether `prettyPrintJSON(state)` returned
      nil (indenting and writing to stdout both succeeded). `warning` is the
      text logged for a failed precheck, `explained` the text handed to the
      AI explainer, and `spawned` the children started, in order. */
  method StatePull(dir: string, setupError: Option<string>, precheck: PrecheckFacts,
                   pull: PullFacts, formats: seq<byte> -> bool)
    returns (err: Option<string>, warning: Option<string>, shown: Display,
             explained: Option<string>, spawned: seq<Invocation>)
    ensures setupError.Some? ==>
      err == setupError && explained == setupError
      && warning == None && shown == NothingShown && spawned == []
    ensures setupError.None? ==>
      && warning == (if PrecheckOutcome(precheck).Some?
                     then Some(WarningPrefix + PrecheckOutcome(precheck).value) else None)
      && spawned == PrecheckInvocation(dir, precheck).ToSeq() + PullInvocation(dir, pull).ToSeq()
    ensures setupError.None? && PullOutcome(pull).Failure? ==>
      var cause := PullOutcome(pull).error.Message();
      && err == Some(StatePullFailedPrefix + cause)
      && explained == Some(ErrorClassifier.FormatPullErrorMessage(cause))
      && shown == NothingShown
    ensures setupError.None? && PullOutcome(pull).Success? ==>
      var state := PullOutcome(pull).value;
      && err == None && explained == None
      && shown == (if formats(state) then Formatted(state) else Raw(state))
  {
    if setupError.Some? {
      return setupError, None, NothingShown, setupError, [];
    }
    var checkErr, initRun := CheckBackendConfiguration(dir, precheck);
    warning := None;
    if checkErr.Some? {
      warning := Some(WarningPrefix + checkErr.value);
    }
    var state, pullRun := PullRemoteState(dir, pull);
    spawned := initRun.ToSeq() + pullRun.ToSeq();
    if state.Failure? {
      var cause := state.error.Message();
      return Some(StatePullFailedPrefix + cause), warning, NothingShown,
        Some(ErrorClassifier.FormatPullErrorMessage(cause)), spawned;
    }
    if !formats(state.value) {
      shown := Raw(state.value);
    } else {
      shown := Formatted(state.value);
    }
    err, explained := None, None;
  }

  /** The mode `StatePullToFile` writes with, octal 0644. */
  const StateFileMode: FileMode := 0x1A4

  /** One `os.WriteFile` call. */
  datatype FileWrite = FileWrite(path: string, data: seq<byte>, mode: FileMode)

  /** The state file is readable by all and writable by its owner only, so
      it would itself pass the binary's writability test. */
  lemma StateFileModeIsOwnerWritableOnly()
    ensures Perm(StateFileMode) == StateFileMode
    ensures !IsInsecureMode(StateFileMode)
    ensures StateFileMode & 0x80 != 0     // owner write, octal 0200
  {
  }

  /** `StatePullToFile(dir, outputFile, useAI)`. `indent` is `json.Indent`
      with two-space indentation, as a function of the pulled bytes;
      `writeError` is what `os.WriteFile` reported. `explained` is the text
      handed to the AI explainer and `written` the write attempted. */
  method StatePullToFile(dir: string, outputFile: string, pull: PullFacts,
                         indent: seq<byte> -> Result<seq<byte>, string>, writeError: Option<string>)
    returns (err: Option<string>, explained: Option<string>, written: Option<FileWrite>,
             spawned: seq<Invocation>)
    ensures spawned == PullInvocation(dir, pull).ToSeq()
    ensures PullOutcome(pull).Failure? ==>
      var cause := PullOutcome(pull).error.Message();
      err == Some(cause) && explained == Some(cause) && written == None
    ensures PullOutcome(pull).Success? && indent(PullOutcome(pull).value).Failure? ==>
      err == Some("failed to format JSON: " + indent(PullOutcome(pull).value).error)
      && explained == None && written == None
    ensures PullOutcome(pull).Success? && indent(PullOutcome(pull).value).Success? ==>
      && explained == None
      && written == Some(FileWrite(outputFile, indent(PullOutcome(pull).value).value, StateFileMode))
      && err == (if writeError.Some? then Some("failed to write state file: " + writeError.value) else None)
  {
    var state, pullRun := PullRemoteState(dir, pull);
    spawned := pullRun.ToSeq();
    if state.Failure? {
      var cause := state.error.Message();
      return Some(cause), Some(cause), None, spawned;
    }
    var pretty := indent(state.value);
    explained := None;
    if pretty.Failure? {
      return Some("failed to format JSON: " + pretty.error), explained, None, spawned;
    }
    written := Some(FileWrite(outputFile, pretty.value, StateFileMode));
    if writeError.Some? {
      return Some("failed to write state file: " + writeError.value), explained, written, spawned;
    }
    err := None;
  }
}
