# Terraform state pull and registry push progress, modelled in Dafny

This project models the two pieces of decision logic inside a DevOps command
line tool that otherwise drives external programs.

1. **Pulling remote Terraform state** (`internal/terraform/state_pull.go`).
   - The `terraform` binary is found on the search path. It is rejected when
     it cannot be stat'ed or when its permission bits include group-write or
     other-write (octal `0022`).
   - Every child process runs with a one-entry environment that sets only a
     fixed `PATH`.
   - `terraform state pull` is run and its exit error, stdout and stderr are
     interpreted: stderr is added to the error only when there is some, an
     empty success is refused, and otherwise stdout is returned unchanged.
   - The backend precheck (`terraform init -backend=true -get=false`, then a
     stat of `.terraform`) only produces a warning.
   - `StatePull` shows the state formatted, or raw when formatting fails.
     `StatePullToFile` stops before writing when formatting fails, and
     otherwise writes with mode `0644`.
   - A failed pull's error is mapped to a remediation text by an ordered
     substring classifier (`formatPullErrorMessage`).
2. **Consuming a registry push stream** (`internal/docker/pushHub.go`). The
   loop decodes one event after another. It stops at the first decode failure,
   which counts as success, or at the first event carrying an error, which is
   the push's failure. For each processed event it adds a heuristic amount to
   the progress bar: 10 for "Layer already exists", otherwise 15 for "Pushed".
   It also updates the spinner text and the progress bar's title.

Modules, one file each:

- `Wrappers` holds `Option` and `Result`.
- `Text` holds `Contains`, which has the meaning of Go's `strings.Contains`.
- `SecureInvoker` models binary resolution, the permission test, the
  restricted environment and the shape of one child process.
- `ErrorClassifier` models the remediation classifier.
- `StatePull` models the pull, the precheck and the two commands.
- `PushHub` models the push loop and `PushImage`.

The step-by-step Go functions (`pullRemoteState`, `checkBackendConfiguration`,
`StatePull`, `StatePullToFile`, `PushImage` and its decode loop) are methods.
Each method is proved against specification functions (`PullOutcome`,
`PrecheckOutcome`, `Processed`, `Progress`, `LastStatus`, `Title`, ...). The
properties are lemmas about those functions.

Everything external is an input:

- the search-path lookup, as the path found if any;
- `os.Stat`, as a function from path to result;
- the child's exit error and its two buffers;
- what `GetTerraform` reported;
- whether `prettyPrintJSON` succeeded, as a function of the state bytes;
- `json.Indent`, as a function of the state bytes;
- what `os.WriteFile` reported;
- the errors of the Docker client, of the authentication encoding and of the
  push request;
- the sequence of what each `decoder.Decode` call produced.

Each method also returns the child processes it starts (`Invocation`: binary,
arguments, directory, environment). That lets the contracts say which
processes run and with what environment.

Details of the code that the model keeps:

- The push failure is the error `"push error: " + error`, not the bare error
  text. An error at position k leaves exactly the k events before it
  processed.
- The progress title uses the status of the event that carries the progress
  text, even when that status is empty. It does not use the status currently
  displayed.
- The loop does not bound the progress total: `ProgressExceedsBarTotal` shows
  105.
- In the precheck, only a "does not exist" stat result fails. Any other stat
  error lets the precheck pass.
- `StatePullToFile` returns the pull error unchanged and hands the raw error
  text, not the remediation text, to the explainer. `StatePull` wraps the
  error in "state pull failed: " and passes the classified text.

## Model

| member | source | states |
|---|---|---|
| `Text.ContainsMeansOccurrence` | internal/terraform/state_pull.go:155-173 | the substring test used by every case holds exactly when the pattern occurs at some position of the message |
| `SecureInvoker.IsInsecureMode` | internal/terraform/state_pull.go:29 | the `Perm()&0022 != 0` test: true exactly when the group-write or the other-write bit is set (see also `InsecureModeMeansWritableByOthers`) |
| `SecureInvoker.InsecureModeMeansWritableByOthers` | internal/terraform/state_pull.go:28-31 | a mode is rejected exactly when its group-write or other-write bit is set; file-type bits never matter (`Perm()` masks them) |
| `SecureInvoker.ModeExamples` | internal/terraform/state_pull.go:28-31 | 0775 and 0757 are rejected; 0755, 0555 and a directory with 0755 are accepted |
| `SecureInvoker.ResolveTerraformBinary` | internal/terraform/state_pull.go:17-34 | resolution succeeds exactly when the lookup found a path, the stat succeeded and the mode is not group/other-writable, and it then returns that path; otherwise it gives not-found, stat-failed (with the stat's reason) or writable, in that order |
| `SecureInvoker.LookupFailureIgnoresStat` | internal/terraform/state_pull.go:18-21 | a failed lookup is reported before any stat: the outcome is the same for every stat function |
| `SecureInvoker.OnlyFoundPathIsStated` | internal/terraform/state_pull.go:23-26 | only the stat of the path found on the search path affects the outcome |
| `SecureInvoker.SecureEnv` | internal/terraform/state_pull.go:37-41 | the environment has one entry; a child looking up `PATH` sees the fixed search path, and every other variable is undefined, so nothing is inherited |
| `SecureInvoker.KeyOfDefinition` | internal/terraform/state_pull.go:39 | an entry `name=value` built from a name without `=` defines exactly that name, whatever the value contains |
| `ErrorClassifier.TextDeterminesRemediation` | internal/terraform/state_pull.go:151-185 | the five remediation texts are pairwise different, and two catch-all texts are equal only for equal errors: the text identifies the case taken |
| `ErrorClassifier.MissingStateWins` | internal/terraform/state_pull.go:155-159 | a message containing "no state file" yields the missing-state text, whatever else it contains |
| `ErrorClassifier.Classify` | internal/terraform/state_pull.go:154-185 | the `switch` of formatPullErrorMessage: each outcome holds exactly when its patterns occur and no earlier case's do, the catch-all exactly when no pattern occurs (see also `ClassifyFollowsRuleTable`) |
| `ErrorClassifier.FormatPullErrorMessage` | internal/terraform/state_pull.go:151-185 | a recognised cause gives one of the four fixed texts; the catch-all gives the generic prefix followed directly by the error text (see also the `*Exactly` lemmas and `TextDeterminesRemediation`) |
| `ErrorClassifier.MissingStateExactly` | internal/terraform/state_pull.go:155-159 | the missing-state text is produced if and only if the message contains "no state file" |
| `ErrorClassifier.AccessDeniedExactly` | internal/terraform/state_pull.go:161-165 | the permission text is produced if and only if the message contains "access denied" or "permission denied" and not "no state file" |
| `ErrorClassifier.TimeoutExactly` | internal/terraform/state_pull.go:167-171 | the timeout text is produced if and only if the message contains "context deadline exceeded" or "timeout" and none of the earlier patterns |
| `ErrorClassifier.UnresolvedHostExactly` | internal/terraform/state_pull.go:173-176 | the DNS text is produced if and only if the message contains "no such host" and none of the earlier patterns |
| `ErrorClassifier.TimeoutBeatsUnresolvedHost` | internal/terraform/state_pull.go:167-176 | a message with a timeout pattern and "no such host" (and no earlier pattern) yields the timeout text, never the DNS text |
| `ErrorClassifier.FallbackEchoesError` | internal/terraform/state_pull.go:178-184 | a message matching no pattern yields "Failed to pull remote state: " followed by the message itself, then the four troubleshooting steps; the message is contained in the text |
| `ErrorClassifier.GenericExactly` | internal/terraform/state_pull.go:178-184 | a catch-all text is produced if and only if no pattern matches |
| `ErrorClassifier.ClassifyFollowsRuleTable` | internal/terraform/state_pull.go:154-185 | the `switch` agrees, on every message, with an ordered table of (patterns, outcome) rows tried first to last with a catch-all |
| `ErrorClassifier.UnresolvedHostByCharacters` | internal/terraform/state_pull.go:155-176 | a message that lacks a character of each earlier pattern and contains "no such host" is classified as an unresolved host |
| `ErrorClassifier.UnresolvedHostScenario` | internal/terraform/state_pull.go:173-176 | "connection: no such host" yields the DNS text, not the catch-all |
| `StatePull.PullRemoteState` | internal/terraform/state_pull.go:78-106 | the result is the pull outcome of the facts and the child started is `terraform state pull` run by the resolved path in the working directory with the restricted environment, or none when resolution fails |
| `StatePull.PullSuccessIsStdout` | internal/terraform/state_pull.go:93-105 | a pull succeeds exactly when the binary resolves, the child exits cleanly and stdout is non-empty; a success returns stdout exactly and is never empty |
| `StatePull.EmptyOutputIsEmptyState` | internal/terraform/state_pull.go:101-103 | a clean exit with empty stdout fails with "received empty state" |
| `StatePull.RunFailureShowsStderr` | internal/terraform/state_pull.go:94-98 | a failed run's error is the exit error followed by ": " and the stderr text when stderr is non-empty (so it contains stderr), and is the exit error alone when stderr is empty |
| `StatePull.UnresolvedBinaryRunsNothing` | internal/terraform/state_pull.go:80-83 | when resolution fails no child is started and the process facts play no part in the outcome |
| `StatePull.PullRunsStatePull` | internal/terraform/state_pull.go:85-91 | a resolved binary is run with arguments `state pull`, in the given directory, with `PATH` set to the fixed search path |
| `StatePull.CheckBackendConfiguration` | internal/terraform/state_pull.go:109-130 | the precheck's error is the resolution error, then "backend initialization check failed" for a failed `terraform init`, then the missing-directory error, else none; `terraform init -backend=true -get=false` is started exactly when the binary resolves |
| `StatePull.PrecheckPassesUnlessNotExist` | internal/terraform/state_pull.go:120-129 | the precheck passes exactly when the binary resolves, `init` exits cleanly and `.terraform` is not reported missing; another stat failure lets it pass |
| `StatePull.StatePull` | internal/terraform/state_pull.go:44-75 | a `GetTerraform` failure is returned unchanged, is handed to the explainer and nothing runs; otherwise the precheck only adds a warning and the pull is always attempted; a failed pull returns "state pull failed: " plus its error, hands the classified remediation to the explainer and shows nothing; a pulled state is shown formatted, or raw when formatting fails, and no error is returned |
| `StatePull.StateFileModeIsOwnerWritableOnly` | internal/terraform/state_pull.go:204 | the state file mode 0644 is owner-writable and not group/other-writable |
| `StatePull.StatePullToFile` | internal/terraform/state_pull.go:189-211 | a failed pull returns its error unchanged, hands that raw text to the explainer and writes nothing; an indentation failure returns "failed to format JSON: ..." before any write; otherwise the indented bytes are written to the output file with mode 0644 and a write failure gives "failed to write state file: ..." |
| `PushHub.DecodedEvents` | internal/docker/pushHub.go:64-68 | the events the loop decodes are exactly the entries before the first malformed one, in order |
| `PushHub.FirstError` | internal/docker/pushHub.go:70-73 | the abort position: every earlier event has an empty error, and the event there, if any, has one |
| `PushHub.ConsumePushStream` | internal/docker/pushHub.go:61-93 | the loop fails with "push error: " plus the first reported error, or succeeds; its progress, spinner text and title are those of the processed events (the ones before that error); it makes exactly one `Decode` call past the last event it uses |
| `PushHub.ApplyEvent` | internal/docker/pushHub.go:75-87 | an error-free event adds its status's increment to the bar, replaces the spinner's text when its status is non-empty and retitles the bar when its progress text is non-empty |
| `PushHub.Increment` | internal/docker/pushHub.go:75-80 | the bar grows by 10 for "Layer already exists", else by 15 for "Pushed", else by nothing (see also `IncrementPrecedence`) |
| `PushHub.IncrementPrecedence` | internal/docker/pushHub.go:75-80 | "Layer already exists" adds 10 even with "Pushed"; otherwise "Pushed" adds 15; any other or empty status adds 0 |
| `PushHub.ProgressTotal` | internal/docker/pushHub.go:76-80 | progress = 10 × (events with "Layer already exists") + 15 × (other events with "Pushed") |
| `PushHub.ProgressMonotone` | internal/docker/pushHub.go:76-80 | progress over a prefix of the events is never more than over all of them |
| `PushHub.UniformProgress` | internal/docker/pushHub.go:76-80 | events with one status add that status's increment each, without a cap |
| `PushHub.ProgressExceedsBarTotal` | internal/docker/pushHub.go:62-80 | seven "Pushed" events reach 105, past the bar's total of 100 |
| `PushHub.LastStatusIsLastNonEmpty` | internal/docker/pushHub.go:75-83 | the spinner shows the status of the last processed event with a non-empty status |
| `PushHub.LastStatusKeepsInitial` | internal/docker/pushHub.go:50-83 | without a non-empty status the spinner keeps "Pushing image ...", its text before the loop |
| `PushHub.TitleFromLastProgress` | internal/docker/pushHub.go:85-87 | the title is `status + ": " + progress` of the last event with progress text, using that event's status even if it is empty |
| `PushHub.TitleKeepsInitial` | internal/docker/pushHub.go:62-87 | without progress text the title stays "Push Progress" |
| `PushHub.DecodingAgreesOnPrefix` | internal/docker/pushHub.go:64-68 | streams agreeing on a prefix of events decode the same events there |
| `PushHub.DecodingStopsAtMalformed` | internal/docker/pushHub.go:66-68 | nothing after a malformed entry is decoded |
| `PushHub.LaterEntriesIgnored` | internal/docker/pushHub.go:64-73 | once the loop stops at an error event or a malformed entry, changing the rest of the stream changes neither the processed events, the outcome nor the number of decodes |
| `PushHub.MalformedActsAsEnd` | internal/docker/pushHub.go:66-68 | a malformed entry ends decoding exactly as the end of the stream does |
| `PushHub.MalformedOutcome` | internal/docker/pushHub.go:66-93 | so a stream cut by a malformed entry has the same processed events, outcome and decode count as the stream ending there: a decode failure is not an error |
| `PushHub.ErrorCheckedFirst` | internal/docker/pushHub.go:70-80 | an event with an error is not processed even if its status is "Pushed": no progress, failure with its error, one decode |
| `PushHub.LayerThenPushedScenario` | internal/docker/pushHub.go:64-93 | `[Layer already exists, Pushed]` then the end gives progress 25, success, status "Pushed", three decodes |
| `PushHub.UnauthorizedScenario` | internal/docker/pushHub.go:70-73 | a stream opening with error "unauthorized" fails with it, after one decode and with progress 0 |
| `PushHub.PushImage` | internal/docker/pushHub.go:22-94 | client, authentication and request failures give their wrapped errors, in that order, and the stream is then not read; otherwise the result is the loop's |

## Left out

- The process and file-system calls (`exec.LookPath`, `os.Stat`, `cmd.Run`, `os.WriteFile`, the stat of `.terraform`) are I/O. Only their outcomes are modelled, as inputs.
- `json.Indent`, `prettyPrintJSON`'s write to stdout and the JSON decoder are library formatting and parsing. They are inputs: a function from the state bytes to success, a function from the state bytes to the indented bytes or an error, and the sequence of decode results.
- `GetTerraform` is not part of this model. Only the error it reports is an input to `StatePull`.
- The Docker client, `cli.ImagePush`, the network stream and its `Close` on every exit path are foreign calls. Only their errors are inputs.
- Reading credentials from the environment, `json.Marshal` and base64url encoding are library calls. The encoding's error is an input.
- `context.WithTimeout` and deadlines belong to the runtime, and a hung child is not modelled. A push whose deadline passes while the stream is read is covered: the failing `decoder.Decode` is a `Malformed` entry, and `PushHub.MalformedOutcome` shows the push then reports success with the events read so far.
- Terminal presentation is UI only. This covers spinners and the progress bar's rendering (including any clamping at 100 inside the library), colours, the `Info`/`Error`/`Success` lines and the spinner's final `Fail`/`Success` text. The warning text and the text handed to `ai.AIExplainError` are modelled. The `useAI` switch is not.
- `scan.go` (`Trivy`) only runs the external scanner and relays its output. It is not part of this model.
- Go strings are byte strings. Here a string is a sequence of characters and `stderr.String()` maps each byte to one character; no UTF-8 decoding is modelled.
- The precheck and the pull each resolve the binary on their own. Each takes its own lookup and stat facts, so the model allows the two lookups to see different files.
