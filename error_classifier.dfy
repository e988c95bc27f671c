/** `formatPullErrorMessage` (internal/terraform/state_pull.go, lines
    150-186): an ordered substring classifier that maps the error of a failed
    state pull to a remediation text. */
module ErrorClassifier {
  import opened Text

  /** The five outcomes of the classifier, in the order they are tried. */
  datatype Remediation = MissingState | AccessDenied | Timeout | UnresolvedHost | Generic

  const NoStateFile := "no state file"
  const AccessDeniedPattern := "access denied"
  const PermissionDeniedPattern := "permission denied"
  const DeadlineExceeded := "context deadline exceeded"
  const TimeoutPattern := "timeout"
  const NoSuchHost := "no such host"

  /** The `switch` of `formatPullErrorMessage`: the first case whose
      patterns occur in the message wins. */
  function Classify(msg: string): (r: Remediation)
    ensures r == MissingState <==> Contains(msg, NoStateFile)
    ensures r == AccessDenied <==>
      !Contains(msg, NoStateFile)
      && (Contains(msg, AccessDeniedPattern) || Contains(msg, PermissionDeniedPattern))
    ensures r == Timeout <==>
      !Contains(msg, NoStateFile)
      && !Contains(msg, AccessDeniedPattern) && !Contains(msg, PermissionDeniedPattern)
      && (Contains(msg, DeadlineExceeded) || Contains(msg, TimeoutPattern))
    ensures r == UnresolvedHost <==>
      !Contains(msg, NoStateFile)
      && !Contains(msg, AccessDeniedPattern) && !Contains(msg, PermissionDeniedPattern)
      && !Contains(msg, DeadlineExceeded) && !Contains(msg, TimeoutPattern)
      && Contains(msg, NoSuchHost)
    ensures r == Generic <==>
      !Contains(msg, NoStateFile) && !Contains(msg, AccessDeniedPattern)
      && !Contains(msg, PermissionDeniedPattern) && !Contains(msg, DeadlineExceeded)
      && !Contains(msg, TimeoutPattern) && !Contains(msg, NoSuchHost)
  {
    if Contains(msg, NoStateFile) then MissingState
    else if Contains(msg, AccessDeniedPattern) || Contains(msg, PermissionDeniedPattern) then AccessDenied
    else if Contains(msg, DeadlineExceeded) || Contains(msg, TimeoutPattern) then Timeout
    else if Contains(msg, NoSuchHost) then UnresolvedHost
    else Generic
  }

  const MissingStateText :=
    "No remote state found. This could mean:\n"
    + "  • The remote backend hasn't been initialized (run 'terraform init')\n"
    + "  • No resources have been created yet\n"
    + "  • The state file doesn't exist in the remote backend"

  const AccessDeniedText :=
    "Permission denied accessing remote state. Check:\n"
    + "  • Your AWS/GCP/Azure credentials are properly configured\n"
    + "  • You have read access to the backend\n"
    + "  • The backend configuration is correct"

  const TimeoutText :=
    "Timeout while connecting to remote backend. Check:\n"
    + "  • Your network connection\n"
    + "  • The backend endpoint is accessible\n"
    + "  • Proxy/firewall settings"

  const UnresolvedHostText :=
    "Cannot resolve backend hostname. Check:\n"
    + "  • Your DNS configuration\n"
    + "  • The backend endpoint URL is correct"

  const GenericPrefix := "Failed to pull remote state: "

  const TroubleshootingSteps :=
    "\n\n"
    + "Troubleshooting steps:\n"
    + "  1. Run 'terraform init'\n"
    + "  2. Verify backend configuration\n"
    + "  3. Check cloud provider credentials\n"
    + "  4. Ensure network access to backend"

  /** The text shown for each outcome; only the catch-all echoes the error. */
  function RemediationText(c: Remediation, msg: string): string
  {
    match c
    case MissingState => MissingStateText
    case AccessDenied => AccessDeniedText
    case Timeout => TimeoutText
    case UnresolvedHost => UnresolvedHostText
    case Generic => GenericPrefix + msg + TroubleshootingSteps
  }

  /** `formatPullErrorMessage(err)` where `msg` is `err.Error()`. */
  function FormatPullErrorMessage(msg: string): (text: string)
    ensures Classify(msg) != Generic ==>
      text in {MissingStateText, AccessDeniedText, TimeoutText, UnresolvedHostText}
    ensures Classify(msg) == Generic ==>
      |GenericPrefix| + |msg| <= |text|
      && text[..|GenericPrefix|] == GenericPrefix
      && text[|GenericPrefix|..|GenericPrefix| + |msg|] == msg
  {
    RemediationText(Classify(msg), msg)
  }

  /** The texts of different outcomes differ, and the catch-all text of two
      messages differs unless the messages do: the text tells which case was
      taken and, in the catch-all case, which error was reported. */
  lemma TextDeterminesRemediation(c1: Remediation, m1: string, c2: Remediation, m2: string)
    requires RemediationText(c1, m1) == RemediationText(c2, m2)
    ensures c1 == c2
    ensures c1 == Generic ==> m1 == m2
  {
    var t := RemediationText(c1, m1);
    assert t == RemediationText(c2, m2);
    assert RemediationText(c1, m1)[0] == RemediationText(c2, m2)[0];
    if c1 == Generic && c2 == Generic {
      var n := |GenericPrefix|;
      assert |m1| == |m2|;
      assert t[n..n + |m1|] == m1;
      assert t[n..n + |m2|] == m2;
    }
  }

  /** Missing state wins over every other pattern. */
  lemma MissingStateWins(msg: string)
    requires Contains(msg, NoStateFile)
    ensures FormatPullErrorMessage(msg) == MissingStateText
  {
  }

  /** Each outcome is produced exactly under the condition the order of the
      `switch` gives it: its own patterns match and no earlier case does. */
  lemma MissingStateExactly(msg: string)
    ensures FormatPullErrorMessage(msg) == MissingStateText <==> Contains(msg, NoStateFile)
  {
    if FormatPullErrorMessage(msg) == MissingStateText {
      TextDeterminesRemediation(Classify(msg), msg, MissingState, msg);
    }
  }

  lemma AccessDeniedExactly(msg: string)
    ensures FormatPullErrorMessage(msg) == AccessDeniedText <==>
      !Contains(msg, NoStateFile)
      && (Contains(msg, AccessDeniedPattern) || Contains(msg, PermissionDeniedPattern))
  {
  }

  lemma TimeoutExactly(msg: string)
    ensures FormatPullErrorMessage(msg) == TimeoutText <==>
      !Contains(msg, NoStateFile)
      && !Contains(msg, AccessDeniedPattern) && !Contains(msg, PermissionDeniedPattern)
      && (Contains(msg, DeadlineExceeded) || Contains(msg, TimeoutPattern))
  {
  }

  lemma UnresolvedHostExactly(msg: string)
    ensures FormatPullErrorMessage(msg) == UnresolvedHostText <==>
      !Contains(msg, NoStateFile)
      && !Contains(msg, AccessDeniedPattern) && !Contains(msg, PermissionDeniedPattern)
      && !Contains(msg, DeadlineExceeded) && !Contains(msg, TimeoutPattern)
      && Contains(msg, NoSuchHost)
  {
  }

  /** A timeout that also mentions an unknown host is reported as a timeout. */
  lemma TimeoutBeatsUnresolvedHost(msg: string)
    requires !Contains(msg, NoStateFile)
    requires !Contains(msg, AccessDeniedPattern) && !Contains(msg, PermissionDeniedPattern)
    requires Contains(msg, DeadlineExceeded) || Contains(msg, TimeoutPattern)
    requires Contains(msg, NoSuchHost)
    ensures FormatPullErrorMessage(msg) == TimeoutText
    ensures FormatPullErrorMessage(msg) != UnresolvedHostText
  {
  }

  /** A message matching no pattern is echoed after a fixed prefix and
      followed by the four troubleshooting steps. */
  lemma FallbackEchoesError(msg: string)
    requires !Contains(msg, NoStateFile)
    requires !Contains(msg, AccessDeniedPattern) && !Contains(msg, PermissionDeniedPattern)
    requires !Contains(msg, DeadlineExceeded) && !Contains(msg, TimeoutPattern)
    requires !Contains(msg, NoSuchHost)
    ensures var text := FormatPullErrorMessage(msg);
      && text == GenericPrefix + msg + TroubleshootingSteps
      && text[..|GenericPrefix|] == GenericPrefix
      && text[|GenericPrefix|..|GenericPrefix| + |msg|] == msg
      && Contains(text, msg)
  {
    var text := FormatPullErrorMessage(msg);
    ContainsMiddle(GenericPrefix, msg, TroubleshootingSteps);
    assert text[..|GenericPrefix|] == GenericPrefix;
    assert text[|GenericPrefix|..|GenericPrefix| + |msg|] == msg;
  }

  /** A catch-all text is produced exactly for messages matching no pattern. */
  lemma GenericExactly(msg: string)
    ensures (exists m :: FormatPullErrorMessage(msg) == RemediationText(Generic, m)) <==>
      Classify(msg) == Generic
  {
    if exists m :: FormatPullErrorMessage(msg) == RemediationText(Generic, m) {
      var m :| FormatPullErrorMessage(msg) == RemediationText(Generic, m);
      TextDeterminesRemediation(Classify(msg), msg, Generic, m);
    }
    if Classify(msg) == Generic {
      assert FormatPullErrorMessage(msg) == RemediationText(Generic, msg);
    }
  }

  /** A data-driven reading of the classifier: an ordered table of
      (patterns, outcome) rows, tried top to bottom, with a catch-all. */
  datatype Rule = Rule(patterns: seq<string>, outcome: Remediation)

  const Rules: seq<Rule> := [
    Rule([NoStateFile], MissingState),
    Rule([AccessDeniedPattern, PermissionDeniedPattern], AccessDenied),
    Rule([DeadlineExceeded, TimeoutPattern], Timeout),
    Rule([NoSuchHost], UnresolvedHost)
  ]

  predicate AnyContains(msg: string, patterns: seq<string>)
  {
    exists i :: 0 <= i < |patterns| && Contains(msg, patterns[i])
  }

  function FirstMatch(rules: seq<Rule>, msg: string): Remediation
  {
    if rules == [] then Generic
    else if AnyContains(msg, rules[0].patterns) then rules[0].outcome
    else FirstMatch(rules[1..], msg)
  }

  /** The `switch` agrees with the rule table on every message. */
  lemma ClassifyFollowsRuleTable(msg: string)
    ensures Classify(msg) == FirstMatch(Rules, msg)
  {
    var r1, r2, r3, r4 := Rules[0], Rules[1], Rules[2], Rules[3];
    var t1, t2, t3, t4 := Rules[1..], Rules[2..], Rules[3..], Rules[4..];
    assert t1[0] == r2 && t1[1..] == t2;
    assert t2[0] == r3 && t2[1..] == t3;
    assert t3[0] == r4 && t3[1..] == t4 && t4 == [];
    assert AnyContains(msg, r1.patterns) <==> Contains(msg, NoStateFile) by {
      assert r1.patterns[0] == NoStateFile;
    }
    assert AnyContains(msg, r2.patterns) <==>
      Contains(msg, AccessDeniedPattern) || Contains(msg, PermissionDeniedPattern) by {
      assert r2.patterns[0] == AccessDeniedPattern && r2.patterns[1] == PermissionDeniedPattern;
    }
    assert AnyContains(msg, r3.patterns) <==>
      Contains(msg, DeadlineExceeded) || Contains(msg, TimeoutPattern) by {
      assert r3.patterns[0] == DeadlineExceeded && r3.patterns[1] == TimeoutPattern;
    }
    assert AnyContains(msg, r4.patterns) <==> Contains(msg, NoSuchHost) by {
      assert r4.patterns[0] == NoSuchHost;
    }
    assert FirstMatch(t3, msg) == if AnyContains(msg, r4.patterns) then UnresolvedHost else Generic;
    assert FirstMatch(t2, msg) == if AnyContains(msg, r3.patterns) then Timeout else FirstMatch(t3, msg);
    assert FirstMatch(t1, msg) == if AnyContains(msg, r2.patterns) then AccessDenied else FirstMatch(t2, msg);
    assert FirstMatch(Rules, msg) == if AnyContains(msg, r1.patterns) then MissingState else FirstMatch(t1, msg);
  }

  /** A message lacking a character of each earlier pattern and holding
      "no such host" is an unresolved host. */
  lemma UnresolvedHostByCharacters(msg: string, k: nat)
    requires 'f' !in msg && 'a' !in msg && 'p' !in msg && 'x' !in msg && 'm' !in msg
    requires OccursAt(msg, NoSuchHost, k)
    ensures Classify(msg) == UnresolvedHost
  {
    NotContainedByMissingChar(msg, NoStateFile, 'f');
    NotContainedByMissingChar(msg, AccessDeniedPattern, 'a');
    NotContainedByMissingChar(msg, PermissionDeniedPattern, 'p');
    NotContainedByMissingChar(msg, DeadlineExceeded, 'x');
    NotContainedByMissingChar(msg, TimeoutPattern, 'm');
    OccurrenceIsFound(msg, NoSuchHost, k);
  }

  /** "connection: no such host" is reported as an unresolved host, not with
      the catch-all text. */
  lemma UnresolvedHostScenario(msg: string)
    requires msg == "connection: no such host"
    ensures FormatPullErrorMessage(msg) == UnresolvedHostText
  {
    ConnectionMessageCharacters(msg);
    UnresolvedHostByCharacters(msg, 12);
  }

  /** The characters of "connection: no such host" that the scenario relies
      on: none of 'f', 'a', 'p', 'x' or 'm', and "no such host" at 12. */
  lemma ConnectionMessageCharacters(msg: string)
    requires msg == "connection: no such host"
    ensures 'f' !in msg && 'a' !in msg && 'p' !in msg && 'x' !in msg && 'm' !in msg
    ensures OccursAt(msg, NoSuchHost, 12)
  {
    assert msg[12..24] == NoSuchHost;
  }
}
