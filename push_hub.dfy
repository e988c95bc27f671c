/** The push-event consumer of `PushImage` (internal/docker/pushHub.go,
    lines 19-94). The registry's reply is a stream of JSON objects; JSON
    decoding is outside the model, so the stream is given as the sequence of
    what each `decoder.Decode` call produced, and the call after the last
    element reports the end of the stream. */
module PushHub {
  import opened Wrappers
  import opened Text

  /** One decoded `jsonMessage`; absent fields are empty strings. */
  datatype Event = Event(status: string, progress: string, error: string)

  /** What one `decoder.Decode` call produced: an event, or any decode
      error, read errors included (a closed stream, a passed deadline) as
      well as input that is not a JSON object of that shape. */
  datatype Decoded = Message(event: Event) | Malformed(reason: string)

  const LayerAlreadyExists := "Layer already exists"
  const PushedMarker := "Pushed"
  const InitialTitle := "Push Progress"
  const PushErrorPrefix := "push error: "

  /** The spinner's text when the stream is opened. */
  function PushingText(image: string): string
  {
    "Pushing image " + image + "..."
  }

  /** The events decoded before the loop stops decoding: those up to the
      first malformed entry, or all of them. */
  function DecodedEvents(stream: seq<Decoded>): (events: seq<Event>)
    ensures |events| <= |stream|
    ensures forall i :: 0 <= i < |events| ==> stream[i] == Message(events[i])
    ensures |events| < |stream| ==> stream[|events|].Malformed?
  {
    if stream == [] then []
    else match stream[0]
      case Malformed(_) => []
      case Message(e) => [e] + DecodedEvents(stream[1..])
  }

  /** The position of the first event carrying an error, or the number of
      events when none does. */
  function FirstError(events: seq<Event>): (k: nat)
    ensures k <= |events|
    ensures forall j :: 0 <= j < k ==> events[j].error == ""
    ensures k < |events| ==> events[k].error != ""
  {
    if events == [] then 0
    else if events[0].error != "" then 0
    else 1 + FirstError(events[1..])
  }

  /** The events whose status and progress the loop acts on. */
  function Processed(stream: seq<Decoded>): seq<Event>
  {
    var events := DecodedEvents(stream);
    events[..FirstError(events)]
  }

  /** The registry-reported error that aborts the push, if any. */
  function PushFailure(stream: seq<Decoded>): Option<string>
  {
    var events := DecodedEvents(stream);
    var k := FirstError(events);
    if k < |events| then Some(events[k].error) else None
  }

  /** How many `decoder.Decode` calls the loop makes. */
  function DecodeCalls(stream: seq<Decoded>): nat
  {
    var events := DecodedEvents(stream);
    var k := FirstError(events);
    if k < |events| then k + 1 else |events| + 1
  }

  /** The progress one event with this status adds. */
  function Increment(status: string): (n: nat)
    ensures Contains(status, LayerAlreadyExists) ==> n == 10
    ensures !Contains(status, LayerAlreadyExists) && Contains(status, PushedMarker) ==> n == 15
    ensures !Contains(status, LayerAlreadyExists) && !Contains(status, PushedMarker) ==> n == 0
  {
    if status == "" then 0
    else if Contains(status, LayerAlreadyExists) then 10
    else if Contains(status, PushedMarker) then 15
    else 0
  }

  /** Progress accumulated over a sequence of processed events. */
  function Progress(events: seq<Event>): nat
  {
    if events == [] then 0
    else Progress(events[..|events| - 1]) + Increment(events[|events| - 1].status)
  }

  /** The spinner's text after these events: the last non-empty status. */
  function LastStatus(initial: string, events: seq<Event>): string
  {
    if events == [] then initial
    else if events[|events| - 1].status != "" then events[|events| - 1].status
    else LastStatus(initial, events[..|events| - 1])
  }

  /** The progress bar's title after these events: built from the last event
      with a non-empty progress text. */
  function Title(initial: string, events: seq<Event>): string
  {
    if events == [] then initial
    else
      var e := events[|events| - 1];
      if e.progress != "" then e.status + ": " + e.progress
      else Title(initial, events[..|events| - 1])
  }

  /** The decode loop of `PushImage`, lines 61-93. `err` is the error the
      function returns, `progress` the total added to the progress bar,
      `status` the spinner's text and `title` the progress bar's title when
      the loop ends, and `decoded` the number of `Decode` calls made. */
  method ConsumePushStream(image: string, stream: seq<Decoded>)
    returns (err: Option<string>, progress: nat, status: string, title: string, decoded: nat)
    ensures err == (if PushFailure(stream).Some? then Some(PushErrorPrefix + PushFailure(stream).value) else None)
    ensures progress == Progress(Processed(stream))
    ensures status == LastStatus(PushingText(image), Processed(stream))
    ensures title == Title(InitialTitle, Processed(stream))
    ensures decoded == DecodeCalls(stream)
  {
    ghost var events := DecodedEvents(stream);
    progress, status, title := 0, PushingText(image), InitialTitle;
    var i := 0;
    while i < |stream|
      invariant i <= |events|
      invariant i <= FirstError(events)
      invariant progress == Progress(events[..i])
      invariant status == LastStatus(PushingText(image), events[..i])
      invariant title == Title(InitialTitle, events[..i])
    {
      if stream[i].Malformed? {
        break;
      }
      var msg := stream[i].event;
      assert i < |events| && events[i] == msg;
      if msg.error != "" {
        assert FirstError(events) == i by {
          FirstErrorIsFirst(events, i);
        }
        return Some(PushErrorPrefix + msg.error), progress, status, title, i + 1;
      }
      assert i < FirstError(events);
      ExtendByOne(PushingText(image), InitialTitle, events, i);
      progress, status, title := ApplyEvent(msg, progress, status, title);
      i := i + 1;
    }
    assert i == |events|;
    assert FirstError(events) == i by {
      FirstErrorIsFirst(events, i);
    }
    assert events[..i] == events;
    err, decoded := None, i + 1;
  }

  /** The body of the decode loop for an error-free event: the progress bar
      grows by 10 for an existing layer and by 15 for a pushed one, a
      non-empty status replaces the spinner's text, and a non-empty progress
      text retitles the bar. */
  method ApplyEvent(msg: Event, progress: nat, status: string, title: string)
    returns (progress': nat, status': string, title': string)
    ensures progress' == progress + Increment(msg.status)
    ensures status' == if msg.status != "" then msg.status else status
    ensures title' == if msg.progress != "" then msg.status + ": " + msg.progress else title
  {
    progress', status', title' := progress, status, title;
    if msg.status != "" {
      if Contains(msg.status, LayerAlreadyExists) {
        progress' := progress' + 10;
      } else if Contains(msg.status, PushedMarker) {
        progress' := progress' + 15;
      }
      status' := msg.status;
    }
    if msg.progress != "" {
      title' := msg.status + ": " + msg.progress;
    }
  }

  /** What one more processed event does to the spinner, the bar and its
      title. */
  lemma ExtendByOne(initialStatus: string, initialTitle: string, events: seq<Event>, i: nat)
    requires i < |events|
    ensures Progress(events[..i + 1]) == Progress(events[..i]) + Increment(events[i].status)
    ensures LastStatus(initialStatus, events[..i + 1])
         == if events[i].status != "" then events[i].status else LastStatus(initialStatus, events[..i])
    ensures Title(initialTitle, events[..i + 1])
         == if events[i].progress != "" then events[i].status + ": " + events[i].progress
            else Title(initialTitle, events[..i])
  {
    assert events[..i + 1][..i] == events[..i];
  }

  /** Any position with an error that follows only error-free events is the
      first error. */
  lemma FirstErrorIsFirst(events: seq<Event>, k: nat)
    requires k <= |events|
    requires forall j :: 0 <= j < k ==> events[j].error == ""
    requires k < |events| ==> events[k].error != ""
    ensures FirstError(events) == k
  {
  }

  /** "Layer already exists" takes precedence over "Pushed"; any other
      status, the empty one included, adds nothing. */
  lemma IncrementPrecedence(status: string)
    ensures Contains(status, LayerAlreadyExists) ==> Increment(status) == 10
    ensures !Contains(status, LayerAlreadyExists) && Contains(status, PushedMarker) ==> Increment(status) == 15
    ensures !Contains(status, LayerAlreadyExists) && !Contains(status, PushedMarker) ==> Increment(status) == 0
    ensures status == "" ==> Increment(status) == 0
  {
  }

  /** Positions of events whose status reports a layer already present. */
  function LayerExistsAt(events: seq<Event>): set<nat>
  {
    set i: nat | i < |events| && Contains(events[i].status, LayerAlreadyExists)
  }

  /** Positions of events whose status reports a pushed layer, and not one
      already present. */
  function PushedAt(events: seq<Event>): set<nat>
  {
    set i: nat | i < |events| && ReportsPushedOnly(events[i].status)
  }

  /** A status that counts as a pushed layer: it says "Pushed" and does not
      say "Layer already exists", which is checked first. */
  predicate ReportsPushedOnly(status: string)
  {
    !Contains(status, LayerAlreadyExists) && Contains(status, PushedMarker)
  }

  /** One more event adds its own position to `LayerExistsAt` or nothing. */
  lemma LayerExistsAtExtend(events: seq<Event>)
    requires events != []
    ensures |LayerExistsAt(events)| == |LayerExistsAt(events[..|events| - 1])|
      + (if Contains(events[|events| - 1].status, LayerAlreadyExists) then 1 else 0)
  {
    var n := |events| - 1;
    var front := events[..n];
    var added: set<nat> := if Contains(events[n].status, LayerAlreadyExists) then {n} else {};
    assert LayerExistsAt(events) == LayerExistsAt(front) + added by {
      forall i: nat | i < |events|
        ensures i in LayerExistsAt(events) <==> i in LayerExistsAt(front) + added
      {
        if i < n {
          assert front[i] == events[i];
        }
      }
    }
    assert n !in LayerExistsAt(front);
  }

  /** One more event adds its own position to `PushedAt` or nothing. */
  lemma PushedAtExtend(events: seq<Event>)
    requires events != []
    ensures |PushedAt(events)| == |PushedAt(events[..|events| - 1])|
      + (if ReportsPushedOnly(events[|events| - 1].status) then 1 else 0)
  {
    var n := |events| - 1;
    var front := events[..n];
    var added: set<nat> := if ReportsPushedOnly(events[n].status) then {n} else {};
    assert PushedAt(events) == PushedAt(front) + added by {
      forall i: nat | i < |events|
        ensures i in PushedAt(events) <==> i in PushedAt(front) + added
      {
        if i < n {
          assert front[i] == events[i];
        }
      }
    }
    assert n !in PushedAt(front);
  }

  /** The progress total is 10 per "Layer already exists" event plus 15 per
      other "Pushed" event. */
  lemma {:induction false} ProgressTotal(events: seq<Event>)
    ensures Progress(events) == 10 * |LayerExistsAt(events)| + 15 * |PushedAt(events)|
  {
    if events != [] {
      var n := |events| - 1;
      var front, e := events[..n], events[n];
      ProgressTotal(front);
      IncrementPrecedence(e.status);
      LayerExistsAtExtend(events);
      PushedAtExtend(events);
    }
  }

  /** Progress never decreases as events are processed. */
  lemma {:induction false} ProgressMonotone(events: seq<Event>, j: nat)
    requires j <= |events|
    ensures Progress(events[..j]) <= Progress(events)
    decreases |events|
  {
    if j < |events| {
      var front := events[..|events| - 1];
      assert events[..j] == front[..j];
      ProgressMonotone(front, j);
    } else {
      assert events[..j] == events;
    }
  }

  /** Events that all carry the same status add that status's increment
      each: the total is not capped. */
  lemma {:induction false} UniformProgress(events: seq<Event>, status: string)
    requires forall i :: 0 <= i < |events| ==> events[i].status == status
    ensures Progress(events) == |events| * Increment(status)
  {
    if events != [] {
      UniformProgress(events[..|events| - 1], status);
    }
  }

  /** Seven "Pushed" events take the progress to 105, past the bar's total
      of 100. */
  lemma ProgressExceedsBarTotal(events: seq<Event>)
    requires |events| == 7
    requires forall i :: 0 <= i < |events| ==> events[i] == Event(PushedMarker, "", "")
    ensures Progress(events) == 105
  {
    UniformProgress(events, PushedMarker);
    assert OccursAt(PushedMarker, PushedMarker, 0);
    OccurrenceIsFound(PushedMarker, PushedMarker, 0);
  }

  /** The spinner shows the status of the last event that had one. */
  lemma {:induction false} LastStatusIsLastNonEmpty(initial: string, events: seq<Event>, j: nat)
    requires j < |events| && events[j].status != ""
    requires forall l :: j < l < |events| ==> events[l].status == ""
    ensures LastStatus(initial, events) == events[j].status
    decreases |events|
  {
    if j < |events| - 1 {
      LastStatusIsLastNonEmpty(initial, events[..|events| - 1], j);
    }
  }

  /** With no status among the events the spinner keeps its text. */
  lemma {:induction false} LastStatusKeepsInitial(initial: string, events: seq<Event>)
    requires forall l :: 0 <= l < |events| ==> events[l].status == ""
    ensures LastStatus(initial, events) == initial
  {
    if events != [] {
      LastStatusKeepsInitial(initial, events[..|events| - 1]);
    }
  }

  /** The title comes from the last event with a progress text, and uses
      that event's status even when it is empty. */
  lemma {:induction false} TitleFromLastProgress(initial: string, events: seq<Event>, j: nat)
    requires j < |events| && events[j].progress != ""
    requires forall l :: j < l < |events| ==> events[l].progress == ""
    ensures Title(initial, events) == events[j].status + ": " + events[j].progress
    decreases |events|
  {
    if j < |events| - 1 {
      TitleFromLastProgress(initial, events[..|events| - 1], j);
    }
  }

  /** With no progress text among the events the title stays as it was. */
  lemma {:induction false} TitleKeepsInitial(initial: string, events: seq<Event>)
    requires forall l :: 0 <= l < |events| ==> events[l].progress == ""
    ensures Title(initial, events) == initial
  {
    if events != [] {
      TitleKeepsInitial(initial, events[..|events| - 1]);
    }
  }

  /** Two streams that agree on their first `m` entries, all events, decode
      the same first `m` events. */
  lemma {:induction false} DecodingAgreesOnPrefix(s: seq<Decoded>, t: seq<Decoded>, m: nat)
    requires m <= |s| && m <= |t| && s[..m] == t[..m]
    requires forall i :: 0 <= i < m ==> s[i].Message?
    ensures m <= |DecodedEvents(s)| && m <= |DecodedEvents(t)|
    ensures DecodedEvents(s)[..m] == DecodedEvents(t)[..m]
  {
    if m > 0 {
      assert s[0] == s[..m][0] == t[..m][0] == t[0];
      var e := s[0].event;
      assert s[1..][..m - 1] == s[..m][1..] == t[..m][1..] == t[1..][..m - 1];
      DecodingAgreesOnPrefix(s[1..], t[1..], m - 1);
      assert DecodedEvents(s) == [e] + DecodedEvents(s[1..]);
      assert DecodedEvents(t) == [e] + DecodedEvents(t[1..]);
      assert DecodedEvents(s)[..m] == [e] + DecodedEvents(s[1..])[..m - 1];
      assert DecodedEvents(t)[..m] == [e] + DecodedEvents(t[1..])[..m - 1];
    }
  }

  /** Decoding stops at a malformed entry: what follows it is never used. */
  lemma {:induction false} DecodingStopsAtMalformed(s: seq<Decoded>, t: seq<Decoded>, m: nat)
    requires m < |s| && m < |t| && s[..m + 1] == t[..m + 1] && s[m].Malformed?
    ensures DecodedEvents(s) == DecodedEvents(t)
  {
    assert s[0] == s[..m + 1][0] == t[..m + 1][0] == t[0];
    if m > 0 && s[0].Message? {
      assert s[1..][..m] == s[..m + 1][1..] == t[..m + 1][1..] == t[1..][..m];
      assert s[1..][m - 1] == s[m];
      DecodingStopsAtMalformed(s[1..], t[1..], m - 1);
    }
  }

  /** Once the loop stops at an error event or a malformed entry, nothing
      after the entries it decoded is examined: replacing the rest of the
      stream changes neither what is processed nor the outcome. */
  lemma LaterEntriesIgnored(stream: seq<Decoded>, rest: seq<Decoded>)
    requires DecodeCalls(stream) <= |stream|
    ensures var cut := stream[..DecodeCalls(stream)] + rest;
      && Processed(cut) == Processed(stream)
      && PushFailure(cut) == PushFailure(stream)
      && DecodeCalls(cut) == DecodeCalls(stream)
  {
    var n := DecodeCalls(stream);
    var cut := stream[..n] + rest;
    var events := DecodedEvents(stream);
    var k := FirstError(events);
    assert cut[..n] == stream[..n];
    if k < |events| {
      DecodingAgreesOnPrefix(stream, cut, k + 1);
      var cutEvents := DecodedEvents(cut);
      assert forall j :: 0 <= j <= k ==> cutEvents[j] == events[j] by {
        forall j | 0 <= j <= k ensures cutEvents[j] == events[j] {
          assert cutEvents[..k + 1][j] == events[..k + 1][j];
        }
      }
      FirstErrorIsFirst(cutEvents, k);
      assert cutEvents[..k] == events[..k];
    } else {
      DecodingStopsAtMalformed(stream, cut, |events|);
    }
  }

  /** A malformed entry ends the push exactly as the end of the stream does:
      successfully, unless an earlier event reported an error. */
  lemma {:induction false} MalformedActsAsEnd(events: seq<Decoded>, reason: string, rest: seq<Decoded>)
    requires forall i :: 0 <= i < |events| ==> events[i].Message?
    ensures DecodedEvents(events + [Malformed(reason)] + rest) == DecodedEvents(events)
    ensures |DecodedEvents(events)| == |events|
  {
    if events != [] {
      assert (events + [Malformed(reason)] + rest)[1..] == events[1..] + [Malformed(reason)] + rest;
      MalformedActsAsEnd(events[1..], reason, rest);
    }
  }

  /** So the outcome after a malformed entry is that of the stream cut off there. */
  lemma MalformedOutcome(events: seq<Decoded>, reason: string, rest: seq<Decoded>)
    requires forall i :: 0 <= i < |events| ==> events[i].Message?
    ensures var s := events + [Malformed(reason)] + rest;
      && Processed(s) == Processed(events)
      && PushFailure(s) == PushFailure(events)
      && DecodeCalls(s) == DecodeCalls(events)
  {
    MalformedActsAsEnd(events, reason, rest);
  }

  /** An event carrying an error is not processed even when its status says
      "Pushed": the push fails at once and nothing is added. */
  lemma ErrorCheckedFirst(e: Event, rest: seq<Decoded>)
    requires e.error != ""
    ensures Processed([Message(e)] + rest) == []
    ensures Progress(Processed([Message(e)] + rest)) == 0
    ensures PushFailure([Message(e)] + rest) == Some(e.error)
    ensures DecodeCalls([Message(e)] + rest) == 1
  {
  }

  /** `[{status:"Layer already exists"}, {status:"Pushed"}]` then the end:
      progress 25, success, the spinner showing "Pushed". */
  lemma LayerThenPushedScenario(stream: seq<Decoded>)
    requires stream == [Message(Event(LayerAlreadyExists, "", "")), Message(Event(PushedMarker, "", ""))]
    ensures PushFailure(stream) == None
    ensures Progress(Processed(stream)) == 25
    ensures LastStatus("", Processed(stream)) == PushedMarker
    ensures DecodeCalls(stream) == 3
  {
    var a, b := Event(LayerAlreadyExists, "", ""), Event(PushedMarker, "", "");
    assert stream[1..] == [Message(b)] && stream[1..][1..] == [];
    assert DecodedEvents(stream) == [a, b];
    assert [a, b][1..] == [b];
    assert FirstError([a, b]) == 2;
    assert Processed(stream) == [a, b];
    OccurrenceIsFound(LayerAlreadyExists, LayerAlreadyExists, 0);
    OccurrenceIsFound(PushedMarker, PushedMarker, 0);
    assert Increment(a.status) == 10 && Increment(b.status) == 15;
    assert [a, b][..1] == [a] && [a][..0] == [];
    assert Progress([a]) == 10;
  }

  /** `[{error:"unauthorized"}, ...]`: the push fails with "push error:
      unauthorized" and no progress. */
  lemma UnauthorizedScenario(stream: seq<Decoded>)
    requires |stream| >= 1 && stream[0] == Message(Event("", "", "unauthorized"))
    ensures PushFailure(stream) == Some("unauthorized")
    ensures Progress(Processed(stream)) == 0
    ensures DecodeCalls(stream) == 1
  {
  }

  /** `PushImage(opts)` from the creation of the client on. The client, the
      authentication encoding and the push request are external; their
      errors are inputs. `started` says whether the pushed stream was read. */
  method PushImage(image: string, clientError: Option<string>, authError: Option<string>,
                   requestError: Option<string>, stream: seq<Decoded>)
    returns (err: Option<string>, started: bool)
    ensures started <==> clientError.None? && authError.None? && requestError.None?
    ensures clientError.Some? ==> err == Some("docker client init failed: " + clientError.value)
    ensures clientError.None? && authError.Some? ==> err == Some("auth encoding failed: " + authError.value)
    ensures clientError.None? && authError.None? && requestError.Some? ==>
      err == Some("push failed: " + requestError.value)
    ensures started ==>
      err == (if PushFailure(stream).Some? then Some(PushErrorPrefix + PushFailure(stream).value) else None)
  {
    if clientError.Some? {
      return Some("docker client init failed: " + clientError.value), false;
    }
    if authError.Some? {
      return Some("auth encoding failed: " + authError.value), false;
    }
    if requestError.Some? {
      return Some("push failed: " + requestError.value), false;
    }
    var progress, status, title, decoded;
    err, progress, status, title, decoded := ConsumePushStream(image, stream);
    started := true;
  }
}
