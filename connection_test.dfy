/**
 * The connection test of an account: testConfiguration starts a folder-list
 * retrieval; activityChanged reacts to the activity reports of the
 * retrieval and transmit actions. A successful retrieval starts a transmit,
 * a successful transmit ends the test with testSucceeded, and a failure of
 * either records the action's status as the account's error and ends the
 * test with testFailed naming the server that failed.
 *
 * The object that sent a report (Qt's sender()) and the action's status at
 * that moment are given explicitly with each report.
 */
module ConnectionTest {
  import opened Wrappers
  import opened AccountIds

  /** QMailServiceAction::Activity. */
  datatype Activity = Pending | InProgress | Successful | Failed

  /** The object that reported an activity change. */
  datatype Sender = RetrievalAction | TransmitAction | OtherSender

  /** QMailServiceAction::Status, the part the account copies. */
  datatype Status = Status(text: string, errorCode: int)

  /** What a failed test names as the cause. */
  datatype ServerType = IncomingServer | OutgoingServer | InvalidAccount

  /** The signals the test emits. */
  datatype Signal = TestFailed(server: ServerType) | TestSucceeded

  /** A service action the account starts. */
  datatype Request = RetrieveFolderList(account: Uint64) | TransmitMessages(account: Uint64)

  /** What one step does: the action it starts, the signal it emits, the error it records. */
  datatype Reaction = Reaction(request: Option<Request>, signal: Option<Signal>, error: Option<Status>)

  /** One activity report. */
  datatype Event = Event(sender: Sender, activity: Activity, status: Status)

  /** testConfiguration(): retrieve the folder list of a valid account, fail at once otherwise. */
  function TestStart(id: Uint64): (r: Reaction)
    ensures r.error.None?
    ensures IsValid(id) ==> r.request == Some(RetrieveFolderList(id)) && r.signal.None?
    ensures !IsValid(id) ==> r.request.None? && r.signal == Some(TestFailed(InvalidAccount))
  {
    if IsValid(id) then Reaction(Some(RetrieveFolderList(id)), None, None)
    else Reaction(None, Some(TestFailed(InvalidAccount)), None)
  }

  /** activityChanged(activity) reported by sender whose status is status, for the account with id. */
  function React(e: Event, id: Uint64): (r: Reaction)
    ensures r.error.Some? <==> IsFailure(e)
    ensures r.error.Some? ==> r.error.value == e.status
    ensures r.request.Some? <==> e.sender == RetrievalAction && e.activity == Successful
    ensures r.request.Some? ==> r.request.value == TransmitMessages(id)
    ensures r.signal == Some(TestSucceeded) <==> e.sender == TransmitAction && e.activity == Successful
    ensures r.signal == Some(TestFailed(IncomingServer)) <==> e.sender == RetrievalAction && e.activity == Failed
    ensures r.signal == Some(TestFailed(OutgoingServer)) <==> e.sender == TransmitAction && e.activity == Failed
    ensures r.signal != Some(TestFailed(InvalidAccount))
  {
    match e.sender
    case RetrievalAction =>
      if e.activity == Successful then Reaction(Some(TransmitMessages(id)), None, None)
      else if e.activity == Failed then Reaction(None, Some(TestFailed(IncomingServer)), Some(e.status))
      else Reaction(None, None, None)
    case TransmitAction =>
      if e.activity == Successful then Reaction(None, Some(TestSucceeded), None)
      else if e.activity == Failed then Reaction(None, Some(TestFailed(OutgoingServer)), Some(e.status))
      else Reaction(None, None, None)
    case OtherSender => Reaction(None, None, None)
  }

  /** Reports that are neither a success nor a failure change nothing and emit nothing. */
  lemma ProgressIsSilent(e: Event, id: Uint64)
    requires e.activity == Pending || e.activity == InProgress
    ensures React(e, id) == Reaction(None, None, None)
  {
  }

  /** A report after which the account records an error. */
  predicate IsFailure(e: Event) {
    e.activity == Failed && e.sender != OtherSender
  }

  /** The signals a sequence of reports emits, in order. */
  function Signals(events: seq<Event>, id: Uint64): seq<Signal>
  {
    if events == [] then []
    else
      var r := React(events[|events| - 1], id);
      Signals(events[..|events| - 1], id) + (if r.signal.Some? then [r.signal.value] else [])
  }

  /** The error held after a sequence of reports, starting from initial. */
  function ErrorAfter(events: seq<Event>, initial: Status): Status
  {
    if events == [] then initial
    else
      var e := events[|events| - 1];
      if IsFailure(e) then e.status else ErrorAfter(events[..|events| - 1], initial)
  }

  /** testSucceeded is emitted exactly when some report is a successful transmit. */
  lemma {:induction false} SucceededIffTransmitSucceeded(events: seq<Event>, id: Uint64)
    ensures TestSucceeded in Signals(events, id) <==>
      exists i :: 0 <= i < |events| && events[i].sender == TransmitAction && events[i].activity == Successful
  {
    if events != [] {
      var front := events[..|events| - 1];
      SucceededIffTransmitSucceeded(front, id);
      var last := events[|events| - 1];
      if TestSucceeded in Signals(events, id) && TestSucceeded !in Signals(front, id) {
        assert last.sender == TransmitAction && last.activity == Successful;
      }
      if exists i :: 0 <= i < |front| && front[i].sender == TransmitAction && front[i].activity == Successful {
        var i :| 0 <= i < |front| && front[i].sender == TransmitAction && front[i].activity == Successful;
        assert events[i] == front[i];
      }
      if exists i :: 0 <= i < |events| && events[i].sender == TransmitAction && events[i].activity == Successful {
        var i :| 0 <= i < |events| && events[i].sender == TransmitAction && events[i].activity == Successful;
        if i < |front| {
          assert front[i] == events[i];
        }
      }
    }
  }

  /** Without a failure report the error stays as it was. */
  lemma {:induction false} NoFailureKeepsError(events: seq<Event>, initial: Status)
    requires forall i :: 0 <= i < |events| ==> !IsFailure(events[i])
    ensures ErrorAfter(events, initial) == initial
  {
    if events != [] {
      var front := events[..|events| - 1];
      assert forall i :: 0 <= i < |front| ==> front[i] == events[i];
      NoFailureKeepsError(front, initial);
    }
  }

  /** After a failure report the error is that report's status until the next failure. */
  lemma {:induction false} ErrorIsLastFailure(events: seq<Event>, initial: Status, k: nat)
    requires k < |events| && IsFailure(events[k])
    requires forall i :: k < i < |events| ==> !IsFailure(events[i])
    ensures ErrorAfter(events, initial) == events[k].status
  {
    if k < |events| - 1 {
      var front := events[..|events| - 1];
      assert forall i :: k < i < |front| ==> front[i] == events[i];
      ErrorIsLastFailure(front, initial, k);
    }
  }
}
