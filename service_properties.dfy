/** What one poll cycle promises, stated over the trace of collaborator
    calls and the statuses it commits. */
module ServiceProperties {
  import opened Lang
  import opened Records
  import opened Support
  import opened Converter
  import opened Listener
  import opened Model
  import opened Service

  /** The endpoint's error handler, if it has one, never throws. */
  ghost predicate NeverRethrows(ep: StreamListenerEndpoint, d: Descriptor)
  {
    d.errorHandler.Some? ==>
      forall rs: seq<Record>, ex: Exception :: d.errorHandler.value.handleList(rs, ex, ep).Answered?
  }

  /** In single-record mode the record is skipped: a filter is configured
      and returns false for it. */
  predicate Skips(filter: Option<RecordFilter>, r: Record) {
    filter.Some? && !filter.value(r)
  }

  function SkipFilter(filter: Option<RecordFilter>): RecordFilter {
    r => Skips(filter, r)
  }

  /** The handler invocations of a trace, in order. */
  function Invocations(events: seq<Event>): seq<Invocation> {
    if events == [] then []
    else (if events[0].Invoked? then [events[0].arg] else []) + Invocations(events[1..])
  }

  /** The error handler calls of a trace, in order. */
  function ErrorCalls(events: seq<Event>): seq<Event> {
    if events == [] then []
    else (if events[0].ErrorHandled? then [events[0]] else []) + ErrorCalls(events[1..])
  }

  /** The status lists committed in a trace, in order. */
  function Commits(events: seq<Event>): seq<seq<Status>> {
    if events == [] then []
    else (if events[0].Committed? then [events[0].statuses] else []) + Commits(events[1..])
  }

  function Ones(rs: seq<Record>): seq<Invocation> {
    seq(|rs|, i requires 0 <= i < |rs| => One(rs[i]))
  }

  /** The error handler calls single-record mode makes for `rs`: one per
      record that is not skipped and on which the handler throws, carrying a
      one-element list with that record and the handler's exception. */
  function FailedRecordCalls(filter: Option<RecordFilter>, handler: Handler, rs: seq<Record>): seq<Event> {
    if rs == [] then []
    else
      var r := rs[0];
      (if !Skips(filter, r) && handler(One(r)).Threw? then [ErrorHandled([r], handler(One(r)).ex)] else [])
      + FailedRecordCalls(filter, handler, rs[1..])
  }

  lemma {:induction false} InvocationsAppend(a: seq<Event>, b: seq<Event>)
    ensures Invocations(a + b) == Invocations(a) + Invocations(b)
  {
    if a == [] {
      assert a + b == b;
    } else {
      InvocationsAppend(a[1..], b);
      assert (a + b)[1..] == a[1..] + b;
      AppendAssociative(if a[0].Invoked? then [a[0].arg] else [], Invocations(a[1..]), Invocations(b));
    }
  }

  lemma {:induction false} ErrorCallsAppend(a: seq<Event>, b: seq<Event>)
    ensures ErrorCalls(a + b) == ErrorCalls(a) + ErrorCalls(b)
  {
    if a == [] {
      assert a + b == b;
    } else {
      ErrorCallsAppend(a[1..], b);
      assert (a + b)[1..] == a[1..] + b;
      AppendAssociative(if a[0].ErrorHandled? then [a[0]] else [], ErrorCalls(a[1..]), ErrorCalls(b));
    }
  }

  lemma {:induction false} CommitsAppend(a: seq<Event>, b: seq<Event>)
    ensures Commits(a + b) == Commits(a) + Commits(b)
  {
    if a == [] {
      assert a + b == b;
    } else {
      CommitsAppend(a[1..], b);
      assert (a + b)[1..] == a[1..] + b;
      AppendAssociative(if a[0].Committed? then [a[0].statuses] else [], Commits(a[1..]), Commits(b));
    }
  }

  /** What single-record mode promises about the status of one record `r`:
      it carries the record's id; it is SKIPPED exactly when the filter
      returns false, else OK when the handler returns and ERROR, with the
      failure message, when it throws; a SKIPPED status stays successful. */
  predicate StatusFor(filter: Option<RecordFilter>, endpointId: Option<string>, handler: Handler, r: Record, s: Status) {
    var skip := Skips(filter, r);
    var outcome := handler(One(r));
    && s.id == r.id
    && (s.state == Some(SKIPPED) <==> skip)
    && (s.state == Some(OK) <==> !skip && outcome.Completed?)
    && (s.state == Some(ERROR) <==> !skip && outcome.Threw?)
    && (s.success <==> skip || outcome.Completed?)
    && (!skip && outcome.Threw? ==>
          s.errorMessage == Some(RecordFailureMessage(endpointId, r.eventId, outcome.ex.message)))
    && (skip || outcome.Completed? ==> s.errorMessage == None)
  }

  /** One record in single-record mode: its status. */
  lemma RecordStatus(ep: StreamListenerEndpoint, d: Descriptor, handler: Handler, r: Record)
    requires NeverRethrows(ep, d)
    ensures ExecuteRecord(ep, d, handler, r).completion.Done?
    ensures StatusFor(d.recordFilterStrategy, d.id, handler, r, ExecuteRecord(ep, d, handler, r).completion.value)
    ensures var events := ExecuteRecord(ep, d, handler, r).events;
      && Invocations(events) == (if Skips(d.recordFilterStrategy, r) then [] else [One(r)])
      && ErrorCalls(events) ==
           (if d.errorHandler.Some? then FailedRecordCalls(d.recordFilterStrategy, handler, [r]) else [])
      && Commits(events) == []
  {
    RecordTrace(ep, d, handler, r);
  }

  /** One record in single-record mode: its handler invocations. */
  lemma RecordInvocations(ep: StreamListenerEndpoint, d: Descriptor, handler: Handler, r: Record)
    requires NeverRethrows(ep, d)
    ensures ExecuteRecord(ep, d, handler, r).completion.Done?
    ensures Invocations(ExecuteRecord(ep, d, handler, r).events) == (if Skips(d.recordFilterStrategy, r) then [] else [One(r)])
  {
    if !Skips(d.recordFilterStrategy, r) && handler(One(r)).Threw? {
      var ex := handler(One(r)).ex;
      if d.errorHandler.Some? {
        assert d.errorHandler.value.handleList([r], ex, ep).Answered?;
      }
      InvocationsAppend([Invoked(One(r))], HandleRecordError(ep, d, r, ex).events);
    }
  }

  /** One record in single-record mode: its trace. */
  lemma RecordTrace(ep: StreamListenerEndpoint, d: Descriptor, handler: Handler, r: Record)
    requires NeverRethrows(ep, d)
    ensures ExecuteRecord(ep, d, handler, r).completion.Done?
    ensures var events := ExecuteRecord(ep, d, handler, r).events;
      && Invocations(events) == (if Skips(d.recordFilterStrategy, r) then [] else [One(r)])
      && ErrorCalls(events) ==
           (if d.errorHandler.Some? then FailedRecordCalls(d.recordFilterStrategy, handler, [r]) else [])
      && Commits(events) == []
  {
    if !Skips(d.recordFilterStrategy, r) && handler(One(r)).Threw? {
      var ex := handler(One(r)).ex;
      var handled := HandleRecordError(ep, d, r, ex);
      if d.errorHandler.Some? {
        assert d.errorHandler.value.handleList([r], ex, ep).Answered?;
      }
      InvocationsAppend([Invoked(One(r))], handled.events);
      ErrorCallsAppend([Invoked(One(r))], handled.events);
      CommitsAppend([Invoked(One(r))], handled.events);
    }
  }

  /** Single-record mode, when the error handler (if any) does not throw:
      exactly one status per received record, in received order, each as
      `StatusFor` describes. */
  lemma {:induction false} SingleModeStatuses(ep: StreamListenerEndpoint, d: Descriptor, handler: Handler, rs: seq<Record>)
    requires NeverRethrows(ep, d)
    ensures ExecuteRecords(ep, d, handler, rs).completion.Done?
    ensures var ss := ExecuteRecords(ep, d, handler, rs).completion.value;
      && |ss| == |rs|
      && forall i :: 0 <= i < |rs| ==> StatusFor(d.recordFilterStrategy, d.id, handler, rs[i], ss[i])
  {
    if rs != [] {
      RecordStatus(ep, d, handler, rs[0]);
      SingleModeStatuses(ep, d, handler, rs[1..]);
      var s := ExecuteRecord(ep, d, handler, rs[0]).completion.value;
      var rest := ExecuteRecords(ep, d, handler, rs[1..]).completion.value;
      var ss := ExecuteRecords(ep, d, handler, rs).completion.value;
      assert ss == [s] + rest;
      forall i | 0 <= i < |rs|
        ensures StatusFor(d.recordFilterStrategy, d.id, handler, rs[i], ss[i])
      {
        if i > 0 {
          assert ss[i] == rest[i - 1] && rs[i] == rs[1..][i - 1];
        }
      }
    }
  }

  lemma OnesAppend(a: seq<Record>, b: seq<Record>)
    ensures Ones(a + b) == Ones(a) + Ones(b)
  {
  }

  lemma OnesRetainedCons(r: Record, tail: seq<Record>, skip: RecordFilter)
    ensures Ones(Retained([r] + tail, skip)) == (if skip(r) then [] else [One(r)]) + Ones(Retained(tail, skip))
  {
    RetainedCons(r, tail, skip);
    OnesAppend(if skip(r) then [] else [r], Retained(tail, skip));
  }

  /** Single-record mode calls the handler once for each record that is not
      skipped, in received order, and never for a skipped one. */
  lemma {:induction false} SingleModeInvocations(ep: StreamListenerEndpoint, d: Descriptor, handler: Handler, rs: seq<Record>)
    requires NeverRethrows(ep, d)
    ensures Invocations(ExecuteRecords(ep, d, handler, rs).events) == Ones(Retained(rs, SkipFilter(d.recordFilterStrategy)))
  {
    if rs != [] {
      var r, tail := rs[0], rs[1..];
      var skip := SkipFilter(d.recordFilterStrategy);
      var first, rest := ExecuteRecord(ep, d, handler, r).events, ExecuteRecords(ep, d, handler, tail).events;
      RecordsEvents(ep, d, handler, rs);
      RecordInvocations(ep, d, handler, r);
      SingleModeInvocations(ep, d, handler, tail);
      assert skip(r) == Skips(d.recordFilterStrategy, r);
      assert rs == [r] + tail;
      OnesRetainedCons(r, tail, skip);
      InvocationsCons(ExecuteRecords(ep, d, handler, rs).events, first, rest,
                      Ones(Retained(rs, skip)), if skip(r) then [] else [One(r)], Ones(Retained(tail, skip)));
    }
  }

  lemma InvocationsCons(events: seq<Event>, first: seq<Event>, rest: seq<Event>,
                        all: seq<Invocation>, a: seq<Invocation>, b: seq<Invocation>)
    requires events == first + rest && all == a + b
    requires Invocations(first) == a && Invocations(rest) == b
    ensures Invocations(events) == all
  {
    InvocationsAppend(first, rest);
  }

  /** The error handler is called once for each invocation that throws,
      with a one-element list holding that record and the same exception,
      and never when none is configured. */
  lemma {:induction false} SingleModeErrorCalls(ep: StreamListenerEndpoint, d: Descriptor, handler: Handler, rs: seq<Record>)
    requires NeverRethrows(ep, d)
    ensures ErrorCalls(ExecuteRecords(ep, d, handler, rs).events) ==
      (if d.errorHandler.Some? then FailedRecordCalls(d.recordFilterStrategy, handler, rs) else [])
  {
    if rs != [] {
      var first := ExecuteRecord(ep, d, handler, rs[0]);
      var rest := ExecuteRecords(ep, d, handler, rs[1..]);
      RecordsEvents(ep, d, handler, rs);
      SingleModeErrorCalls(ep, d, handler, rs[1..]);
      ErrorCallsAppend(first.events, rest.events);
      FailedRecordCallsCons(d.recordFilterStrategy, handler, rs);
    }
  }

  /** Without a rethrowing error handler, the records' trace is the first
      record's trace followed by the rest's. */
  lemma RecordsEvents(ep: StreamListenerEndpoint, d: Descriptor, handler: Handler, rs: seq<Record>)
    requires NeverRethrows(ep, d) && rs != []
    ensures ExecuteRecords(ep, d, handler, rs).events ==
      ExecuteRecord(ep, d, handler, rs[0]).events + ExecuteRecords(ep, d, handler, rs[1..]).events
  {
    RecordInvocations(ep, d, handler, rs[0]);
  }

  lemma FailedRecordCallsCons(filter: Option<RecordFilter>, handler: Handler, rs: seq<Record>)
    requires rs != []
    ensures FailedRecordCalls(filter, handler, rs) ==
      FailedRecordCalls(filter, handler, [rs[0]]) + FailedRecordCalls(filter, handler, rs[1..])
  {
    assert [rs[0]][1..] == [];
  }

  /** Batch mode, when the error handler (if any) does not throw: the
      handler is invoked once, with the filtered list, and the error handler
      is called once, with that list and the handler's exception, exactly
      when the handler throws and an error handler is configured. */
  lemma BatchModeTrace(ep: StreamListenerEndpoint, d: Descriptor, handler: Handler, rs: seq<Record>)
    requires NeverRethrows(ep, d)
    ensures var kept := Filtered(d.recordFilterStrategy, rs);
      var events := ExecuteBatchSpec(ep, d, handler, rs).events;
      && Invocations(events) == [Many(kept)]
      && ErrorCalls(events) ==
           (if handler(Many(kept)).Threw? && d.errorHandler.Some? then [ErrorHandled(kept, handler(Many(kept)).ex)] else [])
  {
    var kept := Filtered(d.recordFilterStrategy, rs);
    if handler(Many(kept)).Threw? {
      var handled := HandleBatchError(ep, d, kept, handler(Many(kept)).ex);
      InvocationsAppend([Invoked(Many(kept))], handled.events);
      ErrorCallsAppend([Invoked(Many(kept))], handled.events);
    }
  }

  /** Batch mode, when the error handler (if any) does not throw: the
      result is one SKIPPED status (still successful, no message) per record
      the filter kept, followed by one OK status per kept record when the
      handler returns, or one ERROR status per kept record, carrying the
      failure message with the kept count, when it throws. */
  lemma BatchModeStatuses(ep: StreamListenerEndpoint, d: Descriptor, handler: Handler, rs: seq<Record>)
    requires NeverRethrows(ep, d)
    ensures var kept := Filtered(d.recordFilterStrategy, rs);
      var run := ExecuteBatchSpec(ep, d, handler, rs);
      var failed := handler(Many(kept)).Threw?;
      && run.completion.Done?
      && BatchStatuses(kept, run.completion.value, d.recordFilterStrategy.None?, failed,
                       if failed then BatchFailureMessage(d.id, |kept|, handler(Many(kept)).ex.message) else "")
  {
    var kept := Filtered(d.recordFilterStrategy, rs);
    var failed := handler(Many(kept)).Threw?;
    var m := if failed then BatchFailureMessage(d.id, |kept|, handler(Many(kept)).ex.message) else "";
    BatchCompletion(ep, d, handler, rs);
    if failed {
      BatchFailureMessageNames(d.id, |kept|, handler(Many(kept)).ex.message);
    }
    BatchShape(kept, ExecuteBatchSpec(ep, d, handler, rs).completion.value, d.recordFilterStrategy.None?, failed, m);
  }

  /** The statuses of a batch, read position by position: the SKIPPED
      copies of the kept records (unless there is no filter), then one
      status per kept record with its id, ERROR with message `m` when the
      handler failed, OK otherwise. */
  ghost predicate BatchStatuses(kept: seq<Record>, ss: seq<Status>, noFilter: bool, failed: bool, m: string) {
    var skipped := if noFilter then 0 else |kept|;
    && |ss| == skipped + |kept|
    && (forall i :: 0 <= i < skipped ==> ss[i] == Status(kept[i].id, true, Some(SKIPPED), None))
    && (forall i :: 0 <= i < |kept| ==>
          var s := ss[skipped + i];
          && s.id == kept[i].id
          && (s.state == Some(OK) <==> !failed)
          && (s.state == Some(ERROR) <==> failed)
          && (s.success <==> !failed)
          && (s.errorMessage == if failed then Some(m) else None))
  }

  /** The SKIPPED copies followed by the converted statuses have the shape
      `BatchStatuses` describes. */
  lemma {:induction false} BatchShape(kept: seq<Record>, ss: seq<Status>, noFilter: bool, failed: bool, m: string)
    requires failed ==> m != ""
    requires ss == (if noFilter then [] else SkipAll(ConvertedList(kept, None)))
                   + ConvertedList(kept, if failed then Some(m) else None)
    ensures BatchStatuses(kept, ss, noFilter, failed, m)
  {
    var back := ConvertedList(kept, if failed then Some(m) else None);
    StatusesInHalves(kept, if noFilter then [] else SkipAll(ConvertedList(kept, None)), back, noFilter);
    forall i | 0 <= i < |kept|
      ensures back[i].id == kept[i].id
      ensures back[i].state == Some(OK) <==> !failed
      ensures back[i].state == Some(ERROR) <==> failed
      ensures back[i].success <==> !failed
      ensures back[i].errorMessage == if failed then Some(m) else None
    {
      if failed {
        ErrorOnMessage(kept[i], m);
      }
    }
  }

  /** Batch mode, when the error handler (if any) does not throw, completes
      with the SKIPPED copies (when a filter is set) followed by the kept
      records' converted statuses, marked with the failure message when the
      handler throws. */
  lemma BatchCompletion(ep: StreamListenerEndpoint, d: Descriptor, handler: Handler, rs: seq<Record>)
    requires NeverRethrows(ep, d)
    ensures var kept := Filtered(d.recordFilterStrategy, rs);
      var failed := handler(Many(kept)).Threw?;
      var message := if failed then Some(BatchFailureMessage(d.id, |kept|, handler(Many(kept)).ex.message)) else None;
      var front := if d.recordFilterStrategy.None? then [] else SkipAll(ConvertedList(kept, None));
      ExecuteBatchSpec(ep, d, handler, rs).completion == Done(front + ConvertedList(kept, message))
  {
    var kept := Filtered(d.recordFilterStrategy, rs);
    if handler(Many(kept)).Threw? && d.errorHandler.Some? {
      assert d.errorHandler.value.handleList(kept, handler(Many(kept)).ex, ep).Answered?;
    }
  }

  /** The SKIPPED copies of the kept records' statuses followed by their
      converted statuses, as `BatchModeStatuses` reads them. */
  lemma StatusesInHalves(kept: seq<Record>, front: seq<Status>, back: seq<Status>, noFilter: bool)
    requires front == if noFilter then [] else SkipAll(ConvertedList(kept, None))
    requires |back| == |kept| && forall i :: 0 <= i < |kept| ==> back[i].id == kept[i].id
    ensures var ss := front + back;
      var skipped := if noFilter then 0 else |kept|;
      && |ss| == skipped + |kept|
      && (forall i :: 0 <= i < skipped ==> ss[i] == Status(kept[i].id, true, Some(SKIPPED), None))
      && (forall i :: 0 <= i < |kept| ==> ss[skipped + i] == back[i])
  {
  }

  /** Some received record the filter keeps has this id. */
  predicate KeptId(rs: seq<Record>, f: RecordFilter, id: Option<int>) {
    exists r :: r in rs && !f(r) && r.id == id
  }

  /** Some status has this id, and is SKIPPED or not as `skipped` says. */
  predicate HasStatus(ss: seq<Status>, id: Option<int>, skipped: bool) {
    exists i :: 0 <= i < |ss| && ss[i].id == id && (ss[i].state == Some(SKIPPED) <==> skipped)
  }

  /** The batch-mode consequence of building SKIPPED statuses from the list
      `filterBatch` returns: every status belongs to a record the filter
      kept, and every kept record gets both a SKIPPED status and an OK or
      ERROR one; a record the filter discards gets no status of its own. */
  lemma {:induction false} BatchFilterDivergence(ep: StreamListenerEndpoint, d: Descriptor, handler: Handler, rs: seq<Record>, f: RecordFilter)
    requires NeverRethrows(ep, d)
    requires d.recordFilterStrategy == Some(f)
    ensures var ss := ExecuteBatchSpec(ep, d, handler, rs).completion.value;
      && (forall i :: 0 <= i < |ss| ==> KeptId(rs, f, ss[i].id))
      && (forall r :: r in rs && !f(r) ==> HasStatus(ss, r.id, true) && HasStatus(ss, r.id, false))
  {
    BatchModeStatuses(ep, d, handler, rs);
    var kept := Retained(rs, f);
    var failed := handler(Many(kept)).Threw?;
    var ss := ExecuteBatchSpec(ep, d, handler, rs).completion.value;
    HalvesMarked(kept, ss, failed, if failed then BatchFailureMessage(d.id, |kept|, handler(Many(kept)).ex.message) else "");
    MarksCoverKept(rs, f, kept, ss);
  }

  lemma HalvesMarked(kept: seq<Record>, ss: seq<Status>, failed: bool, m: string)
    requires BatchStatuses(kept, ss, false, failed, m)
    ensures |ss| == 2 * |kept|
    ensures Marks(kept, ss[..|kept|], true) && Marks(kept, ss[|kept|..], false)
  {
  }

  /** `part` holds one status per record of `kept`, in order, each with
      that record's id, all SKIPPED or all not SKIPPED as `skipped` says. */
  predicate Marks(kept: seq<Record>, part: seq<Status>, skipped: bool) {
    && |part| == |kept|
    && forall k :: 0 <= k < |kept| ==> part[k].id == kept[k].id && (part[k].state == Some(SKIPPED) <==> skipped)
  }

  lemma MarksCoverKept(rs: seq<Record>, f: RecordFilter, kept: seq<Record>, ss: seq<Status>)
    requires forall x :: x in kept <==> x in rs && !f(x)
    requires |ss| == 2 * |kept|
    requires Marks(kept, ss[..|kept|], true) && Marks(kept, ss[|kept|..], false)
    ensures forall i :: 0 <= i < |ss| ==> KeptId(rs, f, ss[i].id)
    ensures forall r :: r in rs && !f(r) ==> HasStatus(ss, r.id, true) && HasStatus(ss, r.id, false)
  {
    var n := |kept|;
    var front, back := ss[..n], ss[n..];
    forall i | 0 <= i < |ss|
      ensures KeptId(rs, f, ss[i].id)
    {
      var r;
      if i < n {
        r := kept[i];
        assert ss[i] == front[i];
      } else {
        r := kept[i - n];
        assert ss[i] == back[i - n];
      }
      assert r in kept;
      assert r in rs && !f(r) && r.id == ss[i].id;
    }
    forall r | r in rs && !f(r)
      ensures HasStatus(ss, r.id, true) && HasStatus(ss, r.id, false)
    {
      assert r in kept;
      var k :| 0 <= k < n && kept[k] == r;
      assert ss[k] == front[k];
      assert ss[n + k] == back[k];
    }
  }

  /** With the same filter, the single-record path invokes the handler on
      exactly the records the batch path removes: every occurrence of a
      received record goes to one of the two, never to both. */
  lemma {:induction false} ModesSplitRecords(rs: seq<Record>, f: RecordFilter, x: Record)
    ensures multiset(Retained(rs, SkipFilter(Some(f))))[x] + multiset(Retained(rs, f))[x] == multiset(rs)[x]
  {
    RetainedOccurrences(rs, SkipFilter(Some(f)), x);
    RetainedOccurrences(rs, f, x);
  }

  /** A message put together as `a + x + b + y + c + z` with a non-empty
      lead `a` is not empty and contains both `x` and `y`. */
  lemma {:induction false} MessageNames(a: string, x: string, b: string, y: string, c: string, z: string)
    requires a != ""
    ensures var m := a + x + b + y + c + z;
      m != "" && Contains(m, x) && Contains(m, y)
  {
    var m := a + x + b + y + c + z;
    assert m == a + x + (b + y + c + z);
    OccursInConcat(a, x, b + y + c + z);
    assert m == (a + x + b) + y + (c + z);
    OccursInConcat(a + x + b, y, c + z);
  }

  /** The record failure message is never empty (so the status is an ERROR)
      and names the endpoint and the record's event id. */
  lemma RecordFailureMessageNames(endpointId: Option<string>, eventId: Option<string>, cause: Option<string>)
    ensures var m := RecordFailureMessage(endpointId, eventId, cause);
      m != "" && Contains(m, Show(endpointId)) && Contains(m, Show(eventId))
  {
    MessageNames("Unable to execute endpoint [", Show(endpointId), "] record [", Show(eventId), "]. Message: ", Show(cause));
  }

  /** The batch failure message is never empty and names the endpoint and
      the number of records the handler was given. */
  lemma BatchFailureMessageNames(endpointId: Option<string>, count: nat, cause: Option<string>)
    ensures var m := BatchFailureMessage(endpointId, count, cause);
      m != "" && Contains(m, Show(endpointId)) && Contains(m, DecimalString(count))
  {
    MessageNames("Unable to execute endpoint [", Show(endpointId), "] within (", DecimalString(count), ") record(s). Message: ", Show(cause));
  }

  /** Executing one record never commits. */
  lemma RecordHasNoCommit(ep: StreamListenerEndpoint, d: Descriptor, handler: Handler, r: Record)
    ensures Commits(ExecuteRecord(ep, d, handler, r).events) == []
  {
    if !Skips(d.recordFilterStrategy, r) && handler(One(r)).Threw? {
      CommitsAppend([Invoked(One(r))], HandleRecordError(ep, d, r, handler(One(r)).ex).events);
    }
  }

  lemma {:induction false} RecordsHaveNoCommit(ep: StreamListenerEndpoint, d: Descriptor, handler: Handler, rs: seq<Record>)
    ensures Commits(ExecuteRecords(ep, d, handler, rs).events) == []
  {
    if rs != [] {
      var first := ExecuteRecord(ep, d, handler, rs[0]);
      RecordHasNoCommit(ep, d, handler, rs[0]);
      RecordsHaveNoCommit(ep, d, handler, rs[1..]);
      CommitsAppend(first.events, ExecuteRecords(ep, d, handler, rs[1..]).events);
    }
  }

  lemma BatchHasNoCommit(ep: StreamListenerEndpoint, d: Descriptor, handler: Handler, rs: seq<Record>)
    ensures Commits(ExecuteBatchSpec(ep, d, handler, rs).events) == []
  {
    var kept := Filtered(d.recordFilterStrategy, rs);
    if handler(Many(kept)).Threw? {
      CommitsAppend([Invoked(Many(kept))], HandleBatchError(ep, d, kept, handler(Many(kept)).ex).events);
    }
  }

  /** The statuses of a run, in either mode, are built before anything is
      committed. */
  lemma RunHasNoCommit(ep: StreamListenerEndpoint, d: Descriptor, handler: Handler, rs: seq<Record>)
    ensures Commits(ExecuteRecords(ep, d, handler, rs).events) == []
    ensures Commits(ExecuteBatchSpec(ep, d, handler, rs).events) == []
  {
    RecordsHaveNoCommit(ep, d, handler, rs);
    BatchHasNoCommit(ep, d, handler, rs);
  }

  /** A cycle commits at most once, and only after a non-empty receive; it
      reports `true` exactly when it committed and the commit returned; it
      reports `false` exactly when receive gave null or an empty list, and
      then it called nothing at all. */
  lemma CycleCommitsOnce(ep: StreamListenerEndpoint, d: Descriptor, c: Collaborators)
    ensures var res := Cycle(ep, d, c);
      var nonEmpty := c.receive.Received? && c.receive.records.Some? && c.receive.records.value != [];
      && |Commits(res.events)| <= 1
      && (|Commits(res.events)| == 1 ==> nonEmpty && res.events[|res.events| - 1] == Committed(Commits(res.events)[0]))
      && (res.completion == Done(true) <==> |Commits(res.events)| == 1 && c.commit(Commits(res.events)[0]).None?)
      && (res.completion == Done(false) <==> c.receive.Received? && !nonEmpty)
      && (res.completion == Done(false) ==> res.events == [])
  {
    var res := Cycle(ep, d, c);
    if c.receive.Received? && c.receive.records.Some? && c.receive.records.value != [] {
      var rs := c.receive.records.value;
      RunHasNoCommit(ep, d, c.handler, rs);
      var run := if d.batch then ExecuteBatchSpec(ep, d, c.handler, rs) else ExecuteRecords(ep, d, c.handler, rs);
      if run.completion.Done? {
        CommitsAppend(run.events, [Committed(run.completion.value)]);
      }
    }
  }

  /** The whole single-record cycle, when the error handler does not throw:
      after a non-empty receive exactly one list is committed, holding one
      status per received record, in received order, each with that record's
      id; the cycle reports `true` unless the commit itself throws, in which
      case that exception propagates. Handler failures never escape. */
  lemma SingleModeCycle(ep: StreamListenerEndpoint, d: Descriptor, c: Collaborators, rs: seq<Record>)
    requires !d.batch && NeverRethrows(ep, d)
    requires c.receive == Received(Some(rs)) && rs != []
    ensures var res := Cycle(ep, d, c);
      && |Commits(res.events)| == 1
      && var ss := Commits(res.events)[0];
      && ExecuteRecords(ep, d, c.handler, rs).completion.Done?
      && ss == ExecuteRecords(ep, d, c.handler, rs).completion.value
      && |ss| == |rs|
      && (forall i :: 0 <= i < |rs| ==> StatusFor(d.recordFilterStrategy, d.id, c.handler, rs[i], ss[i]))
      && res.completion == (if c.commit(ss).None? then Done(true) else Raised(c.commit(ss).value))
  {
    SingleModeStatuses(ep, d, c.handler, rs);
    RunHasNoCommit(ep, d, c.handler, rs);
    var run := ExecuteRecords(ep, d, c.handler, rs);
    CommitsAppend(run.events, [Committed(run.completion.value)]);
  }

  /** The whole batch cycle, when the error handler does not throw: exactly
      one list is committed and the cycle reports `true` unless the commit
      throws. Handler failures never escape. */
  lemma BatchModeCycle(ep: StreamListenerEndpoint, d: Descriptor, c: Collaborators, rs: seq<Record>)
    requires d.batch && NeverRethrows(ep, d)
    requires c.receive == Received(Some(rs)) && rs != []
    ensures var res := Cycle(ep, d, c);
      && |Commits(res.events)| == 1
      && var ss := Commits(res.events)[0];
      && ss == ExecuteBatchSpec(ep, d, c.handler, rs).completion.value
      && res.completion == (if c.commit(ss).None? then Done(true) else Raised(c.commit(ss).value))
  {
    BatchModeStatuses(ep, d, c.handler, rs);
    BatchHasNoCommit(ep, d, c.handler, rs);
    var run := ExecuteBatchSpec(ep, d, c.handler, rs);
    CommitsAppend(run.events, [Committed(run.completion.value)]);
  }

  /** One record ends with an exception exactly when it is not skipped,
      the handler throws, and the error handler is set and rethrows; the
      exception is the one the error handler threw. */
  lemma RecordRaises(ep: StreamListenerEndpoint, d: Descriptor, handler: Handler, r: Record)
    ensures var outcome := handler(One(r));
      var c := ExecuteRecord(ep, d, handler, r).completion;
      && (c.Raised? <==>
            && !Skips(d.recordFilterStrategy, r) && outcome.Threw? && d.errorHandler.Some?
            && d.errorHandler.value.handleList([r], outcome.ex, ep).Rethrew?)
      && (c.Raised? ==> c.ex == d.errorHandler.value.handleList([r], outcome.ex, ep).ex)
  {
  }

  /** Single-record mode stops at the first record that ends with an
      exception, and ends with that exception. */
  lemma {:induction false} SingleModeRaisesAt(ep: StreamListenerEndpoint, d: Descriptor, handler: Handler, rs: seq<Record>, i: nat)
    requires i < |rs|
    requires forall j :: 0 <= j < i ==> ExecuteRecord(ep, d, handler, rs[j]).completion.Done?
    requires ExecuteRecord(ep, d, handler, rs[i]).completion.Raised?
    ensures ExecuteRecords(ep, d, handler, rs).completion == Raised(ExecuteRecord(ep, d, handler, rs[i]).completion.ex)
  {
    if i > 0 {
      SingleModeRaisesAt(ep, d, handler, rs[1..], i - 1);
    }
  }

  /** Single-record mode: when the error handler rethrows for record `i`
      (not skipped, its handler call threw) and every earlier record went
      through, the cycle ends with the error handler's exception and
      nothing is committed. */
  lemma ErrorHandlerFailureEscapes(ep: StreamListenerEndpoint, d: Descriptor, c: Collaborators, rs: seq<Record>, i: nat, ex: Exception, e: Exception)
    requires !d.batch && c.receive == Received(Some(rs))
    requires i < |rs| && forall j :: 0 <= j < i ==> ExecuteRecord(ep, d, c.handler, rs[j]).completion.Done?
    requires !Skips(d.recordFilterStrategy, rs[i]) && c.handler(One(rs[i])) == Threw(ex)
    requires d.errorHandler.Some? && d.errorHandler.value.handleList([rs[i]], ex, ep) == Rethrew(e)
    ensures Cycle(ep, d, c).completion == Raised(e)
    ensures Commits(Cycle(ep, d, c).events) == []
  {
    RecordRaises(ep, d, c.handler, rs[i]);
    SingleModeRaisesAt(ep, d, c.handler, rs, i);
    RecordsHaveNoCommit(ep, d, c.handler, rs);
  }

  /** Batch mode: when the handler throws on the kept records and the error
      handler rethrows, the cycle ends with the error handler's exception
      and nothing is committed. */
  lemma BatchErrorHandlerFailureEscapes(ep: StreamListenerEndpoint, d: Descriptor, c: Collaborators, rs: seq<Record>, ex: Exception, e: Exception)
    requires d.batch && c.receive == Received(Some(rs)) && rs != []
    requires c.handler(Many(Filtered(d.recordFilterStrategy, rs))) == Threw(ex)
    requires d.errorHandler.Some? && d.errorHandler.value.handleList(Filtered(d.recordFilterStrategy, rs), ex, ep) == Rethrew(e)
    ensures Cycle(ep, d, c).completion == Raised(e)
    ensures Commits(Cycle(ep, d, c).events) == []
  {
    BatchHasNoCommit(ep, d, c.handler, rs);
  }

  /** Two endpoints that agree on id, mode and filter, and both have an
      error handler or both have none, neither of which throws. */
  ghost predicate Interchangeable(ep1: StreamListenerEndpoint, d1: Descriptor, ep2: StreamListenerEndpoint, d2: Descriptor)
  {
    && d1.id == d2.id && d1.batch == d2.batch
    && d1.recordFilterStrategy == d2.recordFilterStrategy
    && d1.errorHandler.Some? == d2.errorHandler.Some?
    && NeverRethrows(ep1, d1) && NeverRethrows(ep2, d2)
  }

  /** The single-record form of the error handler is its list form on the
      one-element list holding that record: handling one record's error is
      handling the error of a batch of exactly that record. */
  lemma RecordErrorIsBatchOfOne(ep: StreamListenerEndpoint, d: Descriptor, r: Record, ex: Exception)
    ensures HandleRecordError(ep, d, r, ex) == HandleBatchError(ep, d, [r], ex)
    ensures d.errorHandler.Some? ==> d.errorHandler.value.HandleRecord(r, ex, ep) == d.errorHandler.value.handleList([r], ex, ep)
  {
  }

  lemma RecordReplyIgnored(ep1: StreamListenerEndpoint, d1: Descriptor, ep2: StreamListenerEndpoint, d2: Descriptor, handler: Handler, r: Record)
    requires Interchangeable(ep1, d1, ep2, d2)
    ensures ExecuteRecord(ep1, d1, handler, r) == ExecuteRecord(ep2, d2, handler, r)
  {
    if handler(One(r)).Threw? {
      var ex := handler(One(r)).ex;
      if d1.errorHandler.Some? {
        assert d1.errorHandler.value.handleList([r], ex, ep1).Answered?;
        assert d2.errorHandler.value.handleList([r], ex, ep2).Answered?;
      }
    }
  }

  /** Two such endpoints run identical single-record passes: the value an
      error handler returns is ignored. */
  lemma {:induction false} SingleModeReplyIgnored(ep1: StreamListenerEndpoint, d1: Descriptor, ep2: StreamListenerEndpoint, d2: Descriptor, handler: Handler, rs: seq<Record>)
    requires Interchangeable(ep1, d1, ep2, d2)
    ensures ExecuteRecords(ep1, d1, handler, rs) == ExecuteRecords(ep2, d2, handler, rs)
  {
    if rs != [] {
      RecordReplyIgnored(ep1, d1, ep2, d2, handler, rs[0]);
      SingleModeReplyIgnored(ep1, d1, ep2, d2, handler, rs[1..]);
    }
  }

  /** Two such endpoints run identical batch passes. */
  lemma BatchModeReplyIgnored(ep1: StreamListenerEndpoint, d1: Descriptor, ep2: StreamListenerEndpoint, d2: Descriptor, handler: Handler, rs: seq<Record>)
    requires Interchangeable(ep1, d1, ep2, d2)
    ensures ExecuteBatchSpec(ep1, d1, handler, rs) == ExecuteBatchSpec(ep2, d2, handler, rs)
  {
    var kept := Filtered(d1.recordFilterStrategy, rs);
    if handler(Many(kept)).Threw? && d1.errorHandler.Some? {
      var ex := handler(Many(kept)).ex;
      assert d1.errorHandler.value.handleList(kept, ex, ep1).Answered?;
      assert d2.errorHandler.value.handleList(kept, ex, ep2).Answered?;
    }
  }

  /** Two such endpoints run identical cycles. */
  lemma ErrorReplyIgnored(ep1: StreamListenerEndpoint, d1: Descriptor, ep2: StreamListenerEndpoint, d2: Descriptor, c: Collaborators)
    requires Interchangeable(ep1, d1, ep2, d2)
    ensures Cycle(ep1, d1, c) == Cycle(ep2, d2, c)
  {
    if c.receive.Received? && c.receive.records.Some? {
      SingleModeReplyIgnored(ep1, d1, ep2, d2, c.handler, c.receive.records.value);
      BatchModeReplyIgnored(ep1, d1, ep2, d2, c.handler, c.receive.records.value);
    }
  }
}
