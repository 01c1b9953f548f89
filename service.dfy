/** StreamListenerExecutionService: one poll cycle of one endpoint.

    receive -> (per record or per batch: filter, invoke, convert, report
    errors) -> commit.

    The data provider and the handler method are collaborators whose code is
    not part of the model. For one cycle they are given as `Collaborators`:
    what `receive` returns or throws, how the handler reacts to each
    invocation, and whether `commit` throws. What the engine does with them
    is recorded as a trace of `Event`s (handler invocations, error handler
    calls, the commit), next to how the cycle ends.

    The endpoint does not change during a cycle. The functions take the
    endpoint object, which is what the error handler is handed, together
    with `d`, the settings it holds; the methods read the object itself. */
module Service {
  import opened Lang
  import opened Records
  import opened Support
  import opened Converter
  import opened Listener
  import opened Model

  /** The argument the handler method is invoked with. */
  datatype Invocation = One(record: Record) | Many(records: seq<Record>)

  /** The handler method returns normally or throws. */
  datatype Outcome = Completed | Threw(ex: Exception)

  type Handler = Invocation -> Outcome

  /** What `dataProvider.receive(endpoint)` does: throws, or returns a
      (nullable) list of records. */
  datatype Receive = ReceiveThrew(ex: Exception) | Received(records: Option<seq<Record>>)

  /** `dataProvider.commit(endpoint, statuses)`: returns (None) or throws. */
  type Commit = seq<Status> -> Option<Exception>

  datatype Collaborators = Collaborators(receive: Receive, handler: Handler, commit: Commit)

  /** The calls the engine makes into its collaborators. `ErrorHandled`
      records the arguments the error handler's list form is called with. */
  datatype Event =
    | Invoked(arg: Invocation)
    | ErrorHandled(records: seq<Record>, ex: Exception)
    | Committed(statuses: seq<Status>)

  /** How a piece of the engine ends: with a value, or with an exception
      that propagates to its caller. */
  datatype Completion<+T> = Done(value: T) | Raised(ex: Exception)

  datatype Step<+T> = Step(events: seq<Event>, completion: Completion<T>)

  /** `setState(SKIPPED)`: only the state changes; `success` is left as it was. */
  function Skip(s: Status): Status {
    s.(state := Some(SKIPPED))
  }

  function SkipAll(s: seq<Status>): seq<Status> {
    seq(|s|, i requires 0 <= i < |s| => Skip(s[i]))
  }

  function RecordFailureMessage(endpointId: Option<string>, eventId: Option<string>, cause: Option<string>): string {
    "Unable to execute endpoint [" + Show(endpointId) + "] record [" + Show(eventId) + "]. Message: " + Show(cause)
  }

  function BatchFailureMessage(endpointId: Option<string>, count: nat, cause: Option<string>): string {
    "Unable to execute endpoint [" + Show(endpointId) + "] within (" + DecimalString(count) + ") record(s). Message: " + Show(cause)
  }

  /** filterRecordIfNecessary: a SKIPPED status when a filter is configured
      and returns false for the record; no status (go on and invoke) when
      there is no filter or it returns true. */
  function FilterRecordIfNecessary(filter: Option<RecordFilter>, r: Record): (st: Option<Status>)
    ensures st.Some? <==> filter.Some? && !filter.value(r)
    ensures st.Some? ==> st.value == Status(r.id, true, Some(SKIPPED), None)
  {
    match filter
    case None => None
    case Some(f) => if f(r) then None else Some(Skip(Converted(r, None)))
  }

  /** The single-record handleError: nothing without an error handler;
      otherwise its default single-record form, whose answer is ignored and
      whose exception propagates. */
  function HandleRecordError(ep: StreamListenerEndpoint, d: Descriptor, r: Record, ex: Exception): (res: Step<()>)
    ensures d.errorHandler.None? ==> res == Step([], Done(()))
    ensures d.errorHandler.Some? ==> res.events == [ErrorHandled([r], ex)]
    ensures res.completion.Raised? <==> d.errorHandler.Some? && d.errorHandler.value.handleList([r], ex, ep).Rethrew?
    ensures res.completion.Raised? ==> res.completion.ex == d.errorHandler.value.handleList([r], ex, ep).ex
  {
    match d.errorHandler
    case None => Step([], Done(()))
    case Some(h) =>
      Step([ErrorHandled([r], ex)],
           match h.HandleRecord(r, ex, ep)
           case Answered(_) => Done(())
           case Rethrew(e) => Raised(e))
  }

  /** The list handleError: nothing without an error handler; otherwise its
      list form, whose answer is ignored and whose exception propagates. */
  function HandleBatchError(ep: StreamListenerEndpoint, d: Descriptor, rs: seq<Record>, ex: Exception): (res: Step<()>)
    ensures d.errorHandler.None? ==> res == Step([], Done(()))
    ensures d.errorHandler.Some? ==> res.events == [ErrorHandled(rs, ex)]
    ensures res.completion.Raised? <==> d.errorHandler.Some? && d.errorHandler.value.handleList(rs, ex, ep).Rethrew?
    ensures res.completion.Raised? ==> res.completion.ex == d.errorHandler.value.handleList(rs, ex, ep).ex
  {
    match d.errorHandler
    case None => Step([], Done(()))
    case Some(h) =>
      Step([ErrorHandled(rs, ex)],
           match h.handleList(rs, ex, ep)
           case Answered(_) => Done(())
           case Rethrew(e) => Raised(e))
  }

  /** executeEndpoint(endpoint, record): filter, invoke, convert. */
  function ExecuteRecord(ep: StreamListenerEndpoint, d: Descriptor, handler: Handler, r: Record): (res: Step<Status>)
    ensures res.completion.Done? ==> res.completion.value.id == r.id
    ensures res.events == [] <==> FilterRecordIfNecessary(d.recordFilterStrategy, r).Some?
    ensures res.events != [] ==> res.events[0] == Invoked(One(r))
  {
    match FilterRecordIfNecessary(d.recordFilterStrategy, r)
    case Some(skipped) => Step([], Done(skipped))
    case None =>
      match handler(One(r))
      case Completed => Step([Invoked(One(r))], Done(Converted(r, None)))
      case Threw(ex) =>
        var handled := HandleRecordError(ep, d, r, ex);
        var events := [Invoked(One(r))] + handled.events;
        match handled.completion
        case Raised(e) => Step(events, Raised(e))
        case Done(_) => Step(events, Done(Converted(r, Some(RecordFailureMessage(d.id, r.eventId, ex.message)))))
  }

  /** `records.stream().map(executeEndpoint).collect(toList())`: the records
      one after the other, in order; an exception stops the stream. */
  function ExecuteRecords(ep: StreamListenerEndpoint, d: Descriptor, handler: Handler, rs: seq<Record>): (res: Step<seq<Status>>)
    ensures res.completion.Done? ==>
      |res.completion.value| == |rs| && forall i :: 0 <= i < |rs| ==> res.completion.value[i].id == rs[i].id
  {
    if rs == [] then Step([], Done([]))
    else
      var first := ExecuteRecord(ep, d, handler, rs[0]);
      match first.completion
      case Raised(e) => Step(first.events, Raised(e))
      case Done(s) =>
        var rest := ExecuteRecords(ep, d, handler, rs[1..]);
        Step(first.events + rest.events,
             match rest.completion
             case Raised(e) => Raised(e)
             case Done(ss) => Done([s] + ss))
  }

  /** The records a batch invocation ends up with: those `filterBatch` keeps,
      or all of them without a filter. */
  function Filtered(filter: Option<RecordFilter>, rs: seq<Record>): seq<Record> {
    match filter
    case None => rs
    case Some(f) => Retained(rs, f)
  }

  /** executeEndpoint(endpoint, records) as a function of the received
      records. SKIPPED statuses are converted from the list `filterBatch`
      returns, which is the filtered list itself. */
  function ExecuteBatchSpec(ep: StreamListenerEndpoint, d: Descriptor, handler: Handler, rs: seq<Record>): (res: Step<seq<Status>>)
    ensures res.events != [] && res.events[0] == Invoked(Many(Filtered(d.recordFilterStrategy, rs)))
    ensures res.completion.Done? ==>
      |res.completion.value| == (if d.recordFilterStrategy.None? then 1 else 2) * |Filtered(d.recordFilterStrategy, rs)|
  {
    var kept := Filtered(d.recordFilterStrategy, rs);
    var skipped := if d.recordFilterStrategy.None? then [] else SkipAll(ConvertedList(kept, None));
    match handler(Many(kept))
    case Completed => Step([Invoked(Many(kept))], Done(skipped + ConvertedList(kept, None)))
    case Threw(ex) =>
      var handled := HandleBatchError(ep, d, kept, ex);
      var events := [Invoked(Many(kept))] + handled.events;
      match handled.completion
      case Raised(e) => Step(events, Raised(e))
      case Done(_) =>
        Step(events, Done(skipped + ConvertedList(kept, Some(BatchFailureMessage(d.id, |kept|, ex.message)))))
  }

  /** `responseStatuses.forEach(it -> it.setState(SKIPPED))`. */
  method MarkSkipped(statuses: seq<Status>) returns (r: seq<Status>)
    ensures |r| == |statuses|
    ensures forall i :: 0 <= i < |r| ==> r[i] == statuses[i].(state := Some(SKIPPED))
  {
    r := statuses;
    var i := 0;
    while i < |r|
      invariant 0 <= i <= |r| == |statuses|
      invariant forall j :: 0 <= j < i ==> r[j] == statuses[j].(state := Some(SKIPPED))
      invariant forall j :: i <= j < |r| ==> r[j] == statuses[j]
    {
      r := r[i := r[i].(state := Some(SKIPPED))];
      i := i + 1;
    }
  }

  /** filterRecordsIfNecessary: with a filter, `filterBatch` shrinks
      `records` in place, and the statuses are built from the list it
      returns, then marked SKIPPED. */
  method FilterRecordsIfNecessary(filter: Option<RecordFilter>, records: RecordList) returns (statuses: seq<Status>)
    modifies records
    ensures records.items == Filtered(filter, old(records.items))
    ensures statuses == if filter.None? then [] else SkipAll(ConvertedList(records.items, None))
  {
    if filter.None? {
      return [];
    }
    var filterBatch := FilterBatch(filter.value, records);
    var converted := ConvertedList(filterBatch.items, None);
    statuses := MarkSkipped(converted);
  }

  /** executeEndpoint(endpoint, records), on the mutable list received. */
  method ExecuteBatch(ep: StreamListenerEndpoint, handler: Handler, records: RecordList) returns (res: Step<seq<Status>>)
    modifies records
    ensures records.items == Filtered(ep.recordFilterStrategy, old(records.items))
    ensures res == ExecuteBatchSpec(ep, ep.Snapshot(), handler, old(records.items))
  {
    var responseStatuses := FilterRecordsIfNecessary(ep.recordFilterStrategy, records);
    var invoked := [Invoked(Many(records.items))];
    match handler(Many(records.items)) {
      case Completed =>
        responseStatuses := responseStatuses + ConvertedList(records.items, None);
        res := Step(invoked, Done(responseStatuses));
      case Threw(ex) =>
        var handled := HandleBatchError(ep, ep.Snapshot(), records.items, ex);
        if handled.completion.Raised? {
          res := Step(invoked + handled.events, Raised(handled.completion.ex));
        } else {
          var message := BatchFailureMessage(ep.id, |records.items|, ex.message);
          responseStatuses := responseStatuses + ConvertedList(records.items, Some(message));
          res := Step(invoked + handled.events, Done(responseStatuses));
        }
    }
  }

  /** executeImpl as a function of the (non-empty) received records: build
      the statuses, then commit them. */
  function Process(ep: StreamListenerEndpoint, d: Descriptor, c: Collaborators, rs: seq<Record>): (res: Step<bool>)
    ensures res.completion.Done? ==> res.completion.value
    ensures res.completion.Done? ==>
      res.events != [] && res.events[|res.events| - 1].Committed? && c.commit(res.events[|res.events| - 1].statuses).None?
  {
    var run := if d.batch then ExecuteBatchSpec(ep, d, c.handler, rs) else ExecuteRecords(ep, d, c.handler, rs);
    match run.completion
    case Raised(e) => Step(run.events, Raised(e))
    case Done(statuses) =>
      Step(run.events + [Committed(statuses)],
           match c.commit(statuses)
           case None => Done(true)
           case Some(e) => Raised(e))
  }

  /** One whole cycle: `executeEndpointMethod(endpoint)`. */
  function Cycle(ep: StreamListenerEndpoint, d: Descriptor, c: Collaborators): (res: Step<bool>)
    ensures c.receive.ReceiveThrew? ==> res == Step([], Raised(c.receive.ex))
    ensures res.completion == Done(false) <==> c.receive == Received(None) || c.receive == Received(Some([]))
  {
    match c.receive
    case ReceiveThrew(ex) => Step([], Raised(ex))
    case Received(rs) =>
      if rs.None? || rs.value == [] then Step([], Done(false))
      else Process(ep, d, c, rs.value)
  }

  method ExecuteImpl(ep: StreamListenerEndpoint, c: Collaborators, records: RecordList) returns (res: Step<bool>)
    modifies records
    ensures res == Process(ep, ep.Snapshot(), c, old(records.items))
  {
    var responses: Step<seq<Status>>;
    if ep.batch {
      responses := ExecuteBatch(ep, c.handler, records);
    } else {
      responses := ExecuteRecords(ep, ep.Snapshot(), c.handler, records.items);
    }
    match responses.completion {
      case Raised(e) =>
        res := Step(responses.events, Raised(e));
      case Done(statuses) =>
        var failure := c.commit(statuses);
        var events := responses.events + [Committed(statuses)];
        res := if failure.None? then Step(events, Done(true)) else Step(events, Raised(failure.value));
    }
  }

  /** executeEndpointMethod(endpoint): an empty or null receive ends the
      cycle with `false` and calls nothing else; a failing receive
      propagates; otherwise the records are processed and committed. */
  method ExecuteEndpointMethod(ep: StreamListenerEndpoint, c: Collaborators) returns (res: Step<bool>)
    ensures res == Cycle(ep, ep.Snapshot(), c)
    ensures c.receive.ReceiveThrew? ==> res == Step([], Raised(c.receive.ex))
    ensures c.receive == Received(None) || c.receive == Received(Some([])) ==> res == Step([], Done(false))
  {
    match c.receive {
      case ReceiveThrew(ex) =>
        return Step([], Raised(ex));
      case Received(records) =>
        if records.None? || records.value == [] {
          return Step([], Done(false));
        }
        var list := new RecordList(records.value);
        res := ExecuteImpl(ep, c, list);
    }
  }
}
