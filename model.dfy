/** StreamListenerEndpoint: the mutable descriptor of one registered
    consumer, filled in field by field through its setters.

    The fields that hold foreign objects (the bean and its reflective
    method, the method parameters, the record type, the consumer properties,
    the record converter and the data provider) are not fields here: the
    engine's use of them is modelled by the per-cycle collaborators. */
module Model {
  import opened Lang
  import opened Listener

  /** The cron expression a new endpoint starts with: every minute. */
  const DefaultCron: string := "0 */1 * ? * *"

  /** The contents of an endpoint at one moment. */
  datatype Descriptor = Descriptor(
    id: Option<string>,
    groupId: Option<string>,
    beanName: Option<string>,
    batch: bool,
    topic: Option<string>,
    cron: Option<string>,
    autoStartup: bool,
    concurrency: bool,
    delay: Long,
    errorHandler: Option<ErrorHandler<StreamListenerEndpoint>>,
    recordFilterStrategy: Option<RecordFilter>)

  /** What `new StreamListenerEndpoint()` holds: null references, false
      flags, delay 0 and the every-minute cron expression. */
  const Initial: Descriptor :=
    Descriptor(None, None, None, false, None, Some(DefaultCron), false, false, 0, None, None)

  /** Endpoints are compared by identity (the class has no equals), so two
      endpoints with the same id are two different objects. */
  class StreamListenerEndpoint {
    var id: Option<string>
    var groupId: Option<string>
    var beanName: Option<string>
    var batch: bool
    var topic: Option<string>
    var cron: Option<string>
    var autoStartup: bool
    var concurrency: bool
    var delay: Long
    var errorHandler: Option<ErrorHandler<StreamListenerEndpoint>>
    var recordFilterStrategy: Option<RecordFilter>

    function Snapshot(): Descriptor
      reads this
    {
      Descriptor(id, groupId, beanName, batch, topic, cron, autoStartup, concurrency,
                 delay, errorHandler, recordFilterStrategy)
    }

    constructor ()
      ensures Snapshot() == Initial
    {
      id, groupId, beanName, batch, topic := None, None, None, false, None;
      cron, autoStartup, concurrency, delay := Some(DefaultCron), false, false, 0;
      errorHandler, recordFilterStrategy := None, None;
    }

    method SetId(v: Option<string>)
      modifies this
      ensures Snapshot() == old(Snapshot()).(id := v)
    {
      id := v;
    }

    method SetGroupId(v: Option<string>)
      modifies this
      ensures Snapshot() == old(Snapshot()).(groupId := v)
    {
      groupId := v;
    }

    method SetBeanName(v: Option<string>)
      modifies this
      ensures Snapshot() == old(Snapshot()).(beanName := v)
    {
      beanName := v;
    }

    method SetBatch(v: bool)
      modifies this
      ensures Snapshot() == old(Snapshot()).(batch := v)
    {
      batch := v;
    }

    method SetTopic(v: Option<string>)
      modifies this
      ensures Snapshot() == old(Snapshot()).(topic := v)
    {
      topic := v;
    }

    method SetCron(v: Option<string>)
      modifies this
      ensures Snapshot() == old(Snapshot()).(cron := v)
    {
      cron := v;
    }

    method SetAutoStartup(v: bool)
      modifies this
      ensures Snapshot() == old(Snapshot()).(autoStartup := v)
    {
      autoStartup := v;
    }

    method SetConcurrency(v: bool)
      modifies this
      ensures Snapshot() == old(Snapshot()).(concurrency := v)
    {
      concurrency := v;
    }

    method SetDelay(v: Long)
      modifies this
      ensures Snapshot() == old(Snapshot()).(delay := v)
    {
      delay := v;
    }

    method SetErrorHandler(v: Option<ErrorHandler<StreamListenerEndpoint>>)
      modifies this
      ensures Snapshot() == old(Snapshot()).(errorHandler := v)
    {
      errorHandler := v;
    }

    method SetRecordFilterStrategy(v: Option<RecordFilter>)
      modifies this
      ensures Snapshot() == old(Snapshot()).(recordFilterStrategy := v)
    {
      recordFilterStrategy := v;
    }
  }
}
