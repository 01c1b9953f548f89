/** StreamListenerPostProcessor: the fallback chains that turn the
    attributes of a `@StreamListener` annotation into an endpoint's id,
    group id, topic, delay and flags, and the bean post-processor hooks.

    Every chain has the same three rungs: the annotation attribute (when it
    holds text), then a global `${stream-listener.*}` property, then a hard
    default. Attribute values go through Spring's placeholder resolution and
    expression evaluation, which the model takes as a `Resolver` parameter;
    the random UUID behind the id hash and the HOSTNAME environment variable
    are parameters too. */
module Processor {
  import opened Lang
  import opened Model
  import opened Publisher

  /** What expression evaluation makes of an attribute value: null, a
      String, or an object of some other class (named here). */
  datatype Resolved = Null | Text(text: string) | Other(className: string)

  /** Placeholder resolution followed by expression evaluation. */
  type Resolver = string -> Resolved

  /** The `@StreamListener` attributes the chains read. Annotation strings
      are never null; an attribute left out is the empty string. */
  datatype StreamListener = StreamListener(
    id: string,
    topics: seq<string>,
    groupId: string,
    idIsGroup: bool,
    concurrency: string,
    delay: string,
    autoStartup: string,
    batch: string)

  /** An annotation with every attribute left at its default. */
  const Bare: StreamListener := StreamListener("", [], "", true, "", "", "", "")

  const IdProperty: string := "${stream-listener.id}"
  const GroupIdProperty: string := "${stream-listener.group-id}"
  const TopicsProperty: string := "${stream-listener.topics}"
  const DelayProperty: string := "${stream-listener.delay}"
  const AutoStartupProperty: string := "${stream-listener.auto-startup}"
  const ConcurrencyProperty: string := "${stream-listener.concurrency}"
  const ApplicationNameProperty: string := "${spring.application.name}"

  /** The delay an endpoint gets when neither the annotation nor the
      global property gives one. */
  const DefaultDelay: Long := 250

  /** A value that still starts with `${` once trimmed is a placeholder that
      nothing resolved. */
  predicate Unresolved(v: string) {
    StartsWith(Trim(v), "${")
  }

  function NotAString(attribute: string, className: string, value: string): Exception {
    Exception("java.lang.IllegalStateException",
      Some("[" + attribute + "] must resolve to a String. Resolved to [class " + className + "] for [" + value + "]"))
  }

  const IndexZeroOfEmpty: Exception :=
    Exception("java.lang.ArrayIndexOutOfBoundsException", Some("Index 0 out of bounds for length 0"))

  /** resolveExpressionAsString: null stays null, a String that is still a
      placeholder becomes null, any other String is returned as it is, and
      any other object is an IllegalStateException naming the attribute. */
  function ResolveExpressionAsString(resolver: Resolver, value: string, attribute: string): (r: Result<Option<string>>)
    ensures r.Err? <==> resolver(value).Other?
    ensures r.Err? ==> r.ex == NotAString(attribute, resolver(value).className, value)
    ensures r == Ok(None) <==> resolver(value).Null? || (resolver(value).Text? && Unresolved(resolver(value).text))
    ensures r.Ok? && r.value.Some? ==> resolver(value) == Text(r.value.value) && !Unresolved(r.value.value)
  {
    match resolver(value)
    case Null => Ok(None)
    case Text(v) => if Unresolved(v) then Ok(None) else Ok(Some(v))
    case Other(c) => Err(NotAString(attribute, c, value))
  }

  /** An annotation attribute is only resolved when it holds text. */
  predicate Given(raw: string) {
    HasText(Some(raw))
  }

  /** `value` resolves to a String that has text and is not a placeholder:
      the rung that supplies it wins. */
  predicate GivesText(resolver: Resolver, value: string) {
    && resolver(value).Text?
    && !Unresolved(resolver(value).text)
    && HasText(Some(resolver(value).text))
  }

  /** `value` resolves to null, to a placeholder or to blank text: the
      chain goes on to its next rung. */
  predicate GivesNothing(resolver: Resolver, value: string) {
    resolver(value).Null? || (resolver(value).Text? && !GivesText(resolver, value))
  }

  /** The annotation rung: the attribute resolved when it holds text,
      nothing otherwise. */
  function AnnotationValue(resolver: Resolver, raw: string, attribute: string): Result<Option<string>> {
    if Given(raw) then ResolveExpressionAsString(resolver, raw, attribute) else Ok(None)
  }

  /** getDelay: the annotation's delay when it resolves to text, else the
      global delay property when that does, else 250; the text that wins is
      parsed with Long.parseLong, whose failure propagates. */
  function GetDelay(resolver: Resolver, a: StreamListener): (r: Result<Long>)
    ensures Given(a.delay) && resolver(a.delay).Other? ==>
      r == Err(NotAString("delay", resolver(a.delay).className, a.delay))
    ensures Given(a.delay) && GivesText(resolver, a.delay) ==> r == ParseLong(resolver(a.delay).text)
    ensures !Given(a.delay) || GivesNothing(resolver, a.delay) ==>
      r == (if resolver(DelayProperty).Other? then
              Err(NotAString("stream-listener.delay", resolver(DelayProperty).className, DelayProperty))
            else if GivesText(resolver, DelayProperty) then ParseLong(resolver(DelayProperty).text)
            else Ok(DefaultDelay))
  {
    var local := AnnotationValue(resolver, a.delay, "delay");
    if local.Err? then Err(local.ex)
    else if HasText(local.value) then ParseLong(local.value.value)
    else
      var global := ResolveExpressionAsString(resolver, DelayProperty, "stream-listener.delay");
      if global.Err? then Err(global.ex)
      else if !HasText(global.value) then Ok(DefaultDelay)
      else ParseLong(global.value.value)
  }

  /** A UUID is a 128-bit number. */
  const UuidBound: nat := 0x1_0000_0000_0000_0000_0000_0000_0000_0000

  /** generateHash: the first seven characters of the UUID's text form,
      that is its top 28 bits as lower-case hexadecimal digits (the byte
      array round trip leaves the UUID as it was). */
  function GenerateHash(uuid: nat): (h: string)
    requires uuid < UuidBound
    ensures |h| == 7
    ensures forall i :: 0 <= i < |h| ==> h[i] in "0123456789abcdef"
  {
    HexDigits(uuid / 0x10_0000_0000_0000_0000_0000_0000, 7)
  }

  /** getEndpointId: the annotation's id, verbatim, when it resolves to
      text; otherwise the global id property (or, when that gives nothing,
      the bean name) followed by "_" and the hash. */
  function GetEndpointId(resolver: Resolver, a: StreamListener, beanName: string, uuid: nat): (r: Result<string>)
    requires uuid < UuidBound
    ensures Given(a.id) && resolver(a.id).Other? ==> r == Err(NotAString("id", resolver(a.id).className, a.id))
    ensures Given(a.id) && GivesText(resolver, a.id) ==> r == Ok(resolver(a.id).text)
    ensures !Given(a.id) || GivesNothing(resolver, a.id) ==>
      r == (if resolver(IdProperty).Other? then
              Err(NotAString("stream-listener.id", resolver(IdProperty).className, IdProperty))
            else
              var base := if GivesText(resolver, IdProperty) then resolver(IdProperty).text else beanName;
              Ok(base + "_" + GenerateHash(uuid)))
  {
    var local := AnnotationValue(resolver, a.id, "id");
    if local.Err? then Err(local.ex)
    else if HasText(local.value) then Ok(local.value.value)
    else
      var global := ResolveExpressionAsString(resolver, IdProperty, "stream-listener.id");
      if global.Err? then Err(global.ex)
      else
        var base := if HasText(global.value) then global.value.value else beanName;
        Ok(base + "_" + GenerateHash(uuid))
  }

  /** getEndpointGroupId: the annotation's group id, else the global
      group-id property, else the HOSTNAME environment variable (taken as it
      is, not resolved), else the endpoint id when `idIsGroup`, else
      whatever `spring.application.name` resolves to, null included. */
  function GetEndpointGroupId(resolver: Resolver, a: StreamListener, id: string, hostname: Option<string>): (r: Result<Option<string>>)
    ensures Given(a.groupId) && resolver(a.groupId).Other? ==>
      r == Err(NotAString("groupId", resolver(a.groupId).className, a.groupId))
    ensures Given(a.groupId) && GivesText(resolver, a.groupId) ==> r == Ok(Some(resolver(a.groupId).text))
    ensures !Given(a.groupId) || GivesNothing(resolver, a.groupId) ==>
      r == (if resolver(GroupIdProperty).Other? then
              Err(NotAString("stream-listener.group-id", resolver(GroupIdProperty).className, GroupIdProperty))
            else if GivesText(resolver, GroupIdProperty) then Ok(Some(resolver(GroupIdProperty).text))
            else if HasText(hostname) then Ok(hostname)
            else if a.idIsGroup then Ok(Some(id))
            else ResolveExpressionAsString(resolver, ApplicationNameProperty, "spring.application.name"))
  {
    var local := AnnotationValue(resolver, a.groupId, "groupId");
    if local.Err? then Err(local.ex)
    else if HasText(local.value) then Ok(local.value)
    else
      var global := ResolveExpressionAsString(resolver, GroupIdProperty, "stream-listener.group-id");
      if global.Err? then Err(global.ex)
      else if HasText(global.value) then Ok(global.value)
      else if HasText(hostname) then Ok(hostname)
      else if a.idIsGroup then Ok(Some(id))
      else ResolveExpressionAsString(resolver, ApplicationNameProperty, "spring.application.name")
  }

  /** getEndpointTopic: only the first topic counts. It wins when it
      resolves to text; else the global topics property does; else the
      first topic is returned unresolved, and without any topic reading it
      fails. */
  function GetEndpointTopic(resolver: Resolver, a: StreamListener): (r: Result<string>)
    ensures a.topics != [] && Given(a.topics[0]) && resolver(a.topics[0]).Other? ==>
      r == Err(NotAString("topics", resolver(a.topics[0]).className, a.topics[0]))
    ensures a.topics != [] && Given(a.topics[0]) && GivesText(resolver, a.topics[0]) ==>
      r == Ok(resolver(a.topics[0]).text)
    ensures a.topics == [] || !Given(a.topics[0]) || GivesNothing(resolver, a.topics[0]) ==>
      r == (if resolver(TopicsProperty).Other? then
              Err(NotAString("stream-listener.topics", resolver(TopicsProperty).className, TopicsProperty))
            else if GivesText(resolver, TopicsProperty) then Ok(resolver(TopicsProperty).text)
            else if a.topics == [] then Err(IndexZeroOfEmpty)
            else Ok(a.topics[0]))
  {
    var local := if a.topics == [] then Ok(None) else AnnotationValue(resolver, a.topics[0], "topics");
    if local.Err? then Err(local.ex)
    else if HasText(local.value) then Ok(local.value.value)
    else
      var global := ResolveExpressionAsString(resolver, TopicsProperty, "stream-listener.topics");
      if global.Err? then Err(global.ex)
      else if HasText(global.value) then Ok(global.value.value)
      else if a.topics == [] then Err(IndexZeroOfEmpty)
      else Ok(a.topics[0])
  }

  /** isBatchConsumer: an explicit `batch` text is parsed as it is (it is
      not resolved); otherwise the consumer is a batch consumer exactly when
      its first parameter is a Collection. `parameters` says, per parameter
      of the listener method, whether its type is a Collection. */
  function IsBatchConsumer(a: StreamListener, parameters: seq<bool>): (r: Result<bool>)
    ensures Given(a.batch) ==> r == Ok(ParseBoolean(Some(a.batch)))
    ensures !Given(a.batch) ==> r == if parameters == [] then Err(IndexZeroOfEmpty) else Ok(parameters[0])
  {
    if Given(a.batch) then Ok(ParseBoolean(Some(a.batch)))
    else if parameters == [] then Err(IndexZeroOfEmpty)
    else Ok(parameters[0])
  }

  /** `value` resolves to a String that Boolean.parseBoolean reads as true. */
  predicate GivesTrue(resolver: Resolver, value: string) {
    resolver(value).Text? && ParseBoolean(Some(resolver(value).text))
  }

  /** One value resolved and parsed with Boolean.parseBoolean: true
      exactly when it resolves to a String that reads as true. */
  function ParsedFlag(resolver: Resolver, value: string, attribute: string): (r: Result<bool>)
    ensures r == if resolver(value).Other? then Err(NotAString(attribute, resolver(value).className, value))
                 else Ok(GivesTrue(resolver, value))
  {
    var v := ResolveExpressionAsString(resolver, value, attribute);
    if v.Err? then Err(v.ex)
    else
      PlaceholderIsNotTrue(resolver, value);
      Ok(ParseBoolean(v.value))
  }

  lemma PlaceholderIsNotTrue(resolver: Resolver, value: string)
    ensures resolver(value).Text? && Unresolved(resolver(value).text) ==> !GivesTrue(resolver, value)
  {
    if GivesTrue(resolver, value) {
      TrueIsText(resolver(value).text);
    }
  }

  function IsAutoStartup(resolver: Resolver, a: StreamListener): (r: Result<bool>)
    ensures Given(a.autoStartup) ==>
      r == if resolver(a.autoStartup).Other? then Err(NotAString("autoStartup", resolver(a.autoStartup).className, a.autoStartup))
           else Ok(GivesTrue(resolver, a.autoStartup))
    ensures !Given(a.autoStartup) ==>
      r == if resolver(AutoStartupProperty).Other? then
             Err(NotAString("stream-listener.auto-startup", resolver(AutoStartupProperty).className, AutoStartupProperty))
           else Ok(GivesTrue(resolver, AutoStartupProperty))
  {
    if Given(a.autoStartup) then ParsedFlag(resolver, a.autoStartup, "autoStartup")
    else ParsedFlag(resolver, AutoStartupProperty, "stream-listener.auto-startup")
  }

  function IsConcurrency(resolver: Resolver, a: StreamListener): (r: Result<bool>)
    ensures Given(a.concurrency) ==>
      r == if resolver(a.concurrency).Other? then Err(NotAString("concurrency", resolver(a.concurrency).className, a.concurrency))
           else Ok(GivesTrue(resolver, a.concurrency))
    ensures !Given(a.concurrency) ==>
      r == if resolver(ConcurrencyProperty).Other? then
             Err(NotAString("stream-listener.concurrency", resolver(ConcurrencyProperty).className, ConcurrencyProperty))
           else Ok(GivesTrue(resolver, ConcurrencyProperty))
  {
    if Given(a.concurrency) then ParsedFlag(resolver, a.concurrency, "concurrency")
    else ParsedFlag(resolver, ConcurrencyProperty, "stream-listener.concurrency")
  }

  /** A value that gives nothing does not read as true. */
  lemma NothingIsNotTrue(resolver: Resolver, value: string)
    requires GivesNothing(resolver, value)
    ensures !GivesTrue(resolver, value)
  {
    if GivesTrue(resolver, value) {
      TrueIsText(resolver(value).text);
    }
  }

  /** With nothing configured, a bare annotation gives the 250 ms delay,
      no auto-startup and no concurrency. */
  lemma BareSettings(resolver: Resolver)
    requires GivesNothing(resolver, DelayProperty)
    requires GivesNothing(resolver, AutoStartupProperty) && GivesNothing(resolver, ConcurrencyProperty)
    ensures GetDelay(resolver, Bare) == Ok(DefaultDelay)
    ensures IsAutoStartup(resolver, Bare) == Ok(false)
    ensures IsConcurrency(resolver, Bare) == Ok(false)
  {
    assert !Given("");
    NothingIsNotTrue(resolver, AutoStartupProperty);
    NothingIsNotTrue(resolver, ConcurrencyProperty);
  }

  /** With nothing configured, a bare annotation gives the bean name plus
      "_" and the hash as the id, and the HOSTNAME or else that id as the
      group (`idIsGroup` defaults to true, so `spring.application.name` is
      not consulted); without a topic, reading it fails. */
  lemma BareIdentity(resolver: Resolver, beanName: string, uuid: nat, hostname: Option<string>)
    requires uuid < UuidBound
    requires GivesNothing(resolver, IdProperty) && GivesNothing(resolver, GroupIdProperty)
    requires GivesNothing(resolver, TopicsProperty)
    ensures GetEndpointId(resolver, Bare, beanName, uuid) == Ok(beanName + "_" + GenerateHash(uuid))
    ensures GetEndpointGroupId(resolver, Bare, beanName + "_" + GenerateHash(uuid), hostname) ==
      Ok(if HasText(hostname) then hostname else Some(beanName + "_" + GenerateHash(uuid)))
    ensures GetEndpointTopic(resolver, Bare) == Err(IndexZeroOfEmpty)
  {
    assert !Given("");
  }

  /** A generated id is the base followed by "_" and seven hexadecimal
      digits, so it is eight characters longer than its base. */
  lemma GeneratedIdShape(resolver: Resolver, a: StreamListener, beanName: string, uuid: nat)
    requires uuid < UuidBound
    requires !Given(a.id) || GivesNothing(resolver, a.id)
    requires !resolver(IdProperty).Other?
    ensures var base := if GivesText(resolver, IdProperty) then resolver(IdProperty).text else beanName;
      && GetEndpointId(resolver, a, beanName, uuid).Ok?
      && |GetEndpointId(resolver, a, beanName, uuid).value| == |base| + 8
      && StartsWith(GetEndpointId(resolver, a, beanName, uuid).value, base + "_")
  {
    var base := if GivesText(resolver, IdProperty) then resolver(IdProperty).text else beanName;
    var id := GetEndpointId(resolver, a, beanName, uuid).value;
    assert id == (base + "_") + GenerateHash(uuid);
    assert id[..|base + "_"|] == base + "_";
  }

  /** Once the annotation gives an auto-startup value, the global property
      is not consulted: a value that resolves to nothing means false even
      when the global property says true. */
  lemma AutoStartupDoesNotFallBack(resolver: Resolver, a: StreamListener)
    requires Given(a.autoStartup) && GivesNothing(resolver, a.autoStartup)
    requires GivesTrue(resolver, AutoStartupProperty)
    ensures IsAutoStartup(resolver, a) == Ok(false)
    ensures IsAutoStartup(resolver, a.(autoStartup := "")) == Ok(true)
  {
    NothingIsNotTrue(resolver, a.autoStartup);
    assert !Given("");
  }

  /** Text that Boolean.parseBoolean reads as true has text in it and is
      no placeholder. */
  lemma TrueIsText(v: string)
    requires ParseBoolean(Some(v))
    ensures HasText(Some(v)) && !Unresolved(v)
  {
    assert !IsWhitespace(v[0]);
    assert Trim(v) == v by {
      assert TrimLeading(v) == v;
      assert TrimTrailing(v) == v;
    }
  }

  /** A first topic that stays a placeholder is returned as it is when the
      global topics property gives nothing either. */
  lemma UnresolvedTopicKept(resolver: Resolver, a: StreamListener)
    requires a.topics != [] && Given(a.topics[0]) && GivesNothing(resolver, a.topics[0])
    requires GivesNothing(resolver, TopicsProperty)
    ensures GetEndpointTopic(resolver, a) == Ok(a.topics[0])
  {
  }

  /** The bean post-processor hooks. The publisher is the one the
      configuration hands in; it may be null. */
  class StreamListenerPostProcessor {
    const publisher: StreamEventPublisher?

    constructor (publisher: StreamEventPublisher?)
      ensures this.publisher == publisher
    {
      this.publisher := publisher;
    }

    /** requiresDestruction: every bean does. */
    method RequiresDestruction<B>(bean: B) returns (r: bool)
      ensures r
    {
      r := true;
    }

    /** postProcessBeforeInitialization: the bean, unchanged. */
    method PostProcessBeforeInitialization<B>(bean: B, beanName: string) returns (r: B)
      ensures r == bean
    {
      r := bean;
    }

    /** postProcessAfterInitialization: registers the endpoint created for
        each `@StreamListener` method of the bean (`created`, in the order
        the methods are visited) and hands back the bean unchanged; with a
        null publisher the first registration throws. */
    method PostProcessAfterInitialization<B>(bean: B, beanName: string, created: seq<StreamListenerEndpoint>)
      returns (r: Result<B>)
      modifies publisher
      ensures r.Ok? ==> r.value == bean
      ensures publisher == null ==> r == if created == [] then Ok(bean) else Err(Exception("java.lang.NullPointerException", None))
      ensures publisher != null ==> r == Ok(bean)
      ensures publisher != null ==>
        && publisher.endpoints == old(publisher.endpoints) + (set i | 0 <= i < |created| :: created[i])
        && publisher.endpointIds == old(publisher.endpointIds)
        && publisher.registrar == old(publisher.registrar)
        && publisher.sleeps == old(publisher.sleeps)
    {
      if publisher == null {
        if created != [] {
          return Err(Exception("java.lang.NullPointerException", None));
        }
        return Ok(bean);
      }
      var i := 0;
      while i < |created|
        invariant 0 <= i <= |created|
        invariant publisher.endpoints == old(publisher.endpoints) + (set k | 0 <= k < i :: created[k])
        invariant publisher.endpointIds == old(publisher.endpointIds)
        invariant publisher.registrar == old(publisher.registrar)
        invariant publisher.sleeps == old(publisher.sleeps)
      {
        publisher.RegisterStreamListenerEndpoint(created[i]);
        assert (set k | 0 <= k < i + 1 :: created[k]) == (set k | 0 <= k < i :: created[k]) + {created[i]};
        i := i + 1;
      }
      r := Ok(bean);
    }

    /** postProcessBeforeDestruction: destroys the publisher when there is
        one, and what that throws propagates. */
    method PostProcessBeforeDestruction<B>(bean: B, beanName: string) returns (failure: Option<Exception>)
      modifies if publisher != null && publisher.registrar != null then {publisher.registrar} else {}
      ensures publisher == null ==> failure == None
      ensures publisher != null && publisher.registrar == null ==>
        failure == Some(Exception("java.lang.NullPointerException", None))
      ensures publisher != null && publisher.registrar != null ==>
        failure == None && publisher.registrar.destroyed && publisher.registrar.cronTasks == old(publisher.registrar.cronTasks)
    {
      failure := None;
      if publisher != null {
        failure := publisher.Destroy();
      }
    }
  }
}
