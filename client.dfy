/** `rele/client.py`: the thin wrappers around the Pub/Sub SDK clients. The
    SDK is represented by the state it keeps on the server side (which
    subscriptions exist) and the requests handed to it (streaming pulls and
    published messages); its failures are inputs. */
module Client {
  import opened Wrappers
  import opened Exceptions
  import opened Messages
  import opened Subscriptions
  import opened Utf8

  /** The SDK's `subscription_path(project, name)`. */
  function SubscriptionPath(project: string, name: string): (r: string)
    ensures |r| == |project| + |name| + 24
    ensures r[..9] == "projects/" && r[|r| - |name|..] == name
  {
    "projects/" + project + "/subscriptions/" + name
  }

  /** The SDK's `topic_path(project, name)`. */
  function TopicPath(project: string, name: string): (r: string)
    ensures |r| == |project| + |name| + 17
    ensures r[..9] == "projects/" && r[|r| - |name|..] == name
  {
    "projects/" + project + "/topics/" + name
  }

  /** Within one project, a subscription path names one subscription. */
  lemma SubscriptionPathInjective(project: string, a: string, b: string)
    requires SubscriptionPath(project, a) == SubscriptionPath(project, b)
    ensures a == b
  {
    var p := SubscriptionPath(project, a);
    assert a == p[|p| - |a|..];
  }

  /** Within one project, a topic path names one topic. */
  lemma TopicPathInjective(project: string, a: string, b: string)
    requires TopicPath(project, a) == TopicPath(project, b)
    ensures a == b
  {
    var p := TopicPath(project, a);
    assert a == p[|p| - |a|..];
  }

  /** What the SDK's `create_subscription` raises for a path that is taken. */
  function AlreadyExistsError(path: string): Exception
  {
    Exception(AlreadyExistsClass, path)
  }

  /** `with suppress(cls)`: an exception that is an instance of `cls` ends the
      block normally; anything else is left as it is. */
  function Suppress(o: Outcome<Exception>, cls: ExceptionClass): (r: Outcome<Exception>)
    ensures r.Pass? <==> o.Pass? || IsInstance(o.error, cls)
    ensures r.Fail? ==> r == o
  {
    if o.Fail? && IsInstance(o.error, cls) then Pass else o
  }

  /** The SDK's `create_subscription(name=path, topic=topicPath)` against the
      table `server` of existing subscriptions (path to topic path). A request
      that fails on its own account (`fault`: a permission error, an
      unavailable service, a deadline) raises that error whether or not the
      path is taken; otherwise a taken path raises `AlreadyExists` and a free
      one is created. */
  function SdkCreate(server: map<string, string>, path: string, topicPath: string, fault: Option<Exception>)
    : (map<string, string>, Outcome<Exception>)
  {
    if fault.Some? then (server, Fail(fault.value))
    else if path in server then (server, Fail(AlreadyExistsError(path)))
    else (server[path := topicPath], Pass)
  }

  /** `create_subscription` as a whole: the SDK call inside
      `suppress(AlreadyExists)`. */
  function CreateOutcome(server: map<string, string>, path: string, topicPath: string, fault: Option<Exception>)
    : (map<string, string>, Outcome<Exception>)
  {
    var (after, o) := SdkCreate(server, path, topicPath, fault);
    (after, Suppress(o, AlreadyExistsClass))
  }

  /** Once the subscription exists, a further create leaves the server as it
      is, and it completes without error unless the SDK fails with something
      other than an `AlreadyExists`, which then reaches the caller. */
  lemma CreateIdempotent(server: map<string, string>, path: string, topicPath: string, fault: Option<Exception>)
    requires path in server
    ensures var (after, r) := CreateOutcome(server, path, topicPath, fault);
      && after == server
      && (r.Pass? <==> fault.None? || IsInstance(fault.value, AlreadyExistsClass))
      && (r.Fail? ==> r.error == fault.value)
  {
  }

  /** An error reaches the caller exactly when the SDK fails with something
      other than an `AlreadyExists`, taken path or not; the subscription is
      added only by a request that succeeds on a free path, and nothing else
      changes. */
  lemma CreateErrors(server: map<string, string>, path: string, topicPath: string, fault: Option<Exception>)
    ensures var (after, r) := CreateOutcome(server, path, topicPath, fault);
      && (r.Fail? <==> fault.Some? && !IsInstance(fault.value, AlreadyExistsClass))
      && (r.Fail? ==> r.error == fault.value)
      && (path !in server && fault.None? ==> after == server[path := topicPath])
      && (path in server || fault.Some? ==> after == server)
  {
  }

  /** A streaming pull opened by `subscribe`: the subscription path and the
      callback handed to the SDK. */
  datatype Pull = Pull(path: string, callback: Callback)

  class Subscriber {
    /** `settings.GC_PROJECT_ID`, used for subscription paths. */
    const project: string
    /** `settings.RELE_GC_PROJECT_ID`, used for topic paths. */
    const topicProject: string
    /** The subscriptions that exist on the server: path to topic path. */
    var server: map<string, string>
    /** The streaming pulls requested so far. */
    var pulls: seq<Pull>

    constructor (project: string, topicProject: string, server: map<string, string>)
      ensures this.project == project && this.topicProject == topicProject
      ensures this.server == server && pulls == []
    {
      this.project := project;
      this.topicProject := topicProject;
      this.server := server;
      pulls := [];
    }

    /** The SDK call itself. */
    method SdkCreateSubscription(path: string, topicPath: string, fault: Option<Exception>)
      returns (r: Outcome<Exception>)
      modifies this`server
      ensures (server, r) == SdkCreate(old(server), path, topicPath, fault)
    {
      if fault.Some? {
        return Fail(fault.value);
      }
      if path in server {
        return Fail(AlreadyExistsError(path));
      }
      server := server[path := topicPath];
      r := Pass;
    }

    /** `create_subscription(subscription, topic)`: the subscription path
        uses `GC_PROJECT_ID`, the topic path `RELE_GC_PROJECT_ID`; an
        `AlreadyExists` from the SDK is swallowed. */
    method CreateSubscription(subscription: string, topic: string, fault: Option<Exception>)
      returns (r: Outcome<Exception>)
      modifies this`server
      ensures (server, r) == CreateOutcome(old(server), SubscriptionPath(project, subscription),
                                           TopicPath(topicProject, topic), fault)
    {
      var path := SubscriptionPath(project, subscription);
      var topicPath := TopicPath(topicProject, topic);
      var o := SdkCreateSubscription(path, topicPath, fault);
      if o.Fail? && IsInstance(o.error, AlreadyExistsClass) {
        r := Pass;
      } else {
        r := o;
      }
    }

    /** `subscribe(subscription_name, callback)`: one streaming pull on the
        subscription path of that name, with the callback unchanged. */
    method Subscribe(subscriptionName: string, callback: Callback) returns (p: Pull)
      modifies this`pulls
      ensures p == Pull(SubscriptionPath(project, subscriptionName), callback)
      ensures pulls == old(pulls) + [p]
    {
      p := Pull(SubscriptionPath(project, subscriptionName), callback);
      pulls := pulls + [p];
    }
  }

  /** One call of the SDK's `publish(topic_path, data, **attrs)`. */
  datatype Sent = Sent(topicPath: string, data: seq<byte>, attrs: map<string, string>)

  /** What `publish` makes of the way `future.result(timeout=2.0)` ends:
      `None` when it returns, `Some(e)` when it raises `e` (a timeout raises
      `TimeoutError`). An `Exception` becomes `False`; anything else
      propagates. */
  function FutureResult(outcome: Option<Exception>): (r: Result<bool, Exception>)
    ensures r == Success(true) <==> outcome.None?
    ensures r == Success(false) <==> outcome.Some? && IsInstance(outcome.value, ExceptionRootClass)
    ensures r.Failure? <==> outcome.Some? && !IsInstance(outcome.value, ExceptionRootClass)
    ensures r.Failure? ==> r.error == outcome.value
  {
    match outcome
    case None => Success(true)
    case Some(e) => if IsInstance(e, ExceptionRootClass) then Success(false) else Failure(e)
  }

  /** A publish that times out reports `False` rather than raising. */
  lemma TimeoutIsFalse(message: string)
    ensures FutureResult(Some(Exception(TimeoutErrorClass, message))) == Success(false)
  {
    CaughtByExceptClause();
  }

  /** The parameters of `Publisher.publish` besides `**attrs`. */
  const PublishParameters: set<string> := {"self", "topic", "data"}

  /** An attribute would bind a parameter of `publish` that is already
      bound. */
  predicate PublishClash(attrs: map<string, string>)
  {
    exists k :: k in attrs && k in PublishParameters
  }

  /** What a call of `publish` raises on such a clash. */
  const PublishClashError := Exception(TypeErrorClass, "publish() got multiple values for argument")

  /** The message reaches the SDK: the arguments bind and the SDK's own
      `publish` call returns. */
  predicate HandsOver(attrs: map<string, string>, sendFault: Option<Exception>)
  {
    !PublishClash(attrs) && sendFault.None?
  }

  /** The result of `publish` as a whole: an attribute clash raises
      `TypeError` before the body runs; the SDK's `publish` call sits
      outside the `try`, so an error it raises (`sendFault`) propagates
      unchanged; otherwise the future decides, as `FutureResult` says. */
  function PublishResult(attrs: map<string, string>, sendFault: Option<Exception>, outcome: Option<Exception>)
    : Result<bool, Exception>
  {
    if PublishClash(attrs) then Failure(PublishClashError)
    else if sendFault.Some? then Failure(sendFault.value)
    else FutureResult(outcome)
  }

  /** `publish` raises exactly when an attribute clashes with a parameter,
      the SDK call raises, or the future raises something outside
      `Exception`; it returns `False` exactly when the message was handed
      over and the future raised an `Exception`, and `True` exactly when it
      was handed over and the future returned. */
  lemma PublishRaises(attrs: map<string, string>, sendFault: Option<Exception>, outcome: Option<Exception>)
    ensures var r := PublishResult(attrs, sendFault, outcome);
      && (r.Failure? <==> PublishClash(attrs) || sendFault.Some?
                          || (outcome.Some? && !IsInstance(outcome.value, ExceptionRootClass)))
      && (PublishClash(attrs) ==> r == Failure(PublishClashError))
      && (r == Success(false) <==> HandsOver(attrs, sendFault) && outcome.Some? && IsInstance(outcome.value, ExceptionRootClass))
      && (r == Success(true) <==> HandsOver(attrs, sendFault) && outcome.None?)
  {
  }

  class Publisher {
    /** The project of the topic paths (`settings.RELE_GC_PROJECT_ID`). */
    const project: string
    /** The messages handed to the SDK publisher client. */
    var sent: seq<Sent>

    constructor (project: string)
      ensures this.project == project && sent == []
    {
      this.project := project;
      sent := [];
    }

    /** `publish(topic, data, **attrs)`: the payload is `dumps(data)` (the
        `json.dumps` of the data) encoded as UTF-8, the topic path uses the
        publisher's project, and the attributes go to the SDK unchanged. An
        attribute clash or an SDK call that raises hands nothing over;
        otherwise one message is handed over. The result is
        `PublishResult`. */
    method Publish(topic: string, data: Json, attrs: map<string, string>, dumps: Json -> string,
                   sendFault: Option<Exception>, outcome: Option<Exception>)
      returns (r: Result<bool, Exception>)
      modifies this`sent
      ensures !HandsOver(attrs, sendFault) ==> sent == old(sent)
      ensures HandsOver(attrs, sendFault) ==>
        sent == old(sent) + [Sent(TopicPath(project, topic), Encode(dumps(data)), attrs)]
      ensures r == PublishResult(attrs, sendFault, outcome)
    {
      if "self" in attrs || "topic" in attrs || "data" in attrs {
        return Failure(PublishClashError);
      }
      var payload := Encode(dumps(data));
      var topicPath := TopicPath(project, topic);
      if sendFault.Some? {
        return Failure(sendFault.value);
      }
      sent := sent + [Sent(topicPath, payload, attrs)];
      match outcome {
        case None =>
          r := Success(true);
        case Some(e) =>
          if IsInstance(e, ExceptionRootClass) {
            r := Success(false);
          } else {
            r := Failure(e);
          }
      }
    }
  }

  /** The payload a publish hands to the SDK decodes back to the JSON text it
      was made from. */
  lemma PublishedPayloadDecodes(m: Sent, dumps: Json -> string, data: Json)
    requires m.data == Encode(dumps(data))
    ensures Decode(m.data) == Some(dumps(data))
  {
    DecodeEncode(dumps(data));
  }

  /** `_PublisherSingleton`: the metaclass and its class attribute
      `_instance`. */
  class PublisherSingleton {
    var instance: Publisher?

    constructor ()
      ensures instance == null
    {
      instance := null;
    }

    /** `Publisher(...)`: the first call constructs a publisher and keeps it;
        every later call returns that same object, whatever it is passed. */
    method Call(project: string) returns (p: Publisher)
      modifies this
      ensures old(instance) != null ==> p == old(instance)
      ensures old(instance) == null ==> fresh(p) && p.project == project && p.sent == []
      ensures instance == p
    {
      if instance == null {
        instance := new Publisher(project);
      }
      p := instance;
    }
  }
}
