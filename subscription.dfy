/** `rele/subscription.py`: binding a handler to a topic under a derived
    subscription name, and the per-message callback that decodes a message,
    runs the handler and acknowledges the message when the handler succeeds. */
module Subscriptions {
  import opened Wrappers
  import opened Strings
  import opened Exceptions
  import opened Messages
  import opened Utf8

  /** What one call of a user handler does: return a value or raise. */
  datatype HandlerOutcome = Returned(value: Json) | Raised(error: Exception)

  /** A user handler: its `__name__` and its behaviour on a payload and the
      message attributes passed as keyword arguments. */
  datatype Handler = Handler(name: string, run: (Json, map<string, string>) -> HandlerOutcome)

  /** `settings.BASE_DIR.split("/")[-1]`: the text after the last slash, or
      the whole path when it has none. */
  function LastSegment(path: string): (r: string)
    ensures '/' !in r
    ensures '/' !in path ==> r == path
    ensures '/' in path ==> |r| < |path| && path[|path| - |r|..] == r && path[|path| - |r| - 1] == '/'
  {
    var parts := Split(path, '/');
    JoinSplit(path, '/');
    if |parts| >= 2 then JoinSnoc(parts, '/'); Last(parts)
    else SplitWithoutSeparator(path, '/'); Last(parts)
  }

  /** Python truthiness of the optional suffix: present and non-empty. */
  predicate Truthy(suffix: Option<string>)
  {
    suffix.Some? && suffix.value != ""
  }

  /** The name `Subscription.__init__` derives: the last segment of the base
      directory, a dash, the topic, and `-suffix` only for a truthy suffix. */
  function SubscriptionName(baseDir: string, topic: string, suffix: Option<string>): (r: string)
    ensures var app := LastSegment(baseDir);
      && |r| >= |app| + 1 + |topic|
      && r[..|app|] == app
      && r[|app|] == '-'
      && r[|app| + 1..|app| + 1 + |topic|] == topic
      && (Truthy(suffix) <==> |r| > |app| + 1 + |topic|)
      && (Truthy(suffix) ==> r[|app| + 1 + |topic|..] == "-" + suffix.value)
  {
    var app := LastSegment(baseDir);
    var tail := if Truthy(suffix) then "-" + suffix.value else "";
    NameLayout(app, topic, tail);
    app + "-" + topic + tail
  }

  /** Where the parts of a subscription name sit. */
  lemma NameLayout(app: string, topic: string, tail: string)
    ensures var r := app + "-" + topic + tail;
      && |r| == |app| + 1 + |topic| + |tail|
      && r[..|app|] == app
      && r[|app|] == '-'
      && r[|app| + 1..|app| + 1 + |topic|] == topic
      && r[|app| + 1 + |topic|..] == tail
  {
  }

  /** An absent suffix and an empty one give the same name. */
  lemma EmptySuffixIgnored(baseDir: string, topic: string)
    ensures SubscriptionName(baseDir, topic, Some("")) == SubscriptionName(baseDir, topic, None)
  {
  }

  /** Whatever precedes the last slash, the segment after it is taken. */
  lemma {:induction false} LastSegmentAfterSlash(head: string, app: string)
    requires '/' !in app
    ensures LastSegment(head + "/" + app) == app
  {
    var path := head + "/" + app;
    var r := LastSegment(path);
    assert path[|path| - |app| - 1] == '/';
    assert r == path[|path| - |app|..] == app;
  }

  /** The name the test suite expects for topic `some-cool-topic` when the
      checkout directory is called `rele`, wherever it lives. */
  lemma ExampleName(parent: string)
    ensures SubscriptionName(parent + "/rele", "some-cool-topic", None) == "rele-some-cool-topic"
  {
    LastSegmentAfterSlash(parent, "rele");
    assert parent + "/rele" == parent + "/" + "rele";
  }

  /** A side effect of the callback that the rest of the program can observe. */
  datatype Effect =
    | ConnectionsClosed
    | HandlerInvoked(handler: string, data: Json, attributes: map<string, string>)

  /** The record of side effects: Django's `db.close_old_connections()` and
      the calls of user handlers, in the order they happen. */
  class Effects {
    var events: seq<Effect>

    constructor ()
      ensures events == []
    {
      events := [];
    }

    method CloseOldConnections()
      modifies this
      ensures events == old(events) + [ConnectionsClosed]
    {
      events := events + [ConnectionsClosed];
    }
  }

  /** The parameters of `Subscription.__call__` besides `**kwargs`. */
  const BoundParameters: set<string> := {"self", "data"}

  /** An attribute would bind a parameter that is already bound. */
  predicate KeywordClash(attributes: map<string, string>)
  {
    exists k :: k in attributes && k in BoundParameters
  }

  /** What the call of a subscription raises on such a clash. */
  const ClashError := Exception(TypeErrorClass, "__call__() got multiple values for argument")

  class Subscription {
    const func: Handler
    const topic: string
    const name: string

    /** `Subscription(func, topic, suffix)`, with `settings.BASE_DIR` passed
        in as `baseDir`. */
    constructor (func: Handler, topic: string, suffix: Option<string>, baseDir: string)
      ensures this.func == func && this.topic == topic
      ensures name == SubscriptionName(baseDir, topic, suffix)
    {
      this.func := func;
      this.topic := topic;
      var tail := "";
      if Truthy(suffix) {
        tail := "-" + suffix.value;
      }
      name := LastSegment(baseDir) + "-" + topic + tail;
    }

    /** `__call__(data, **kwargs)`. The attributes are bound as keyword
        arguments next to `self` and `data`, so an attribute named after one
        of those raises `TypeError` before the handler runs. Otherwise the
        handler runs on the payload and the attributes, whatever it returns
        is dropped, and an error it raises propagates. */
    method Call(data: Json, attributes: map<string, string>, effects: Effects) returns (r: Outcome<Exception>)
      modifies effects
      ensures KeywordClash(attributes) ==> r == Fail(ClashError) && effects.events == old(effects.events)
      ensures !KeywordClash(attributes) ==>
        && effects.events == old(effects.events) + [HandlerInvoked(func.name, data, attributes)]
        && (r.Pass? <==> func.run(data, attributes).Returned?)
        && (r.Fail? ==> r.error == func.run(data, attributes).error)
    {
      if "self" in attributes || "data" in attributes {
        return Fail(ClashError);
      }
      effects.events := effects.events + [HandlerInvoked(func.name, data, attributes)];
      match func.run(data, attributes)
      case Returned(_) => r := Pass;
      case Raised(e) => r := Fail(e);
    }

    /** `__str__`: the name, then ` - `, then the handler's name. */
    function ToString(): (r: string)
      ensures |r| == |name| + 3 + |func.name|
      ensures r[..|name|] == name && r[|name|..|name| + 3] == " - " && r[|name| + 3..] == func.name
    {
      name + " - " + func.name
    }
  }

  /** `sub(topic, suffix)(func)`: the decorator yields a new subscription
      wrapping the function with that topic and suffix. */
  method Sub(topic: string, suffix: Option<string>, baseDir: string, func: Handler) returns (s: Subscription)
    ensures fresh(s)
    ensures s.func == func && s.topic == topic && s.name == SubscriptionName(baseDir, topic, suffix)
  {
    s := new Subscription(func, topic, suffix, baseDir);
  }

  /** What `bytes.decode('utf-8')` raises on bytes that are not UTF-8. */
  const Utf8Error := Exception(UnicodeDecodeErrorClass, "'utf-8' codec can't decode")

  /** The error `json.loads` raises on text that is not a JSON document. */
  const DecodeError := Exception(JsonDecodeErrorClass, "malformed payload")

  /** `json.loads(data.decode('utf-8'))`, with `json.loads` given as `loads`:
      the payload, or the error that ends the decoding. */
  function DecodePayload(data: seq<byte>, loads: string -> Option<Json>): (r: Result<Json, Exception>)
    ensures r.Failure? ==> r.error in {Utf8Error, DecodeError}
    ensures r.Failure? && r.error == Utf8Error <==> Decode(data).None?
    ensures r.Success? <==> Decode(data).Some? && loads(Decode(data).value).Some?
    ensures r.Success? ==> r.value == loads(Decode(data).value).value
  {
    match Decode(data)
    case None => Failure(Utf8Error)
    case Some(text) =>
      match loads(text)
      case None => Failure(DecodeError)
      case Some(payload) => Success(payload)
  }

  /** A message whose data is the UTF-8 encoding of a text reaches
      `json.loads` with that very text. */
  lemma EncodedPayload(text: string, loads: string -> Option<Json>)
    ensures DecodePayload(Encode(text), loads) ==
      match loads(text)
      case None => Failure(DecodeError)
      case Some(payload) => Success(payload)
  {
    DecodeEncode(text);
  }

  class Callback {
    const subscription: Subscription
    const suffix: Option<string>

    constructor (subscription: Subscription, suffix: Option<string>)
      ensures this.subscription == subscription && this.suffix == suffix
    {
      this.subscription := subscription;
      this.suffix := suffix;
    }

    /** `__call__(message)`. Old database connections are closed first. A
        payload that does not decode as UTF-8 and then as JSON propagates the
        decoding error: no ack, no handler call, no second close. Otherwise
        the subscription is called; the message is acked exactly when it
        returns normally, an `Exception` it raises (the handler's, or the
        `TypeError` of an attribute clash) is swallowed, anything else
        propagates, and the connections are closed again in every case. */
    method Call(message: Message, loads: string -> Option<Json>, effects: Effects) returns (r: Outcome<Exception>)
      modifies message, effects
      ensures DecodePayload(message.data, loads).Failure? ==>
        && r == Fail(DecodePayload(message.data, loads).error)
        && message.acks == old(message.acks)
        && effects.events == old(effects.events) + [ConnectionsClosed]
      ensures DecodePayload(message.data, loads).Success? && KeywordClash(message.attributes) ==>
        && r == Pass
        && message.acks == old(message.acks)
        && effects.events == old(effects.events) + [ConnectionsClosed, ConnectionsClosed]
      ensures DecodePayload(message.data, loads).Success? && !KeywordClash(message.attributes) ==>
        var payload := DecodePayload(message.data, loads).value;
        var outcome := subscription.func.run(payload, message.attributes);
        && effects.events == old(effects.events) + [ConnectionsClosed,
             HandlerInvoked(subscription.func.name, payload, message.attributes), ConnectionsClosed]
        && message.acks == old(message.acks) + (if outcome.Returned? then 1 else 0)
        && (r.Fail? <==> outcome.Raised? && !IsInstance(outcome.error, ExceptionRootClass))
        && (r.Fail? ==> r.error == outcome.error)
    {
      CaughtByExceptClause();
      effects.CloseOldConnections();
      var decoded := DecodePayload(message.data, loads);
      if decoded.Failure? {
        return Fail(decoded.error);
      }
      var outcome := subscription.Call(decoded.value, message.attributes, effects);
      match outcome {
        case Pass =>
          message.Ack();
          r := Pass;
        case Fail(e) =>
          r := if IsInstance(e, ExceptionRootClass) then Pass else Fail(e);
      }
      effects.CloseOldConnections();
    }
  }
}
