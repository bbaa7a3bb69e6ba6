/** `rele/publishing.py`: the process-wide publisher slot `_publisher`, filled
    once by `init_global_publisher` and used by the `publish` shortcut. */
module Publishing {
  import opened Wrappers
  import opened Exceptions
  import opened Messages
  import opened Client
  import opened Utf8

  /** The part of a `rele.config.Config` the publisher is built from. */
  datatype Config = Config(gcProjectId: string, credentials: string)

  /** What `publish` raises before `init_global_publisher` has run. */
  const NotInitialised := Exception(ValueErrorClass, "init_global_publisher must be called first.")

  /** What the `publish` shortcut reports for a given result of
      `Publisher.publish`: the boolean is dropped (the shortcut returns
      `None`), and an error that escaped `Publisher.publish` propagates. */
  function ShortcutOutcome(published: Result<bool, Exception>): (r: Outcome<Exception>)
    ensures r.Pass? <==> published.Success?
    ensures r.Fail? ==> r.error == published.error
  {
    if published.Success? then Pass else Fail(published.error)
  }

  /** A publish whose future returns or raises an `Exception` ends normally;
      only an attribute clash, an error of the SDK call itself, or one
      outside `Exception` from the future reaches the caller. */
  lemma ShortcutSwallowsExceptions(attrs: map<string, string>, sendFault: Option<Exception>, outcome: Option<Exception>)
    ensures ShortcutOutcome(PublishResult(attrs, sendFault, outcome)).Fail? <==>
      PublishClash(attrs) || sendFault.Some? || (outcome.Some? && !IsInstance(outcome.value, ExceptionRootClass))
  {
  }

  /** The parameters of the `publish` shortcut besides `**kwargs`. */
  const ShortcutParameters: set<string> := {"topic", "data"}

  /** A keyword argument would bind a parameter of the shortcut that is
      already bound. */
  predicate ShortcutClash(attrs: map<string, string>)
  {
    exists k :: k in attrs && k in ShortcutParameters
  }

  /** A clash with the shortcut's parameters is a clash with those of
      `Publisher.publish`, with the same error. */
  lemma ShortcutClashIsPublishClash(attrs: map<string, string>, sendFault: Option<Exception>, outcome: Option<Exception>)
    requires ShortcutClash(attrs)
    ensures PublishClash(attrs) && ShortcutOutcome(PublishResult(attrs, sendFault, outcome)) == Fail(PublishClashError)
  {
    var k :| k in attrs && k in ShortcutParameters;
    assert k in PublishParameters;
  }

  /** The module-level `_publisher` variable. */
  class GlobalPublisher {
    var publisher: Publisher?

    /** Import of the module: `_publisher = None`. */
    constructor ()
      ensures publisher == null
    {
      publisher := null;
    }

    /** `init_global_publisher(config)`: when the slot is empty, a publisher
        is obtained from the `Publisher` singleton for the configured
        project and stored; when it is full, it is kept. Either way the
        stored publisher is returned. */
    method InitGlobalPublisher(singleton: PublisherSingleton, config: Config) returns (p: Publisher)
      modifies this, singleton
      ensures publisher == p
      ensures old(publisher) == null ==> singleton.instance == p
      ensures old(publisher) != null ==> p == old(publisher) && unchanged(singleton)
      ensures old(publisher) == null && old(singleton.instance) != null ==> p == old(singleton.instance)
      ensures old(publisher) == null && old(singleton.instance) == null ==>
        fresh(p) && p.project == config.gcProjectId && p.sent == []
    {
      if publisher == null {
        publisher := singleton.Call(config.gcProjectId);
      }
      p := publisher;
    }

    /** `publish(topic, data, **kwargs)`: a keyword argument named `topic`
        or `data` raises `TypeError` before the body runs; otherwise
        `ValueError` when the slot is empty; otherwise the stored publisher's
        `publish` runs with the topic, data and attributes unchanged, and the
        slot keeps the same publisher. */
    method Publish(topic: string, data: Json, attrs: map<string, string>, dumps: Json -> string,
                   sendFault: Option<Exception>, outcome: Option<Exception>)
      returns (r: Outcome<Exception>)
      modifies publisher
      ensures publisher == old(publisher)
      ensures ShortcutClash(attrs) ==> r == Fail(PublishClashError)
      ensures old(publisher) == null && !ShortcutClash(attrs) ==> r == Fail(NotInitialised)
      ensures old(publisher) != null ==> r == ShortcutOutcome(PublishResult(attrs, sendFault, outcome))
      ensures old(publisher) != null && !HandsOver(attrs, sendFault) ==> publisher.sent == old(publisher.sent)
      ensures old(publisher) != null && HandsOver(attrs, sendFault) ==>
        publisher.sent == old(publisher.sent) + [Sent(TopicPath(publisher.project, topic), Encode(dumps(data)), attrs)]
    {
      if "topic" in attrs || "data" in attrs {
        if publisher != null {
          ShortcutClashIsPublishClash(attrs, sendFault, outcome);
        }
        return Fail(PublishClashError);
      }
      if publisher == null {
        return Fail(NotInitialised);
      }
      var published := publisher.Publish(topic, data, attrs, dumps, sendFault, outcome);
      r := if published.Success? then Pass else Fail(published.error);
    }
  }
}
