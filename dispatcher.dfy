/** The backend's MQTT `message` handler: route on the topic's third
    segment, drop the device's `status` and `server_response` filters on
    `status`, echo the
    escaped payload on `data`, ignore everything else. */
module Dispatcher {
  import opened Topics
  import opened Payload

  /** The namespace written into every outgoing topic, whatever namespace
      the incoming topic had. */
  const Namespace: string := "eco_clients"

  /** The filter subscribed once the connection is up. */
  const InitialFilter: string := "eco_clients/#"

  datatype Publication = Publication(topic: string, payload: string)

  /** What the transport has been asked to do so far: the filters still
      subscribed and every publish issued, oldest first. */
  datatype State = State(subscriptions: set<string>, outbox: seq<Publication>)

  /** The branch the handler takes, with the device id it reuses. */
  datatype Action = Unsubscribe(device: string) | Echo(device: string) | Ignore

  /** `eco_clients/${device}/${channel}`: for a slash-free device id, a
      topic of exactly three segments with the `eco_clients` namespace. */
  function DeviceTopic(device: string, channel: string): (r: string)
    ensures Separator !in device && Separator !in channel ==>
      Split(r) == [Namespace, device, channel]
  {
    var r := Namespace + "/" + device + "/" + channel;
    if Separator in device || Separator in channel then r
    else
      JoinThree(Namespace, device, channel);
      SplitJoin([Namespace, device, channel]);
      r
  }

  /** The topic the `status` branch unsubscribes first. */
  function StatusTopic(device: string): (r: string)
    ensures Separator !in device ==> Split(r) == [Namespace, device, "status"]
  {
    DeviceTopic(device, "status")
  }

  /** The topic the `status` branch unsubscribes second and the `data`
      branch publishes to. */
  function ResponseTopic(device: string): (r: string)
    ensures Separator !in device ==> Split(r) == [Namespace, device, "server_response"]
  {
    DeviceTopic(device, "server_response")
  }

  /** `topic.split("/")[2]` picks the branch and `topic.split("/")[1]` is the
      device id; an index past the end reads `undefined`, which equals
      neither `"status"` nor `"data"`. */
  function Route(topic: string): (a: Action)
    ensures a != Ignore ==> Count(topic, Separator) >= 2 && Separator !in a.device
  {
    var segments := Split(topic);
    if |segments| > 2 && segments[2] == "status" then Unsubscribe(segments[1])
    else if |segments| > 2 && segments[2] == "data" then Echo(segments[1])
    else Ignore
  }

  /** One delivery of `message` on `topic`, as a function of the state. */
  function Handle(s: State, topic: string, message: string): (r: State)
    ensures r.subscriptions <= s.subscriptions
    ensures |s.outbox| <= |r.outbox| <= |s.outbox| + 1 && r.outbox[..|s.outbox|] == s.outbox
    ensures r.subscriptions == s.subscriptions || r.outbox == s.outbox
  {
    match Route(topic)
    case Unsubscribe(device) =>
      State(s.subscriptions - {StatusTopic(device)} - {ResponseTopic(device)}, s.outbox)
    case Echo(device) =>
      State(s.subscriptions, s.outbox + [Publication(ResponseTopic(device), Escape(message))])
    case Ignore => s
  }

  /** Routing reads only the second and third segments: for a well-formed
      topic the namespace and any further segments do not matter, and the
      third segment alone picks the branch. */
  lemma RouteBySegments(namespace: string, device: string, channel: string, more: seq<string>)
    requires SlashFree([namespace, device, channel] + more)
    ensures Route(Join([namespace, device, channel] + more)) ==
      if channel == "status" then Unsubscribe(device)
      else if channel == "data" then Echo(device)
      else Ignore
  {
    SplitJoin([namespace, device, channel] + more);
  }

  /** A topic of fewer than three segments is ignored. */
  lemma RouteShortTopic(topic: string)
    requires Count(topic, Separator) < 2
    ensures Route(topic) == Ignore
  {
  }

  /** The device id is the second segment taken verbatim: it never holds a
      `/`, so the topics built from it have exactly three segments. */
  lemma RoutedDeviceIsSegment(topic: string)
    requires Route(topic) != Ignore
    ensures Separator !in Route(topic).device
    ensures Split(StatusTopic(Route(topic).device)) == [Namespace, Route(topic).device, "status"]
    ensures Split(ResponseTopic(Route(topic).device)) == [Namespace, Route(topic).device, "server_response"]
  {
  }

  /** Any topic whose third segment is neither `status` nor `data` (this
      includes `server_response`) changes nothing. */
  lemma HandleIgnored(s: State, topic: string, message: string)
    requires Route(topic) == Ignore
    ensures Handle(s, topic, message) == s
  {
  }

  /** A `status` message drops exactly the device's `status` and
      `server_response` filters and publishes nothing; no filter is added. */
  lemma HandleStatus(s: State, topic: string, message: string)
    requires Route(topic).Unsubscribe?
    ensures var device := Route(topic).device;
      var r := Handle(s, topic, message);
      && r.outbox == s.outbox
      && (forall f :: f in r.subscriptions <==>
            f in s.subscriptions && f != StatusTopic(device) && f != ResponseTopic(device))
  {
  }

  /** Handling the same `status` message twice leaves the same filters as
      handling it once. */
  lemma HandleStatusIdempotent(s: State, topic: string, message: string)
    requires Route(topic).Unsubscribe?
    ensures Handle(Handle(s, topic, message), topic, message) == Handle(s, topic, message)
  {
  }

  /** A `data` message leaves the filters alone and appends exactly one
      publish: the escaped payload, to the device's response topic in the
      `eco_clients` namespace. */
  lemma HandleData(s: State, topic: string, message: string)
    requires Route(topic).Echo?
    ensures var r := Handle(s, topic, message);
      && r.subscriptions == s.subscriptions
      && |r.outbox| == |s.outbox| + 1
      && r.outbox[|s.outbox|].topic == ResponseTopic(Route(topic).device)
      && r.outbox[|s.outbox|].payload == Escape(message)
      && SingleLine(r.outbox[|s.outbox|].payload)
  {
  }

  /** Whatever namespace the incoming `data` topic had, the echo goes to
      the device's response topic under `eco_clients`. */
  lemma HandleDataAnyNamespace(s: State, namespace: string, device: string, message: string)
    requires SlashFree([namespace, device])
    ensures Handle(s, Join([namespace, device, "data"]), message) ==
      State(s.subscriptions, s.outbox + [Publication(Namespace + "/" + device + "/server_response", Escape(message))])
  {
    RouteBySegments(namespace, device, "data", []);
    assert [namespace, device, "data"] + [] == [namespace, device, "data"];
    assert ResponseTopic(device) == Namespace + "/" + device + "/server_response";
  }

  /** A publish the handler issued, delivered back to it, is ignored: the
      server never answers its own echo. */
  lemma EchoIgnored(topic: string)
    requires Route(topic).Echo?
    ensures Route(ResponseTopic(Route(topic).device)) == Ignore
  {
    RoutedDeviceIsSegment(topic);
  }

  /** The filter subscribed at start-up is never removed by a `status`
      message: the filters that branch drops all end in `/status` or
      `/server_response`. */
  lemma HandleKeepsInitialFilter(s: State, topic: string, message: string)
    ensures InitialFilter in Handle(s, topic, message).subscriptions <==> InitialFilter in s.subscriptions
  {
    if Route(topic).Unsubscribe? {
      var device := Route(topic).device;
      assert StatusTopic(device)[|StatusTopic(device)| - 1] == 's';
      assert ResponseTopic(device)[|ResponseTopic(device)| - 1] == 'e';
      assert InitialFilter[|InitialFilter| - 1] == '#';
    }
  }

  /** Every publish is CR/LF-free and is ignored when fed back. */
  ghost predicate OutboxQuiet(outbox: seq<Publication>)
  {
    forall i :: 0 <= i < |outbox| ==>
      SingleLine(outbox[i].payload) && Route(outbox[i].topic) == Ignore
  }

  /** `OutboxQuiet` holds of every state the handler reaches from one where
      it holds. */
  lemma HandlePreservesQuiet(s: State, topic: string, message: string)
    requires OutboxQuiet(s.outbox)
    ensures OutboxQuiet(Handle(s, topic, message).outbox)
  {
    if Route(topic).Echo? {
      EchoIgnored(topic);
    }
  }

  /** The backend's connection to the broker, as the handler sees it: the
      filters it holds and the publishes it has issued. */
  class Backend {
    var subscriptions: set<string>
    var outbox: seq<Publication>

    ghost function Current(): State
      reads this
    {
      State(subscriptions, outbox)
    }

    /** Every reachable connection: still subscribed to exactly the start-up
        filter, with only single-line, unanswered publishes. */
    ghost predicate Valid()
      reads this
    {
      subscriptions == {InitialFilter} && OutboxQuiet(outbox)
    }

    /** The state once the `connect` callback has subscribed `eco_clients/#`. */
    constructor ()
      ensures Valid()
      ensures subscriptions == {InitialFilter} && outbox == []
    {
      subscriptions := {InitialFilter};
      outbox := [];
    }

    /** `mqtt.unsubscribe(filter)`, on a literal set of filters. */
    method Unsubscribe(filter: string)
      modifies this
      ensures subscriptions == old(subscriptions) - {filter}
      ensures outbox == old(outbox)
    {
      subscriptions := subscriptions - {filter};
    }

    /** `mqtt.publish(topic, payload)`, appended to the outbox. */
    method Publish(topic: string, payload: string)
      modifies this
      ensures subscriptions == old(subscriptions)
      ensures outbox == old(outbox) + [Publication(topic, payload)]
    {
      outbox := outbox + [Publication(topic, payload)];
    }

    /** The `message` callback: one atomic step per delivered message. */
    method OnMessage(topic: string, message: string)
      requires Valid()
      modifies this
      ensures Valid()
      ensures Current() == Handle(old(Current()), topic, message)
    {
      ghost var before := Current();
      var segments := Split(topic);
      if |segments| > 2 && segments[2] == "status" {
        Unsubscribe(StatusTopic(segments[1]));
        Unsubscribe(ResponseTopic(segments[1]));
      } else if |segments| > 2 && segments[2] == "data" {
        var displayed := Escape(message);
        Publish(ResponseTopic(segments[1]), displayed);
      }
      HandleKeepsInitialFilter(before, topic, message);
      HandlePreservesQuiet(before, topic, message);
    }
  }

  /** From start-up, whatever messages arrive, the subscriptions stay
      exactly `eco_clients/#` and every publish is single-line and not
      answered. */
  lemma {:induction false} RunKeepsInvariant(topics: seq<string>, messages: seq<string>)
    requires |topics| == |messages|
    ensures var r := Run(State({InitialFilter}, []), topics, messages);
      r.subscriptions == {InitialFilter} && OutboxQuiet(r.outbox)
    decreases |topics|
  {
    if |topics| > 0 {
      var n := |topics| - 1;
      RunKeepsInvariant(topics[..n], messages[..n]);
      var s := Run(State({InitialFilter}, []), topics[..n], messages[..n]);
      HandleKeepsInitialFilter(s, topics[n], messages[n]);
      HandlePreservesQuiet(s, topics[n], messages[n]);
    }
  }

  /** The messages handled one after another, oldest first: filters are only
      ever removed, and every message appends at most one publish after the
      earlier ones. */
  function Run(s: State, topics: seq<string>, messages: seq<string>): (r: State)
    requires |topics| == |messages|
    ensures r.subscriptions <= s.subscriptions
    ensures |s.outbox| <= |r.outbox| <= |s.outbox| + |topics|
    ensures r.outbox[..|s.outbox|] == s.outbox
    decreases |topics|
  {
    if topics == [] then s
    else
      var n := |topics| - 1;
      Handle(Run(s, topics[..n], messages[..n]), topics[n], messages[n])
  }
}
