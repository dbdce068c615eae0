/** End to end: a message posted to the webhook, the topic it is published on, and the subscribers Start wires. */
module Wiring {
  import opened Text
  import opened MqttTopic
  import opened PubSub
  import opened PubSubProofs
  import opened InMemoryPubSub
  import opened Subscribers

  /** The starter's own channel on the topic is offered the message: it is put last, unless 64 are waiting. */
  ghost predicate Offered(b: Bus, b': Bus, stops: seq<ChanId>, topic: Topic, msg: Message) {
    exists c :: c in stops && OpenOn(b, c, topic) && OpenOn(b', c, topic)
                && b'.chans[c].queue == if |b.chans[c].queue| < 64 then b.chans[c].queue + [msg] else b.chans[c].queue
  }

  lemma SubscribedIsOffered(b: Bus, stops: seq<ChanId>, server: PublisherId, topic: Topic, msg: Message)
    requires SubsOk(b) && !b.closed && SubscribedOnce(b, stops, topic)
    ensures Offered(b, PublishedToAll(b, server, topic, msg), stops, topic, msg)
  {
    var k :| 0 <= k < |stops| && OpenOn(b, stops[k], topic);
    PublishReachesSubscribers(b, server, topic, msg, stops[k]);
    assert stops[k] in stops && OpenOn(PublishedToAll(b, server, topic, msg), stops[k], topic);
  }

  /** A message posted for `thing` on topic `posted` is offered to the starter's channel on `topic`. */
  ghost predicate Delivers(b: Bus, stops: seq<ChanId>, server: PublisherId, thing: string, msg: Message,
                           posted: string, topic: Topic) {
    Offered(b, PublishedToAll(b, server, NormalizeMQTTTopic(posted, thing), msg), stops, topic, msg)
  }

  lemma DeviceTopicDelivers(b: Bus, stops: seq<ChanId>, server: PublisherId, thing: string, msg: Message,
                            front: string, kind: string, posted: string, topic: Topic)
    requires SubsOk(b) && !b.closed && thing != "" && Free(thing, SLASH) && Free(front, SLASH) && Free(kind, SLASH)
    requires posted == front + "/things/" + thing + "/" + kind + "/notify"
    requires topic == front + "/things/" + kind + "/notify"
    requires SubscribedOnce(b, stops, topic)
    ensures Delivers(b, stops, server, thing, msg, posted, topic)
  {
    DocumentedExample(front, thing, kind, posted, topic);
    SubscribedIsOffered(b, stops, server, topic, msg);
  }

  lemma TopicText(front: string, thing: string, kind: string, head: string, tail: string)
    requires head == front + "/things/" && tail == "/" + kind + "/notify"
    ensures head + thing + tail == front + "/things/" + thing + "/" + kind + "/notify"
  {
  }

  /**
   * A message posted for any device, on that device's own version of any of the four `things` topics, is
   * offered to the subscriber that Start has wired to the topic.
   */
  lemma DeviceMessageReachesStarter(b: Bus, stops: seq<ChanId>, server: PublisherId, thing: string, msg: Message)
    requires SubsOk(b) && !b.closed && HasPredefined(b, stops) && thing != "" && Free(thing, SLASH)
    ensures Delivers(b, stops, server, thing, msg,
                     "tessa/things/" + thing + "/certificates/notify", "tessa/things/certificates/notify")
    ensures Delivers(b, stops, server, thing, msg,
                     "$aws/things/" + thing + "/tunnels/notify", "$aws/things/tunnels/notify")
    ensures Delivers(b, stops, server, thing, msg,
                     "tessa/things/" + thing + "/tunnels/notify", "tessa/things/tunnels/notify")
    ensures Delivers(b, stops, server, thing, msg,
                     "tessa/things/" + thing + "/commands/notify", "tessa/things/commands/notify")
  {
    Certificates(b, stops, server, thing, msg);
    AwsTunnels(b, stops, server, thing, msg);
    Tunnels(b, stops, server, thing, msg);
    Commands(b, stops, server, thing, msg);
  }

  lemma Certificates(b: Bus, stops: seq<ChanId>, server: PublisherId, thing: string, msg: Message)
    requires SubsOk(b) && !b.closed && thing != "" && Free(thing, SLASH)
    requires SubscribedOnce(b, stops, "tessa/things/certificates/notify")
    ensures Delivers(b, stops, server, thing, msg,
                     "tessa/things/" + thing + "/certificates/notify", "tessa/things/certificates/notify")
  {
    CertificatesText();
    TopicText("tessa", thing, "certificates", "tessa/things/", "/certificates/notify");
    DeviceTopicDelivers(b, stops, server, thing, msg, "tessa", "certificates",
                        "tessa/things/" + thing + "/certificates/notify", "tessa/things/certificates/notify");
  }

  lemma AwsTunnels(b: Bus, stops: seq<ChanId>, server: PublisherId, thing: string, msg: Message)
    requires SubsOk(b) && !b.closed && thing != "" && Free(thing, SLASH)
    requires SubscribedOnce(b, stops, "$aws/things/tunnels/notify")
    ensures Delivers(b, stops, server, thing, msg,
                     "$aws/things/" + thing + "/tunnels/notify", "$aws/things/tunnels/notify")
  {
    AwsTunnelsText();
    TopicText("$aws", thing, "tunnels", "$aws/things/", "/tunnels/notify");
    DeviceTopicDelivers(b, stops, server, thing, msg, "$aws", "tunnels",
                        "$aws/things/" + thing + "/tunnels/notify", "$aws/things/tunnels/notify");
  }

  lemma Tunnels(b: Bus, stops: seq<ChanId>, server: PublisherId, thing: string, msg: Message)
    requires SubsOk(b) && !b.closed && thing != "" && Free(thing, SLASH)
    requires SubscribedOnce(b, stops, "tessa/things/tunnels/notify")
    ensures Delivers(b, stops, server, thing, msg,
                     "tessa/things/" + thing + "/tunnels/notify", "tessa/things/tunnels/notify")
  {
    TunnelsText();
    TopicText("tessa", thing, "tunnels", "tessa/things/", "/tunnels/notify");
    DeviceTopicDelivers(b, stops, server, thing, msg, "tessa", "tunnels",
                        "tessa/things/" + thing + "/tunnels/notify", "tessa/things/tunnels/notify");
  }

  lemma Commands(b: Bus, stops: seq<ChanId>, server: PublisherId, thing: string, msg: Message)
    requires SubsOk(b) && !b.closed && thing != "" && Free(thing, SLASH)
    requires SubscribedOnce(b, stops, "tessa/things/commands/notify")
    ensures Delivers(b, stops, server, thing, msg,
                     "tessa/things/" + thing + "/commands/notify", "tessa/things/commands/notify")
  {
    CommandsText();
    TopicText("tessa", thing, "commands", "tessa/things/", "/commands/notify");
    DeviceTopicDelivers(b, stops, server, thing, msg, "tessa", "commands",
                        "tessa/things/" + thing + "/commands/notify", "tessa/things/commands/notify");
  }

  lemma CertificatesText()
    ensures "tessa/things/" == "tessa" + "/things/" && "/certificates/notify" == "/" + "certificates" + "/notify"
    ensures "tessa/things/certificates/notify" == "tessa" + "/things/" + "certificates" + "/notify"
  {
  }

  lemma AwsTunnelsText()
    ensures "$aws/things/" == "$aws" + "/things/" && "/tunnels/notify" == "/" + "tunnels" + "/notify"
    ensures "$aws/things/tunnels/notify" == "$aws" + "/things/" + "tunnels" + "/notify"
  {
  }

  lemma TunnelsText()
    ensures "tessa/things/" == "tessa" + "/things/" && "/tunnels/notify" == "/" + "tunnels" + "/notify"
    ensures "tessa/things/tunnels/notify" == "tessa" + "/things/" + "tunnels" + "/notify"
  {
  }

  lemma CommandsText()
    ensures "tessa/things/" == "tessa" + "/things/" && "/commands/notify" == "/" + "commands" + "/notify"
    ensures "tessa/things/commands/notify" == "tessa" + "/things/" + "commands" + "/notify"
  {
  }
}
