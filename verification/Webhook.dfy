/** internal/server/server.go: the webhook, which publishes on the topic without the thing's name. */
module Webhook {
  import opened Text
  import opened MqttTopic
  import opened PubSub
  import opened PubSubProofs
  import opened InMemoryPubSub

  datatype Request = Request(thing: string, topic: string, payload: string)

  /** The body as `DisallowUnknownFields` decoding leaves it. */
  datatype Body = Malformed | Decoded(req: Request)

  datatype Status = MethodNotAllowed | UnsupportedMediaType | BadRequest | InternalServerError | Accepted

  class ApiServer {
    const ps: PubSubBus

    constructor (ps: PubSubBus)
      ensures this.ps == ps
    {
      this.ps := ps;
    }

    /** `server` is the goroutine serving the request. */
    method HandleWebhook(server: PublisherId, httpMethod: string, contentType: string, body: Body, now: int)
      returns (status: Status)
      requires ps.Valid() && SubsOk(ps.View())
      modifies ps
      ensures ps.Valid()
      ensures status == MethodNotAllowed <==> httpMethod != "POST"
      ensures status == UnsupportedMediaType <==> httpMethod == "POST" && !("application/json" <= contentType)
      ensures status in {InternalServerError, Accepted} <==>
        && httpMethod == "POST" && "application/json" <= contentType
        && body.Decoded? && body.req.topic != "" && body.req.thing != ""
      ensures status == InternalServerError ==> old(ps.closed)
      ensures status == Accepted ==>
        && !old(ps.closed)
        && var topic := NormalizeMQTTTopic(body.req.topic, body.req.thing);
          ps.View() ==
            PublishedToAll(old(ps.View()), server, topic, Message(topic, body.req.payload, now, body.req.thing))
      ensures status != Accepted ==> ps.View() == old(ps.View())
    {
      if httpMethod != "POST" {
        return MethodNotAllowed;
      }
      var json := "application/json";
      if contentType != json && contentType != "application/json; charset=utf-8" {
        if contentType == "" || |contentType| < |json| || contentType[..|json|] != json {
          return UnsupportedMediaType;
        }
      }
      if body.Malformed? || body.req.topic == "" || body.req.thing == "" {
        return BadRequest;
      }
      var topic := NormalizeMQTTTopic(body.req.topic, body.req.thing);
      SubscribersAreOpen(ps.View(), topic);
      var accepted := ps.Publish(server, topic, Message(topic, body.req.payload, now, body.req.thing));
      if !accepted {
        return InternalServerError;
      }
      return Accepted;
    }
  }

  /**
   * End to end: a message posted on any device's own version of a topic is offered to every subscriber
   * of the topic and to nobody else.
   */
  lemma DeviceMessageReachesSubscribers(b: Bus, server: PublisherId, segs: seq<string>, j: nat, thing: string,
                                        msg: Message, c: ChanId)
    requires SubsOk(b) && !b.closed && c in b.chans
    requires AllFree(segs, SLASH) && thing != "" && Free(thing, SLASH)
    requires 1 <= j < |segs| && segs[j] == THINGS && forall i :: 1 <= i < j ==> segs[i] != THINGS
    ensures var topic := NormalizeMQTTTopic(Join(ForThing(segs, j, thing), SLASH), thing);
      var after := PublishedToAll(b, server, topic, msg);
      && c in after.chans
      && after.chans[c] ==
        if b.chans[c].open && b.chans[c].topic == Join(segs, SLASH) then Offer(b.chans[c], |b.published|, msg)
        else b.chans[c]
  {
    NormalizeUndoesForThing(segs, j, thing);
    var topic := Join(segs, SLASH);
    assert c in Subscribers(b.subs, topic) <==> b.chans[c].open && b.chans[c].topic == topic by {
      assert topic in b.subs && c in b.subs[topic] ==> b.chans[c].topic == topic;
    }
  }
}
