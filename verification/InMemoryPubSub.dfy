/**
 * The operations of internal/pubsub/pubsub.go as the code performs them, each called while no other
 * publisher is in its loop, and proved to do what the machine's steps for that call do.
 */
module InMemoryPubSub {
  import opened Common
  import opened PubSub
  import opened PubSubProofs

  /** The whole of a publisher's loop: every subscriber of the topic is offered the message. */
  function OfferAll(chans: map<ChanId, Chan>, which: set<ChanId>, no: nat, msg: Message): map<ChanId, Chan> {
    map c | c in chans :: if c in which then Offer(chans[c], no, msg) else chans[c]
  }

  function PublishedToAll(b: Bus, p: PublisherId, topic: Topic, msg: Message): Bus {
    if b.closed then b
    else b.(published := b.published + [Publication(p, topic, msg)],
            chans := OfferAll(b.chans, Subscribers(b.subs, topic), |b.published|, msg))
  }

  function Sends(p: PublisherId, order: seq<ChanId>): seq<Step> {
    seq(|order|, i requires 0 <= i < |order| => SendTo(p, order[i]))
  }

  predicate OpenChans(b: Bus, which: set<ChanId>) {
    forall c :: c in which ==> c in b.chans && b.chans[c].open
  }

  lemma {:induction false} LoopOffersAll(b: Bus, p: PublisherId, order: seq<ChanId>)
    requires b.crash == NoCrash && p in b.readers && Visits(order, b.readers[p].todo)
    requires OpenChans(b, b.readers[p].todo)
    ensures var r := b.readers[p];
      Exec(b, Sends(p, order)) ==
        b.(chans := OfferAll(b.chans, r.todo, r.no, r.msg), readers := b.readers[p := r.(todo := {})])
    decreases |order|
  {
    var r := b.readers[p];
    if order == [] {
      assert r.todo == {} by {
        assert forall x :: x in r.todo ==> x in order;
      }
      assert b.readers[p := r] == b.readers;
      assert OfferAll(b.chans, {}, r.no, r.msg) == b.chans;
    } else {
      var c := order[0];
      assert c in order;
      var b' := Sent(b, p, c);
      assert Sends(p, order)[1..] == Sends(p, order[1..]);
      VisitsRest(order, r.todo);
      LoopOffersAll(b', p, order[1..]);
      assert OfferAll(b'.chans, r.todo - {c}, r.no, r.msg) == OfferAll(b.chans, r.todo, r.no, r.msg);
      assert b'.readers[p := r.(todo := {})] == b.readers[p := r.(todo := {})];
    }
  }

  lemma VisitsRest(order: seq<ChanId>, todo: set<ChanId>)
    requires Visits(order, todo) && order != []
    ensures Visits(order[1..], todo - {order[0]})
  {
    forall x | x in todo - {order[0]}
      ensures x in order[1..]
    {
      assert x in order;
      var i :| 0 <= i < |order| && order[i] == x;
      assert order[1..][i - 1] == x;
    }
  }

  /**
   * A publisher that runs without interruption delivers to all subscribers of its topic, and leaves the
   * same state in whatever order Go ranges over the channels.
   */
  lemma PublishInAnyOrder(b: Bus, p: PublisherId, topic: Topic, msg: Message, order: seq<ChanId>)
    requires b.crash == NoCrash && !b.closed && p !in b.readers
    requires OpenChans(b, Subscribers(b.subs, topic)) && Visits(order, Subscribers(b.subs, topic))
    ensures Exec(b, [BeginPublish(p, topic, msg)] + (Sends(p, order) + [EndPublish(p)])) ==
      PublishedToAll(b, p, topic, msg)
  {
    var b1 := Begun(b, p, topic, msg);
    var steps := [BeginPublish(p, topic, msg)] + (Sends(p, order) + [EndPublish(p)]);
    assert steps[1..] == Sends(p, order) + [EndPublish(p)];
    assert b1 == Apply(b, steps[0]);
    LoopOffersAll(b1, p, order);
    RunAppend(Apply, b1, Sends(p, order), [EndPublish(p)]);
    LoopEnds(b, p, topic, msg, Exec(b1, Sends(p, order)));
  }

  lemma LoopEnds(b: Bus, p: PublisherId, topic: Topic, msg: Message, b2: Bus)
    requires b.crash == NoCrash && !b.closed && p !in b.readers
    requires var b1 := Begun(b, p, topic, msg);
      var r := b1.readers[p];
      b2 == b1.(chans := OfferAll(b1.chans, r.todo, r.no, r.msg), readers := b1.readers[p := r.(todo := {})])
    ensures Exec(b2, [EndPublish(p)]) == PublishedToAll(b, p, topic, msg)
  {
    assert b2.readers - {p} == b.readers;
    RunOne(Apply, b2, EndPublish(p));
  }

  lemma SubscribersAreOpen(b: Bus, topic: Topic)
    requires SubsOk(b)
    ensures OpenChans(b, Subscribers(b.subs, topic))
  {
    assert forall c :: c in Subscribers(b.subs, topic) ==> topic in b.subs && c in b.subs[topic];
  }

  lemma {:induction false} SetHasOrder(todo: set<ChanId>) returns (order: seq<ChanId>)
    ensures Visits(order, todo)
    decreases todo
  {
    if todo == {} {
      order := [];
    } else {
      var c :| c in todo;
      var rest := SetHasOrder(todo - {c});
      order := [c] + rest;
    }
  }

  // ----- what whole calls do -----

  /** The channel but for its buffer and its history of sends. */
  predicate SameButQueue(k: Chan, k': Chan) {
    && k'.topic == k.topic && k'.open == k.open && k'.received == k.received
    && k'.since == k.since && k'.until == k.until
  }

  /**
   * Publish puts the message at the end of the buffer of every open channel of the topic that holds fewer
   * than 64, drops it for those that hold 64, and touches no other channel.
   */
  lemma PublishReachesSubscribers(b: Bus, p: PublisherId, topic: Topic, msg: Message, c: ChanId)
    requires SubsOk(b) && !b.closed
    ensures var b' := PublishedToAll(b, p, topic, msg);
      && b'.subs == b.subs && !b'.closed && b'.chans.Keys == b.chans.Keys
      && b'.published == b.published + [Publication(p, topic, msg)]
      && (c in b.chans ==>
            && SameButQueue(b.chans[c], b'.chans[c])
            && b'.chans[c].queue ==
               if b.chans[c].open && b.chans[c].topic == topic && |b.chans[c].queue| < 64 then b.chans[c].queue + [msg]
               else b.chans[c].queue)
  {
  }

  /** A closed bus takes nothing. */
  lemma ClosedBusTakesNothing(b: Bus, p: PublisherId, topic: Topic, msg: Message)
    requires b.closed
    ensures PublishedToAll(b, p, topic, msg) == b && ClosedBus(b) == b
  {
  }

  /** Subscribe makes one more channel: open, empty and registered under the topic and no other. */
  lemma SubscribeAddsChannel(b: Bus, topic: Topic, ch: ChanId, t: Topic)
    requires SubsOk(b) && ch !in b.chans
    ensures var b' := Subscribed(b, topic, ch);
      && b'.chans.Keys == b.chans.Keys + {ch} && (forall c :: c in b.chans ==> b'.chans[c] == b.chans[c])
      && b'.chans[ch].topic == topic && b'.chans[ch].open && b'.chans[ch].queue == [] && b'.chans[ch].received == []
      && Subscribers(b'.subs, t) == (if t == topic then Subscribers(b.subs, t) + {ch} else Subscribers(b.subs, t))
      && b'.closed == b.closed && b'.published == b.published
  {
  }

  /**
   * An unsub closes its channel and takes it out of its topic; what the channel has buffered can still be
   * received, and every other channel is as before.
   */
  lemma UnsubClosesChannel(b: Bus, ch: ChanId, t: Topic)
    requires SubsOk(b) && ch in b.chans && b.crash == NoCrash && ch !in b.unsubbed
    ensures var b' := Unsubscribed(b, ch);
      && b'.crash == NoCrash && b'.chans.Keys == b.chans.Keys
      && !b'.chans[ch].open && b'.chans[ch].queue == b.chans[ch].queue && b'.chans[ch].received == b.chans[ch].received
      && (forall c :: c in b.chans && c != ch ==> b'.chans[c] == b.chans[c])
      && Subscribers(b'.subs, t) == Subscribers(b.subs, t) - {ch}
      && b'.closed == b.closed && b'.published == b.published
  {
    UnsubCrash(b, ch);
    UnsubTakesOut(b, ch, t);
  }

  lemma UnsubTakesOut(b: Bus, ch: ChanId, t: Topic)
    requires SubsOk(b) && ch in b.chans
    ensures Subscribers(Unsubscribed(b, ch).subs, t) == Subscribers(b.subs, t) - {ch}
  {
    assert t in b.subs && ch in b.subs[t] ==> t == b.chans[ch].topic;
  }

  /** Close closes every channel, each keeping what it has buffered, and no topic has a subscriber any more. */
  lemma CloseClosesAll(b: Bus, c: ChanId)
    requires SubsOk(b) && b.crash == NoCrash
    ensures var b' := ClosedBus(b);
      && b'.closed && b'.crash == NoCrash && b'.subs == map[] && b'.chans.Keys == b.chans.Keys
      && b'.published == b.published
      && (c in b.chans ==>
            && !b'.chans[c].open && b'.chans[c].topic == b.chans[c].topic
            && b'.chans[c].queue == b.chans[c].queue && b'.chans[c].received == b.chans[c].received)
  {
    AllSubscribersAreTheOpenOnes(b);
  }

  // ----- uninterrupted calls are runs of the machine -----

  datatype Call =
    | CallPublish(p: PublisherId, topic: Topic, msg: Message)
    | CallSubscribe(topic: Topic, ch: ChanId)
    | CallUnsub(ch: ChanId)
    | CallClose

  /** The effect of a whole call, as the methods below have it. */
  function Called(b: Bus, call: Call): Bus {
    match call
    case CallPublish(p, topic, msg) => PublishedToAll(b, p, topic, msg)
    case CallSubscribe(topic, ch) => if b.closed || ch in b.chans then b else Subscribed(b, topic, ch)
    case CallUnsub(ch) => if ch in b.chans then Unsubscribed(b, ch) else b
    case CallClose => ClosedBus(b)
  }

  predicate Quiet(b: Bus) {
    b.crash == NoCrash && b.readers == map[]
  }

  lemma PublishIsRun(b: Bus, p: PublisherId, topic: Topic, msg: Message)
    requires SubsOk(b) && Quiet(b)
    ensures Reaches(Apply, b, PublishedToAll(b, p, topic, msg))
  {
    if b.closed {
      ReachesSelf(Apply, b);
    } else {
      SubscribersAreOpen(b, topic);
      var order := SetHasOrder(Subscribers(b.subs, topic));
      PublishInAnyOrder(b, p, topic, msg, order);
    }
  }

  lemma CallIsRun(b: Bus, call: Call)
    requires SubsOk(b) && Quiet(b)
    ensures Reaches(Apply, b, Called(b, call))
  {
    match call
    case CallPublish(p, topic, msg) =>
      PublishIsRun(b, p, topic, msg);
    case CallSubscribe(topic, ch) =>
      ReachesSelf(Apply, b);
      ReachesNext(Apply, b, b, Step.Subscribe(topic, ch));
    case CallUnsub(ch) =>
      ReachesSelf(Apply, b);
      ReachesNext(Apply, b, b, Step.Unsub(ch));
    case CallClose =>
      ReachesSelf(Apply, b);
      ReachesNext(Apply, b, b, Close);
  }

  lemma CallStaysQuiet(b: Bus, call: Call)
    requires Quiet(b)
    ensures Called(b, call).readers == map[]
  {
  }

  function CallAll(b: Bus, calls: seq<Call>): Bus
    decreases |calls|
  {
    if calls == [] || b.crash != NoCrash then b else CallAll(Called(b, calls[0]), calls[1..])
  }

  /**
   * Whatever is called, one call after the other, the bus is in a state that some run of the machine
   * reaches: what holds of all runs holds of the code below.
   */
  lemma CallsAreRuns(calls: seq<Call>)
    ensures Reaches(Apply, INIT, CallAll(INIT, calls)) && Inv(CallAll(INIT, calls))
  {
    ReachesSelf(Apply, INIT);
    CallsAreRunsFrom(INIT, calls);
    var steps :| Run(Apply, INIT, steps) == CallAll(INIT, calls);
    Reachable(steps);
  }

  lemma {:induction false} CallsAreRunsFrom(b: Bus, calls: seq<Call>)
    requires Reaches(Apply, INIT, b) && b.readers == map[]
    ensures Reaches(Apply, INIT, CallAll(b, calls))
    decreases |calls|
  {
    if calls != [] && b.crash == NoCrash {
      ReachedKeepsSubs(b);
      CallIsRun(b, calls[0]);
      CallStaysQuiet(b, calls[0]);
      ReachesTrans(Apply, INIT, b, Called(b, calls[0]));
      CallsAreRunsFrom(Called(b, calls[0]), calls[1..]);
    }
  }

  lemma ReachedKeepsSubs(b: Bus)
    requires Reaches(Apply, INIT, b)
    ensures SubsOk(b)
  {
    var steps :| Run(Apply, INIT, steps) == b;
    Reachable(steps);
  }

  // ----- the lock -----

  /** Subscriptions change, and the bus closes, only while no publisher is in its loop. */
  lemma WritersExcludeReaders(b: Bus, step: Step)
    ensures var b' := Apply(b, step);
      (b'.subs != b.subs || b'.closed != b.closed || b'.chans.Keys != b.chans.Keys) ==> b.readers == map[]
  {
  }

  /** Only publishers going on with their loops. */
  predicate OnlyPublishers(steps: seq<Step>) {
    forall step :: step in steps ==> step.SendTo? || step.EndPublish?
  }

  lemma PublisherCanFinish(b: Bus, p: PublisherId) returns (steps: seq<Step>)
    requires Inv(b) && b.crash == NoCrash && p in b.readers
    ensures OnlyPublishers(steps) && Exec(b, steps).crash == NoCrash
    ensures Exec(b, steps).readers == b.readers - {p} && Exec(b, steps).subs == b.subs
  {
    var r := b.readers[p];
    assert ReaderOk(b, p, r);
    SubscribersAreOpen(b, r.topic);
    var order := SetHasOrder(r.todo);
    LoopOffersAll(b, p, order);
    steps := Sends(p, order) + [EndPublish(p)];
    RunAppend(Apply, b, Sends(p, order), [EndPublish(p)]);
    var b1 := Exec(b, Sends(p, order));
    RunOne(Apply, b1, EndPublish(p));
    assert b1.readers - {p} == b.readers - {p};
  }

  /**
   * The lock can always be had: from every state of every run the publishers in their loops can finish,
   * whatever the subscribers do, since no send waits.
   */
  lemma {:induction false} ReadersCanFinish(b: Bus) returns (steps: seq<Step>)
    requires Inv(b) && b.crash == NoCrash
    ensures OnlyPublishers(steps) && Exec(b, steps).crash == NoCrash
    ensures Exec(b, steps).readers == map[] && Exec(b, steps).subs == b.subs
    decreases b.readers.Keys
  {
    if b.readers == map[] {
      steps := [];
    } else {
      var p :| p in b.readers;
      var first := PublisherCanFinish(b, p);
      RunKeepsInv(b, first);
      var rest := ReadersCanFinish(Exec(b, first));
      steps := first + rest;
      RunAppend(Apply, b, first, rest);
    }
  }

  lemma LockCanBeHad(steps: seq<Step>)
    requires Exec(INIT, steps).crash == NoCrash
    ensures exists more :: OnlyPublishers(more) && var b := Exec(Exec(INIT, steps), more);
      b.readers == map[] && b.crash == NoCrash && b.subs == Exec(INIT, steps).subs
  {
    Reachable(steps);
    var more := ReadersCanFinish(Exec(INIT, steps));
  }

  class PubSubBus {
    var subs: map<Topic, set<ChanId>>
    var closed: bool
    /** The channels allocated so far, with their history. */
    var chans: map<ChanId, Chan>
    var nextChan: nat
    /** History: the unsub calls made and the publications not refused. */
    var unsubbed: set<ChanId>
    var published: seq<Publication>

    ghost function View(): Bus
      reads this
    {
      Bus(subs, closed, chans, map[], unsubbed, published, NoCrash)
    }

    /** Channel numbers not yet allocated are above all those in use. */
    ghost predicate Valid()
      reads this
    {
      forall c :: c in chans ==> c < nextChan
    }

    constructor ()
      ensures Valid() && View() == INIT
    {
      subs, closed, chans, nextChan, unsubbed, published := map[], false, map[], 0, {}, [];
    }

    /** Called by goroutine `p`; returns whether the message was accepted: a closed bus refuses it. */
    method Publish(p: PublisherId, topic: Topic, msg: Message) returns (accepted: bool)
      requires Valid() && OpenChans(View(), Subscribers(subs, topic))
      modifies this
      ensures Valid() && nextChan == old(nextChan)
      ensures accepted == !old(closed)
      ensures View() == PublishedToAll(old(View()), p, topic, msg)
    {
      if closed {
        return false;
      }
      ghost var before := View();
      var m := if topic in subs then subs[topic] else {};
      var no := |published|;
      published := published + [Publication(p, topic, msg)];
      var todo := m;
      assert OfferAll(chans, {}, no, msg) == chans;
      while todo != {}
        invariant todo <= m
        invariant View() == before.(published := before.published + [Publication(p, topic, msg)],
                                    chans := OfferAll(before.chans, m - todo, no, msg))
        invariant nextChan == old(nextChan)
      {
        var ch :| ch in todo;
        assert ch in before.chans;
        var k := chans[ch];
        if |k.queue| < CAPACITY {
          k := k.(queue := k.queue + [msg], sends := k.sends + [Send(no, msg, |k.queue|, true)]);
        } else {
          k := k.(sends := k.sends + [Send(no, msg, |k.queue|, false)]);
        }
        chans := chans[ch := k];
        todo := todo - {ch};
      }
      assert m - todo == m;
      return true;
    }

    method Subscribe(topic: Topic) returns (r: Option<ChanId>)
      requires Valid()
      modifies this
      ensures Valid()
      ensures r.None? <==> old(closed)
      ensures r.None? ==> View() == old(View())
      ensures r.Some? ==> r.value !in old(chans) && View() == Subscribed(old(View()), topic, r.value)
    {
      if closed {
        return None;
      }
      var ch := nextChan;
      ghost var before := View();
      nextChan := nextChan + 1;
      chans := chans[ch := Chan(topic, true, [], [], [], |published|, None)];
      if topic !in subs {
        subs := subs[topic := {}];
      }
      subs := subs[topic := subs[topic] + {ch}];
      return Some(ch);
    }

    /** The closure Subscribe returned for channel `ch`; `panics` is the panic of closing a closed channel. */
    method Unsub(ch: ChanId) returns (panics: bool)
      requires Valid() && ch in chans
      modifies this
      ensures Valid() && nextChan == old(nextChan)
      ensures panics <==> Unsubscribed(old(View()), ch).crash != NoCrash
      ensures !panics ==> View() == Unsubscribed(old(View()), ch)
    {
      var topic := chans[ch].topic;
      if topic in subs {
        var m := subs[topic] - {ch};
        subs := subs[topic := m];
        if !chans[ch].open {
          return true;
        }
        chans := chans[ch := ClosedChan(chans[ch], |published|)];
        if m == {} {
          subs := map t | t in subs && t != topic :: subs[t];
        }
      }
      unsubbed := unsubbed + {ch};
      return false;
    }

    method CloseAll()
      requires Valid() && SubsOk(View())
      modifies this
      ensures Valid() && nextChan == old(nextChan)
      ensures View() == ClosedBus(old(View()))
    {
      if closed {
        return;
      }
      ghost var before := View();
      closed := true;
      while subs != map[]
        invariant Valid()
        invariant PartlyClosed(before, subs, chans, |published|)
        modifies this`subs, this`chans
        decreases subs.Keys
      {
        var topic :| topic in subs;
        TopicStillOpen(before, subs, chans, topic, |published|);
        CloseChannels(subs[topic]);
        subs := subs - {topic};
      }
      AllTopicsClosed(before, chans);
    }

    /** Close's inner loop. */
    method CloseChannels(m: set<ChanId>)
      requires Valid() && forall c :: c in m ==> c in chans && chans[c].open
      modifies this`chans
      ensures Valid() && chans == ClosedChans(old(chans), m, |published|)
    {
      var todo := m;
      ghost var start := chans;
      assert ClosedChans(start, {}, |published|) == start;
      while todo != {}
        invariant todo <= m
        invariant chans == ClosedChans(start, m - todo, |published|)
      {
        var ch :| ch in todo;
        assert chans[ch].open;
        chans := chans[ch := ClosedChan(chans[ch], |published|)];
        todo := todo - {ch};
      }
      assert m - todo == m;
    }

    /** `ch`'s consumer goroutine from a moment after which nothing is sent: it receives all that is buffered. */
    method Drain(ch: ChanId) returns (handled: seq<Message>)
      requires Valid() && ch in chans
      modifies this`chans
      ensures Valid() && handled == old(chans[ch].queue)
      ensures View() == Exec(old(View()), Receives(ch, |handled|))
      ensures ch in chans && chans[ch].queue == []
    {
      handled := [];
      ghost var queue := chans[ch].queue;
      ghost var before := View();
      while chans[ch].queue != []
        invariant ch in chans && queue == handled + chans[ch].queue
        invariant Valid()
        invariant View() == Exec(before, Receives(ch, |handled|))
        decreases |chans[ch].queue|
      {
        ghost var now := View();
        var k := chans[ch];
        var msg := k.queue[0];
        ReceiveOneMore(before, ch, |handled|);
        chans := chans[ch := k.(queue := k.queue[1..], received := k.received + [msg])];
        assert View() == Apply(now, Receive(ch));
        handled := handled + [msg];
      }
    }
  }

  function Receives(ch: ChanId, n: nat): seq<Step> {
    seq(n, _ => Receive(ch))
  }

  lemma ReceiveOneMore(b: Bus, ch: ChanId, n: nat)
    ensures Exec(b, Receives(ch, n + 1)) == Apply(Exec(b, Receives(ch, n)), Receive(ch))
  {
    assert Receives(ch, n + 1) == Receives(ch, n) + [Receive(ch)];
    RunAppend(Apply, b, Receives(ch, n), [Receive(ch)]);
    RunOne(Apply, Exec(b, Receives(ch, n)), Receive(ch));
  }

  /** Midway through Close: the channels of the topics already deleted are closed, the others as before. */
  ghost predicate PartlyClosed(b: Bus, subs: map<Topic, set<ChanId>>, chans: map<ChanId, Chan>, now: nat) {
    && subs.Keys <= b.subs.Keys && (forall t :: t in subs ==> subs[t] == b.subs[t])
    && chans.Keys == b.chans.Keys
    && forall c :: c in chans ==>
      chans[c] == if b.chans[c].open && b.chans[c].topic !in subs then ClosedChan(b.chans[c], now) else b.chans[c]
  }

  /** The next topic's channels are still open, and closing them is one more round of Close. */
  lemma TopicStillOpen(b: Bus, subs: map<Topic, set<ChanId>>, chans: map<ChanId, Chan>, topic: Topic, now: nat)
    requires SubsOk(b) && PartlyClosed(b, subs, chans, now) && topic in subs
    ensures forall c :: c in subs[topic] ==> c in chans && chans[c].open
    ensures PartlyClosed(b, subs - {topic}, ClosedChans(chans, subs[topic], now), now)
  {
    assert forall c :: c in b.chans && b.chans[c].open && b.chans[c].topic == topic ==> c in b.subs[topic];
  }

  lemma AllTopicsClosed(b: Bus, chans: map<ChanId, Chan>)
    requires SubsOk(b) && !b.closed && PartlyClosed(b, map[], chans, |b.published|)
    ensures ClosedBus(b) == b.(closed := true, subs := map[], chans := chans)
  {
    AllSubscribersAreTheOpenOnes(b);
  }
}
