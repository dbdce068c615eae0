/**
 * internal/pubsub/pubsub.go as a machine of labelled steps. A publisher holds the read lock while it
 * walks its topic's channels one send at a time; Subscribe, unsub and Close hold the write lock, so
 * each is one step that waits until no publisher is walking; receives need no lock. A step whose
 * guard does not hold leaves the state alone, so every sequence of steps is a run.
 */
module PubSub {
  import opened Common

  type Topic = string
  type ChanId = nat
  type PublisherId = nat

  datatype Message = Message(topic: Topic, data: string, time: int, thing: string)

  const CAPACITY: nat := 64

  /** One non-blocking send: which publication it was for, how full the channel was, and the outcome. */
  datatype Send = Send(no: nat, msg: Message, depth: nat, accepted: bool)

  /**
   * A channel made by Subscribe. `received`, `sends` and the window [`since`, `until`) of publication
   * numbers are history; `topic` is what its unsub closure captured.
   */
  datatype Chan = Chan(topic: Topic, open: bool, queue: seq<Message>, received: seq<Message>, sends: seq<Send>,
                       since: nat, until: Option<nat>)

  /** A publication that was not refused, and the goroutine that made it. */
  datatype Publication = Publication(publisher: PublisherId, topic: Topic, msg: Message)

  /** A publisher inside its loop: the publication's number and the channels it has yet to visit. */
  datatype Publisher = Publisher(no: nat, topic: Topic, msg: Message, todo: set<ChanId>)

  datatype Crash = NoCrash | SendOnClosed | CloseOfClosed

  /** `unsubbed` and `published` are history: the unsub calls made, and the publications not refused. */
  datatype Bus = Bus(subs: map<Topic, set<ChanId>>, closed: bool, chans: map<ChanId, Chan>,
                     readers: map<PublisherId, Publisher>,
                     unsubbed: set<ChanId>, published: seq<Publication>, crash: Crash)

  const INIT := Bus(map[], false, map[], map[], {}, [], NoCrash)

  datatype Step =
    | BeginPublish(p: PublisherId, topic: Topic, msg: Message)
    | SendTo(p: PublisherId, ch: ChanId)
    | EndPublish(p: PublisherId)
    | Subscribe(topic: Topic, ch: ChanId)
    | Unsub(ch: ChanId)
    | Close
    | Receive(ch: ChanId)

  function Subscribers(subs: map<Topic, set<ChanId>>, topic: Topic): set<ChanId> {
    if topic in subs then subs[topic] else {}
  }

  function AllSubscribers(subs: map<Topic, set<ChanId>>): set<ChanId> {
    set t, c | t in subs && c in subs[t] :: c
  }

  // ----- what each operation does -----

  /** `select { case ch <- msg: default: }` on an open channel. */
  function Offer(k: Chan, no: nat, msg: Message): Chan {
    if |k.queue| < CAPACITY
    then k.(queue := k.queue + [msg], sends := k.sends + [Send(no, msg, |k.queue|, true)])
    else k.(sends := k.sends + [Send(no, msg, |k.queue|, false)])
  }

  function ClosedChan(k: Chan, now: nat): Chan {
    k.(open := false, until := Some(now))
  }

  function Begun(b: Bus, p: PublisherId, topic: Topic, msg: Message): Bus {
    b.(published := b.published + [Publication(p, topic, msg)],
       readers := b.readers[p := Publisher(|b.published|, topic, msg, Subscribers(b.subs, topic))])
  }

  function Sent(b: Bus, p: PublisherId, ch: ChanId): Bus
    requires p in b.readers && ch in b.chans
  {
    var r := b.readers[p];
    if !b.chans[ch].open then b.(crash := SendOnClosed)
    else b.(chans := b.chans[ch := Offer(b.chans[ch], r.no, r.msg)],
            readers := b.readers[p := r.(todo := r.todo - {ch})])
  }

  function Subscribed(b: Bus, topic: Topic, ch: ChanId): Bus {
    b.(subs := b.subs[topic := Subscribers(b.subs, topic) + {ch}],
       chans := b.chans[ch := Chan(topic, true, [], [], [], |b.published|, None)])
  }

  function Dropped(subs: map<Topic, set<ChanId>>, topic: Topic, ch: ChanId): map<Topic, set<ChanId>>
    requires topic in subs
  {
    if subs[topic] - {ch} == {} then subs - {topic} else subs[topic := subs[topic] - {ch}]
  }

  function Unsubscribed(b: Bus, ch: ChanId): Bus
    requires ch in b.chans
  {
    var k := b.chans[ch];
    if k.topic !in b.subs then b.(unsubbed := b.unsubbed + {ch})
    else if !k.open then b.(crash := CloseOfClosed)
    else b.(subs := Dropped(b.subs, k.topic, ch),
            chans := b.chans[ch := ClosedChan(k, |b.published|)],
            unsubbed := b.unsubbed + {ch})
  }

  function ClosedBus(b: Bus): Bus {
    if b.closed then b
    else if exists c :: c in AllSubscribers(b.subs) && c in b.chans && !b.chans[c].open then b.(crash := CloseOfClosed)
    else b.(closed := true, subs := map[], chans := ClosedChans(b.chans, AllSubscribers(b.subs), |b.published|))
  }

  function ClosedChans(chans: map<ChanId, Chan>, which: set<ChanId>, now: nat): map<ChanId, Chan> {
    map c | c in chans :: if c in which then ClosedChan(chans[c], now) else chans[c]
  }

  function Received(b: Bus, ch: ChanId): Bus
    requires ch in b.chans && b.chans[ch].queue != []
  {
    var k := b.chans[ch];
    b.(chans := b.chans[ch := k.(queue := k.queue[1..], received := k.received + [k.queue[0]])])
  }

  function Apply(b: Bus, step: Step): Bus {
    if b.crash != NoCrash then b
    else
      match step
      case BeginPublish(p, topic, msg) => if b.closed || p in b.readers then b else Begun(b, p, topic, msg)
      case SendTo(p, ch) =>
        if p in b.readers && ch in b.readers[p].todo && ch in b.chans then Sent(b, p, ch) else b
      case EndPublish(p) => if p in b.readers && b.readers[p].todo == {} then b.(readers := b.readers - {p}) else b
      case Subscribe(topic, ch) =>
        if b.readers != map[] || b.closed || ch in b.chans then b else Subscribed(b, topic, ch)
      case Unsub(ch) => if b.readers != map[] || ch !in b.chans then b else Unsubscribed(b, ch)
      case Close => if b.readers != map[] then b else ClosedBus(b)
      case Receive(ch) => if ch in b.chans && b.chans[ch].queue != [] then Received(b, ch) else b
  }

  function Exec(b: Bus, steps: seq<Step>): Bus {
    Run(Apply, b, steps)
  }
}
