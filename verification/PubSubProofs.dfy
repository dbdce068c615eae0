/** What every run of the pub/sub machine keeps, and what follows from it. */
module PubSubProofs {
  import opened Common
  import opened PubSub

  // ----- the inductive invariant -----

  /** A channel is open exactly while it is registered, under its own topic and no other. */
  predicate SubsOk(b: Bus) {
    && (forall t :: t in b.subs ==> b.subs[t] != {})
    && (forall t, c :: t in b.subs && c in b.subs[t] ==> c in b.chans && b.chans[c].topic == t)
    && (forall c :: c in b.chans ==> (b.chans[c].open <==> c in Subscribers(b.subs, b.chans[c].topic)))
    && (b.closed ==> b.subs == map[])
    && (forall c :: c in b.chans && !b.chans[c].open ==> c in b.unsubbed || b.closed)
    && (forall c :: c in b.unsubbed ==> c in b.chans && !b.chans[c].open)
  }

  /** Every channel a publisher has yet to visit is still registered. */
  predicate ReadersOk(b: Bus) {
    && (b.readers != map[] ==> !b.closed)
    && (forall p :: p in b.readers ==> ReaderOk(b, p, b.readers[p]))
    && (forall p, q :: p in b.readers && q in b.readers && p != q ==> b.readers[p].no != b.readers[q].no)
  }

  predicate ReaderOk(b: Bus, p: PublisherId, r: Publisher) {
    && r.no < |b.published| && b.published[r.no] == Publication(p, r.topic, r.msg)
    && r.todo <= Subscribers(b.subs, r.topic)
  }

  function AcceptedMsgs(sends: seq<Send>): seq<Message> {
    if sends == [] then []
    else
      var last := sends[|sends| - 1];
      AcceptedMsgs(sends[..|sends| - 1]) + if last.accepted then [last.msg] else []
  }

  /** The end of the window of publications that concern channel `k`. */
  function End(b: Bus, k: Chan): nat {
    if k.until.Some? then k.until.value else |b.published|
  }

  function SentNos(k: Chan): set<nat> {
    set i | 0 <= i < |k.sends| :: k.sends[i].no
  }

  function PendingNos(b: Bus, c: ChanId): set<nat> {
    set p | p in b.readers && c in b.readers[p].todo :: b.readers[p].no
  }

  function DueNos(b: Bus, k: Chan): set<nat> {
    set n | k.since <= n < End(b, k) && n < |b.published| && b.published[n].topic == k.topic
  }

  predicate HistoryOk(b: Bus, k: Chan) {
    && |k.queue| <= CAPACITY
    && AcceptedMsgs(k.sends) == k.received + k.queue
    && (k.open <==> k.until.None?)
    && k.since <= End(b, k) <= |b.published|
    && (forall i :: 0 <= i < |k.sends| ==> SendOk(b, k.sends[i]))
    && (forall i, j :: 0 <= i < j < |k.sends| ==> k.sends[i].no != k.sends[j].no)
  }

  predicate SendOk(b: Bus, x: Send) {
    && x.no < |b.published| && b.published[x.no].msg == x.msg
    && x.depth <= CAPACITY && (x.accepted <==> x.depth < CAPACITY)
  }

  /** Each publication due to the channel has been offered to it once, or is about to be by a publisher in its loop. */
  predicate DeliveryOk(b: Bus, c: ChanId)
    requires c in b.chans
  {
    && SentNos(b.chans[c]) + PendingNos(b, c) == DueNos(b, b.chans[c])
    && SentNos(b.chans[c]) !! PendingNos(b, c)
  }

  predicate ChanOk(b: Bus, c: ChanId)
    requires c in b.chans
  {
    HistoryOk(b, b.chans[c]) && DeliveryOk(b, c)
  }

  predicate Inv(b: Bus) {
    && (b.crash == NoCrash || b.crash == CloseOfClosed)
    && SubsOk(b)
    && ReadersOk(b)
    && (forall c :: c in b.chans ==> ChanOk(b, c))
  }

  // ----- every step keeps the invariant -----

  lemma BeginKeepsInv(b: Bus, p: PublisherId, topic: Topic, msg: Message)
    requires Inv(b) && !b.closed && p !in b.readers
    ensures Inv(Begun(b, p, topic, msg))
  {
    var b' := Begun(b, p, topic, msg);
    forall c | c in b'.chans
      ensures ChanOk(b', c)
    {
      BeginKeepsChan(b, p, topic, msg, c);
    }
  }

  /** Appending to the publication log changes nothing about the sends already made. */
  lemma LogGrows(b: Bus, b': Bus, k: Chan)
    requires HistoryOk(b, k) && b.published <= b'.published
    ensures HistoryOk(b', k)
  {
    assert forall i :: 0 <= i < |k.sends| ==> SendOk(b, k.sends[i]);
  }

  lemma PendingOfBegun(b: Bus, p: PublisherId, topic: Topic, msg: Message, c: ChanId)
    requires p !in b.readers
    ensures var here := if c in Subscribers(b.subs, topic) then {|b.published|} else {};
      PendingNos(Begun(b, p, topic, msg), c) == PendingNos(b, c) + here
  {
    var b' := Begun(b, p, topic, msg);
    assert forall q :: q in b.readers ==> b'.readers[q] == b.readers[q];
    forall n | n in PendingNos(b, c)
      ensures n in PendingNos(b', c)
    {
      var q :| q in b.readers && c in b.readers[q].todo && b.readers[q].no == n;
      assert b'.readers[q].no == n;
    }
    assert b'.readers[p].no == |b.published|;
  }

  lemma DueOfBegun(b: Bus, p: PublisherId, topic: Topic, msg: Message, k: Chan)
    requires k.open <==> k.until.None?
    requires k.since <= End(b, k) <= |b.published|
    ensures var here := if k.open && k.topic == topic then {|b.published|} else {};
      DueNos(Begun(b, p, topic, msg), k) == DueNos(b, k) + here
  {
    var b' := Begun(b, p, topic, msg);
    assert forall n :: 0 <= n < |b.published| ==> b'.published[n] == b.published[n];
    assert b'.published[|b.published|] == Publication(p, topic, msg);
    assert End(b', k) == if k.open then |b.published| + 1 else End(b, k);
    var here := if k.open && k.topic == topic then {|b.published|} else {};
    assert forall n :: n in DueNos(b', k) <==> n in DueNos(b, k) + here;
  }

  lemma BeginKeepsChan(b: Bus, p: PublisherId, topic: Topic, msg: Message, c: ChanId)
    requires SubsOk(b) && p !in b.readers && c in b.chans && ChanOk(b, c)
    ensures ChanOk(Begun(b, p, topic, msg), c)
  {
    var k := b.chans[c];
    LogGrows(b, Begun(b, p, topic, msg), k);
    PendingOfBegun(b, p, topic, msg, c);
    DueOfBegun(b, p, topic, msg, k);
    forall n | n in SentNos(k)
      ensures n < |b.published|
    {
      var i :| 0 <= i < |k.sends| && k.sends[i].no == n;
      assert SendOk(b, k.sends[i]);
    }
  }

  lemma SendKeepsSubs(b: Bus, p: PublisherId, c: ChanId)
    requires SubsOk(b) && ReadersOk(b) && b.crash == NoCrash && p in b.readers && c in b.readers[p].todo && c in b.chans
    ensures b.chans[c].open
    ensures var b' := Sent(b, p, c); SubsOk(b') && ReadersOk(b') && b'.crash == NoCrash
  {
    assert ReaderOk(b, p, b.readers[p]);
    SendKeepsReaders(b, p, c);
  }

  lemma SendKeepsReaders(b: Bus, p: PublisherId, c: ChanId)
    requires ReadersOk(b) && p in b.readers && c in b.readers[p].todo && c in b.chans && b.chans[c].open
    ensures ReadersOk(Sent(b, p, c))
  {
    var b' := Sent(b, p, c);
    assert forall q :: q in b'.readers ==> b'.readers[q].no == b.readers[q].no;
    assert forall q :: q in b'.readers ==> ReaderOk(b, q, b.readers[q]);
  }

  lemma SendKeepsInv(b: Bus, p: PublisherId, c: ChanId)
    requires Inv(b) && b.crash == NoCrash && p in b.readers && c in b.readers[p].todo && c in b.chans
    ensures Inv(Sent(b, p, c))
  {
    var b' := Sent(b, p, c);
    SendKeepsSubs(b, p, c);
    forall d | d in b'.chans
      ensures ChanOk(b', d)
    {
      assert ChanOk(b, d);
      if d == c {
        SendKeepsHistory(b, p, c);
      } else {
        OtherChanKeepsDelivery(b, p, c, d);
      }
    }
  }

  lemma PendingOfSent(b: Bus, p: PublisherId, c: ChanId)
    requires ReadersOk(b) && p in b.readers && c in b.readers[p].todo && c in b.chans && b.chans[c].open
    ensures b.readers[p].no in PendingNos(b, c)
    ensures PendingNos(Sent(b, p, c), c) == PendingNos(b, c) - {b.readers[p].no}
  {
    var b' := Sent(b, p, c);
    forall n | n in PendingNos(b, c) && n != b.readers[p].no
      ensures n in PendingNos(b', c)
    {
      var q :| q in b.readers && c in b.readers[q].todo && b.readers[q].no == n;
      assert b'.readers[q] == b.readers[q];
    }
  }

  lemma SentOfOffer(k: Chan, no: nat, msg: Message)
    ensures SentNos(Offer(k, no, msg)) == SentNos(k) + {no}
  {
    var k' := Offer(k, no, msg);
    assert k'.sends[|k.sends|].no == no;
    forall n | n in SentNos(k)
      ensures n in SentNos(k')
    {
      var i :| 0 <= i < |k.sends| && k.sends[i].no == n;
      assert k'.sends[i].no == n;
    }
  }

  lemma OfferKeepsHistory(b: Bus, k: Chan, no: nat, msg: Message)
    requires HistoryOk(b, k) && no !in SentNos(k) && no < |b.published| && b.published[no].msg == msg
    ensures HistoryOk(b, Offer(k, no, msg))
  {
    var k' := Offer(k, no, msg);
    assert k'.sends[..|k'.sends| - 1] == k.sends;
    assert forall i :: 0 <= i < |k.sends| ==> k.sends[i].no in SentNos(k);
    assert SendOk(b, k'.sends[|k.sends|]);
  }

  lemma SendKeepsHistory(b: Bus, p: PublisherId, c: ChanId)
    requires ReadersOk(b) && p in b.readers && c in b.readers[p].todo && c in b.chans && b.chans[c].open
    requires HistoryOk(b, b.chans[c]) && DeliveryOk(b, c)
    ensures var b' := Sent(b, p, c); HistoryOk(b', b'.chans[c]) && DeliveryOk(b', c)
  {
    var b' := Sent(b, p, c);
    var k, r := b.chans[c], b.readers[p];
    assert ReaderOk(b, p, r);
    PendingOfSent(b, p, c);
    SentOfOffer(k, r.no, r.msg);
    OfferKeepsHistory(b, k, r.no, r.msg);
    LogGrows(b, b', b'.chans[c]);
    assert DueNos(b', b'.chans[c]) == DueNos(b, k);
  }

  lemma OtherChanKeepsDelivery(b: Bus, p: PublisherId, c: ChanId, d: ChanId)
    requires p in b.readers && c in b.chans && b.chans[c].open && d in b.chans && d != c && ChanOk(b, d)
    ensures ChanOk(Sent(b, p, c), d)
  {
    var b' := Sent(b, p, c);
    LogGrows(b, b', b.chans[d]);
    forall n | n in PendingNos(b, d)
      ensures n in PendingNos(b', d)
    {
      var q :| q in b.readers && d in b.readers[q].todo && b.readers[q].no == n;
      assert d in b'.readers[q].todo && b'.readers[q].no == n;
    }
    assert PendingNos(b', d) == PendingNos(b, d);
    assert DueNos(b', b.chans[d]) == DueNos(b, b.chans[d]);
  }

  lemma SubscribeKeepsSubs(b: Bus, topic: Topic, ch: ChanId)
    requires SubsOk(b) && b.readers == map[] && !b.closed && ch !in b.chans
    ensures var b' := Subscribed(b, topic, ch); SubsOk(b') && ReadersOk(b')
  {
  }

  lemma SubscribeKeepsInv(b: Bus, topic: Topic, ch: ChanId)
    requires Inv(b) && b.readers == map[] && !b.closed && ch !in b.chans
    ensures Inv(Subscribed(b, topic, ch))
  {
    var b' := Subscribed(b, topic, ch);
    SubscribeKeepsSubs(b, topic, ch);
    forall c | c in b'.chans
      ensures ChanOk(b', c)
    {
      if c != ch {
        assert ChanOk(b, c);
        CloseKeepsChan(b, b', c);
      }
    }
  }

  /** With no publisher in its loop, closing a channel ends its window and loses nothing due to it. */
  lemma CloseKeepsChan(b: Bus, b': Bus, c: ChanId)
    requires c in b.chans && c in b'.chans && ChanOk(b, c)
    requires b.readers == map[] && b'.readers == map[] && b'.published == b.published
    requires b'.chans[c] == b.chans[c] || (b.chans[c].open && b'.chans[c] == ClosedChan(b.chans[c], |b.published|))
    ensures ChanOk(b', c)
  {
    assert forall i :: 0 <= i < |b.chans[c].sends| ==> SendOk(b, b.chans[c].sends[i]);
    assert DueNos(b', b'.chans[c]) == DueNos(b, b.chans[c]);
    assert SentNos(b'.chans[c]) == SentNos(b.chans[c]);
  }

  lemma UnsubKeepsSubs(b: Bus, ch: ChanId)
    requires SubsOk(b) && b.crash == NoCrash && b.readers == map[] && ch in b.chans
    ensures SubsOk(Unsubscribed(b, ch))
  {
    if b.chans[ch].topic in b.subs && b.chans[ch].open {
      LiveUnsubKeepsSubs(b, ch);
    }
  }

  lemma LiveUnsubKeepsSubs(b: Bus, ch: ChanId)
    requires SubsOk(b) && ch in b.chans && b.chans[ch].open && b.chans[ch].topic in b.subs
    ensures SubsOk(Unsubscribed(b, ch))
  {
    var topic := b.chans[ch].topic;
    assert forall t :: Subscribers(Dropped(b.subs, topic, ch), t) == Subscribers(b.subs, t) - {ch} by {
      assert forall t :: t in b.subs && ch in b.subs[t] ==> t == topic;
    }
  }

  lemma UnsubCrash(b: Bus, ch: ChanId)
    requires SubsOk(b) && b.crash == NoCrash && ch in b.chans
    ensures Unsubscribed(b, ch).crash ==
      if ch in b.unsubbed && b.chans[ch].topic in b.subs then CloseOfClosed else NoCrash
  {
    if !b.chans[ch].open && b.chans[ch].topic in b.subs {
      assert ch in b.unsubbed;
    }
  }

  lemma UnsubKeepsInv(b: Bus, ch: ChanId)
    requires Inv(b) && b.crash == NoCrash && b.readers == map[] && ch in b.chans
    ensures Inv(Unsubscribed(b, ch))
  {
    var b' := Unsubscribed(b, ch);
    UnsubKeepsSubs(b, ch);
    assert b'.readers == map[];
    forall c | c in b'.chans
      ensures ChanOk(b', c)
    {
      assert ChanOk(b, c);
      CloseKeepsChan(b, b', c);
    }
  }

  lemma AllSubscribersAreTheOpenOnes(b: Bus)
    requires SubsOk(b)
    ensures forall c :: c in AllSubscribers(b.subs) <==> c in b.chans && b.chans[c].open
  {
    forall c | c in AllSubscribers(b.subs)
      ensures c in b.chans && b.chans[c].open
    {
      var t :| t in b.subs && c in b.subs[t];
    }
    forall c | c in b.chans && b.chans[c].open
      ensures c in AllSubscribers(b.subs)
    {
      assert c in b.subs[b.chans[c].topic];
    }
  }

  lemma CloseKeepsSubs(b: Bus)
    requires SubsOk(b) && b.crash == NoCrash && b.readers == map[]
    ensures var b' := ClosedBus(b); SubsOk(b') && ReadersOk(b') && b'.crash == NoCrash
    ensures forall c :: c in b.chans ==> c in ClosedBus(b).chans && !ClosedBus(b).chans[c].open
  {
    AllSubscribersAreTheOpenOnes(b);
  }

  lemma CloseKeepsInv(b: Bus)
    requires Inv(b) && b.crash == NoCrash && b.readers == map[]
    ensures Inv(ClosedBus(b))
  {
    var b' := ClosedBus(b);
    CloseKeepsSubs(b);
    AllSubscribersAreTheOpenOnes(b);
    forall c | c in b'.chans
      ensures ChanOk(b', c)
    {
      assert ChanOk(b, c);
      CloseKeepsChan(b, b', c);
    }
  }

  lemma ReceiveKeepsSubs(b: Bus, ch: ChanId)
    requires SubsOk(b) && ReadersOk(b) && ch in b.chans && b.chans[ch].queue != []
    ensures var b' := Received(b, ch); SubsOk(b') && ReadersOk(b')
  {
    assert forall p :: p in b.readers ==> ReaderOk(b, p, b.readers[p]);
  }

  lemma ReceiveKeepsChan(b: Bus, ch: ChanId, c: ChanId)
    requires ch in b.chans && b.chans[ch].queue != [] && c in b.chans && ChanOk(b, c)
    ensures ChanOk(Received(b, ch), c)
  {
    var b' := Received(b, ch);
    assert forall i :: 0 <= i < |b.chans[c].sends| ==> SendOk(b, b.chans[c].sends[i]);
    assert SentNos(b'.chans[c]) == SentNos(b.chans[c]);
    assert PendingNos(b', c) == PendingNos(b, c);
    assert DueNos(b', b'.chans[c]) == DueNos(b, b.chans[c]);
    assert b.chans[ch].queue == [b.chans[ch].queue[0]] + b.chans[ch].queue[1..];
  }

  lemma ReceiveKeepsInv(b: Bus, ch: ChanId)
    requires Inv(b) && ch in b.chans && b.chans[ch].queue != []
    ensures Inv(Received(b, ch))
  {
    var b' := Received(b, ch);
    ReceiveKeepsSubs(b, ch);
    forall c | c in b'.chans
      ensures ChanOk(b', c)
    {
      assert ChanOk(b, c);
      ReceiveKeepsChan(b, ch, c);
    }
  }

  lemma EndKeepsChan(b: Bus, p: PublisherId, c: ChanId)
    requires p in b.readers && b.readers[p].todo == {} && c in b.chans && ChanOk(b, c)
    ensures ChanOk(b.(readers := b.readers - {p}), c)
  {
    var b' := b.(readers := b.readers - {p});
    LogGrows(b, b', b.chans[c]);
    forall n | n in PendingNos(b, c)
      ensures n in PendingNos(b', c)
    {
      var q :| q in b.readers && c in b.readers[q].todo && b.readers[q].no == n;
      assert q in b'.readers;
    }
    assert PendingNos(b', c) == PendingNos(b, c);
    assert DueNos(b', b.chans[c]) == DueNos(b, b.chans[c]);
  }

  lemma EndKeepsInv(b: Bus, p: PublisherId)
    requires Inv(b) && p in b.readers && b.readers[p].todo == {}
    ensures Inv(b.(readers := b.readers - {p}))
  {
    var b' := b.(readers := b.readers - {p});
    assert ReadersOk(b') by {
      assert forall q :: q in b.readers ==> ReaderOk(b, q, b.readers[q]);
    }
    forall c | c in b'.chans
      ensures ChanOk(b', c)
    {
      assert ChanOk(b, c);
      EndKeepsChan(b, p, c);
    }
  }

  /** The second unsub of a channel whose topic has other subscribers: the one thing that panics. */
  predicate SecondUnsub(b: Bus, step: Step) {
    && step.Unsub? && b.readers == map[]
    && step.ch in b.chans && step.ch in b.unsubbed && b.chans[step.ch].topic in b.subs
  }

  /** The step keeps the invariant, and panics exactly if it is a second unsub. */
  predicate StepOk(b: Bus, step: Step) {
    Inv(Apply(b, step)) && (Apply(b, step).crash != NoCrash <==> SecondUnsub(b, step))
  }

  lemma BeginStepOk(b: Bus, p: PublisherId, topic: Topic, msg: Message)
    requires Inv(b) && b.crash == NoCrash
    ensures StepOk(b, BeginPublish(p, topic, msg))
  {
    if !b.closed && p !in b.readers {
      BeginKeepsInv(b, p, topic, msg);
    }
  }

  lemma SendStepOk(b: Bus, p: PublisherId, ch: ChanId)
    requires Inv(b) && b.crash == NoCrash
    ensures StepOk(b, SendTo(p, ch))
  {
    if p in b.readers && ch in b.readers[p].todo && ch in b.chans {
      SendKeepsSubs(b, p, ch);
      SendKeepsInv(b, p, ch);
    }
  }

  lemma EndStepOk(b: Bus, p: PublisherId)
    requires Inv(b) && b.crash == NoCrash
    ensures StepOk(b, EndPublish(p))
  {
    if p in b.readers && b.readers[p].todo == {} {
      EndKeepsInv(b, p);
    }
  }

  lemma SubscribeStepOk(b: Bus, topic: Topic, ch: ChanId)
    requires Inv(b) && b.crash == NoCrash
    ensures StepOk(b, Step.Subscribe(topic, ch))
  {
    if b.readers == map[] && !b.closed && ch !in b.chans {
      SubscribeKeepsInv(b, topic, ch);
    }
  }

  lemma UnsubStepOk(b: Bus, ch: ChanId)
    requires Inv(b) && b.crash == NoCrash
    ensures StepOk(b, Step.Unsub(ch))
  {
    if b.readers == map[] && ch in b.chans {
      UnsubCrash(b, ch);
      UnsubKeepsInv(b, ch);
    }
  }

  lemma CloseStepOk(b: Bus)
    requires Inv(b) && b.crash == NoCrash
    ensures StepOk(b, Close)
  {
    if b.readers == map[] {
      CloseKeepsSubs(b);
      CloseKeepsInv(b);
    }
  }

  lemma ReceiveStepOk(b: Bus, ch: ChanId)
    requires Inv(b) && b.crash == NoCrash
    ensures StepOk(b, Receive(ch))
  {
    if ch in b.chans && b.chans[ch].queue != [] {
      ReceiveKeepsInv(b, ch);
    }
  }

  lemma LiveStepOk(b: Bus, step: Step)
    requires Inv(b) && b.crash == NoCrash
    ensures StepOk(b, step)
  {
    match step
    case BeginPublish(p, topic, msg) => BeginStepOk(b, p, topic, msg);
    case SendTo(p, ch) => SendStepOk(b, p, ch);
    case EndPublish(p) => EndStepOk(b, p);
    case Subscribe(topic, ch) => SubscribeStepOk(b, topic, ch);
    case Unsub(ch) => UnsubStepOk(b, ch);
    case Close => CloseStepOk(b);
    case Receive(ch) => ReceiveStepOk(b, ch);
  }

  lemma StepKeepsInv(b: Bus, step: Step)
    requires Inv(b)
    ensures Inv(Apply(b, step))
    ensures b.crash == NoCrash ==> (Apply(b, step).crash != NoCrash <==> SecondUnsub(b, step))
  {
    if b.crash == NoCrash {
      LiveStepOk(b, step);
    }
  }

  lemma RunKeepsInv(b: Bus, steps: seq<Step>)
    requires Inv(b)
    ensures Inv(Exec(b, steps))
  {
    forall t, e | Inv(t)
      ensures Inv(Apply(t, e))
    {
      StepKeepsInv(t, e);
    }
    RunInvariant(Apply, Inv, b, steps);
  }

  lemma Reachable(steps: seq<Step>)
    ensures Inv(Exec(INIT, steps))
  {
    RunKeepsInv(INIT, steps);
  }

  // ----- structure and conservation, in every run -----

  /** An open channel is registered under exactly one topic, a closed one under none; no topic maps to an empty set. */
  lemma OpenMeansRegisteredOnce(steps: seq<Step>)
    ensures var b := Exec(INIT, steps);
      && (forall c, t :: c in b.chans ==> (c in Subscribers(b.subs, t) <==> b.chans[c].open && t == b.chans[c].topic))
      && (forall t :: t in b.subs ==> b.subs[t] != {} && b.subs[t] <= b.chans.Keys)
      && (b.closed ==> b.subs == map[] && forall c :: c in b.chans ==> !b.chans[c].open)
  {
    Reachable(steps);
    var b := Exec(INIT, steps);
    forall c, t | c in b.chans
      ensures c in Subscribers(b.subs, t) <==> b.chans[c].open && t == b.chans[c].topic
    {
      if c in Subscribers(b.subs, t) {
        assert c in b.subs[t];
      }
    }
  }

  /**
   * Nothing is lost between the sends and the subscriber: what it received, then what is buffered, is
   * what was enqueued, in order. The buffer never exceeds 64, and a send is dropped exactly when it
   * found the buffer holding 64.
   */
  lemma ChannelConservation(steps: seq<Step>, c: ChanId)
    ensures var b := Exec(INIT, steps);
      c in b.chans ==>
        var k := b.chans[c];
        && AcceptedMsgs(k.sends) == k.received + k.queue
        && |k.queue| <= 64
        && forall i :: 0 <= i < |k.sends| ==>
          k.sends[i].depth <= 64 && (!k.sends[i].accepted <==> k.sends[i].depth == 64)
  {
    Reachable(steps);
    var b := Exec(INIT, steps);
    if c in b.chans {
      assert ChanOk(b, c);
      forall i | 0 <= i < |b.chans[c].sends|
        ensures b.chans[c].sends[i].depth <= 64 && (!b.chans[c].sends[i].accepted <==> b.chans[c].sends[i].depth == 64)
      {
        assert SendOk(b, b.chans[c].sends[i]);
      }
    }
  }

  /**
   * With any number of publishers at once, every publication made on a channel's topic while it was
   * subscribed, and no other, is offered to it exactly once; the ones not yet offered are those whose
   * publisher has still to visit the channel.
   */
  lemma EachPublicationOfferedOnce(steps: seq<Step>, c: ChanId, n: nat)
    ensures var b := Exec(INIT, steps);
      c in b.chans ==>
        var k := b.chans[c];
        && (n in DueNos(b, k) <==> n in SentNos(k) || n in PendingNos(b, c))
        && !(n in SentNos(k) && n in PendingNos(b, c))
        && (forall i, j :: 0 <= i < j < |k.sends| ==> k.sends[i].no != k.sends[j].no)
        && (forall i :: 0 <= i < |k.sends| ==>
              k.sends[i].no < |b.published| && k.sends[i].msg == b.published[k.sends[i].no].msg)
  {
    Reachable(steps);
    var b := Exec(INIT, steps);
    if c in b.chans {
      assert ChanOk(b, c);
      assert n in SentNos(b.chans[c]) + PendingNos(b, c) <==> n in DueNos(b, b.chans[c]);
      forall i | 0 <= i < |b.chans[c].sends|
        ensures b.chans[c].sends[i].no < |b.published|
        ensures b.chans[c].sends[i].msg == b.published[b.chans[c].sends[i].no].msg
      {
        assert SendOk(b, b.chans[c].sends[i]);
      }
    }
  }

  /** While a publisher is in its loop, every channel it has yet to visit is open. */
  lemma PendingChannelsAreOpen(steps: seq<Step>, p: PublisherId, c: ChanId)
    ensures var b := Exec(INIT, steps);
      p in b.readers && c in b.readers[p].todo ==>
        c in b.chans && b.chans[c].open && b.chans[c].topic == b.readers[p].topic
  {
    Reachable(steps);
    var b := Exec(INIT, steps);
    if p in b.readers && c in b.readers[p].todo {
      assert ReaderOk(b, p, b.readers[p]);
      assert c in b.subs[b.readers[p].topic];
    }
  }

  // ----- the only panic: a second unsub of a channel whose topic has subscribers -----

  /** Only an unsub that gets the lock adds to the unsubs made, and a crash is final. */
  predicate UnsubFrame(b: Bus, step: Step, b': Bus) {
    && b.unsubbed <= b'.unsubbed && b.chans.Keys <= b'.chans.Keys
    && (forall c :: c in b'.unsubbed && c !in b.unsubbed ==>
          step == Unsub(c) && b.readers == map[] && c in b.chans && b.crash == NoCrash)
    && (b.crash != NoCrash ==> b' == b)
    && (step.Unsub? && b.readers == map[] && step.ch in b.chans && b'.crash == NoCrash ==> step.ch in b'.unsubbed)
  }

  lemma StepUnsubFrame(b: Bus, step: Step)
    ensures UnsubFrame(b, step, Apply(b, step))
  {
  }

  function StateAt(steps: seq<Step>, i: nat): Bus
    requires i <= |steps|
  {
    At(Apply, INIT, steps, i)
  }

  lemma StateNext(steps: seq<Step>, i: nat)
    requires i < |steps|
    ensures var b := StateAt(steps, i);
      && Inv(b) && StateAt(steps, i + 1) == Apply(b, steps[i])
      && (b.crash == NoCrash ==> (Apply(b, steps[i]).crash != NoCrash <==> SecondUnsub(b, steps[i])))
      && UnsubFrame(b, steps[i], Apply(b, steps[i]))
  {
    AtNext(Apply, INIT, steps, i);
    Reachable(steps[..i]);
    StepKeepsInv(StateAt(steps, i), steps[i]);
    StepUnsubFrame(StateAt(steps, i), steps[i]);
  }

  /** The `i`-th step is a call of channel `c`'s unsub, holding the write lock. */
  predicate UnsubRuns(steps: seq<Step>, i: nat, c: ChanId)
    requires i < |steps|
  {
    var b := StateAt(steps, i);
    steps[i] == Unsub(c) && b.readers == map[] && c in b.chans && b.crash == NoCrash
  }

  ghost predicate UnsubbedTwice(steps: seq<Step>) {
    exists i: nat, j: nat, c: ChanId :: i < j < |steps| && UnsubRuns(steps, i, c) && UnsubRuns(steps, j, c)
      && StateAt(steps, j).chans[c].topic in StateAt(steps, j).subs
  }

  lemma {:induction false} UnsubbedHasCall(steps: seq<Step>, n: nat, c: ChanId)
    requires n <= |steps| && c in StateAt(steps, n).unsubbed
    ensures exists i: nat :: i < n && UnsubRuns(steps, i, c)
    decreases n
  {
    assert StateAt(steps, 0) == INIT;
    StateNext(steps, n - 1);
    if c in StateAt(steps, n - 1).unsubbed {
      UnsubbedHasCall(steps, n - 1, c);
    } else {
      assert UnsubRuns(steps, n - 1, c);
    }
  }

  lemma {:induction false} UnsubbedStays(steps: seq<Step>, i: nat, j: nat)
    requires i <= j <= |steps|
    ensures StateAt(steps, i).unsubbed <= StateAt(steps, j).unsubbed
    ensures StateAt(steps, i).crash != NoCrash ==> StateAt(steps, j).crash != NoCrash
    decreases j - i
  {
    if i < j {
      StateNext(steps, j - 1);
      UnsubbedStays(steps, i, j - 1);
    }
  }

  /** Once a channel's unsub has run, the channel is closed and under no topic, whatever happens after. */
  lemma UnsubIsFinal(steps: seq<Step>, i: nat, n: nat, c: ChanId)
    requires i < n <= |steps| && UnsubRuns(steps, i, c) && StateAt(steps, n).crash == NoCrash
    ensures var b := StateAt(steps, n);
      c in b.chans && !b.chans[c].open && forall t :: c !in Subscribers(b.subs, t)
  {
    StateNext(steps, i);
    UnsubbedStays(steps, i + 1, n);
    Reachable(steps[..n]);
    OpenMeansRegisteredOnce(steps[..n]);
  }

  lemma {:induction false} CrashHasCause(steps: seq<Step>, n: nat)
    requires n <= |steps| && StateAt(steps, n).crash != NoCrash
    ensures UnsubbedTwice(steps)
    decreases n
  {
    assert StateAt(steps, 0) == INIT;
    StateNext(steps, n - 1);
    if StateAt(steps, n - 1).crash != NoCrash {
      CrashHasCause(steps, n - 1);
    } else {
      var c := steps[n - 1].ch;
      UnsubbedHasCall(steps, n - 1, c);
      assert UnsubRuns(steps, n - 1, c);
    }
  }

  lemma SecondCallCrashes(steps: seq<Step>, i: nat, j: nat, c: ChanId)
    requires i < j < |steps| && UnsubRuns(steps, i, c) && UnsubRuns(steps, j, c)
    requires StateAt(steps, j).chans[c].topic in StateAt(steps, j).subs
    ensures StateAt(steps, |steps|).crash != NoCrash
  {
    assert SecondUnsub(StateAt(steps, j), steps[j]) by {
      StateNext(steps, i);
      UnsubbedStays(steps, i + 1, j);
    }
    StateNext(steps, j);
    UnsubbedStays(steps, j + 1, |steps|);
  }

  /**
   * No run sends on a closed channel; and a run panics, by closing a channel twice, if and only if
   * some channel's unsub is called twice and its topic has a subscriber at the second call.
   */
  lemma PanicsExactlyOnSecondUnsub(steps: seq<Step>)
    ensures Exec(INIT, steps).crash != SendOnClosed
    ensures Exec(INIT, steps).crash != NoCrash <==> UnsubbedTwice(steps)
  {
    Reachable(steps);
    assert steps[..|steps|] == steps;
    if Exec(INIT, steps).crash != NoCrash {
      CrashHasCause(steps, |steps|);
    }
    if UnsubbedTwice(steps) {
      var i: nat, j: nat, c: ChanId :| i < j < |steps| && UnsubRuns(steps, i, c) && UnsubRuns(steps, j, c)
        && StateAt(steps, j).chans[c].topic in StateAt(steps, j).subs;
      SecondCallCrashes(steps, i, j, c);
    }
  }

  /** What the theorem excludes: in any state, reachable or not, a send on a closed channel would panic. */
  lemma SendOnClosedWouldPanic(b: Bus, p: PublisherId, c: ChanId)
    requires b.crash == NoCrash && p in b.readers && c in b.readers[p].todo && c in b.chans && !b.chans[c].open
    ensures Apply(b, SendTo(p, c)).crash == SendOnClosed
  {
  }

  /** And such a run exists: two subscribers of one topic, and the first one's unsub twice. */
  lemma SecondUnsubPanics(topic: Topic)
    ensures Exec(INIT, [Step.Subscribe(topic, 0), Step.Subscribe(topic, 1)] + [Step.Unsub(0), Step.Unsub(0)]).crash
      == CloseOfClosed
  {
    var b2 := Subscribed(Subscribed(INIT, topic, 0), topic, 1);
    RunAppend(Apply, INIT, [Step.Subscribe(topic, 0), Step.Subscribe(topic, 1)], [Step.Unsub(0), Step.Unsub(0)]);
    RunTwo(INIT, Step.Subscribe(topic, 0), Step.Subscribe(topic, 1));
    RunTwo(b2, Step.Unsub(0), Step.Unsub(0));
    assert 1 in b2.subs[topic];
    assert topic in Unsubscribed(b2, 0).subs;
  }

  lemma RunTwo(b: Bus, x: Step, y: Step)
    ensures Exec(b, [x, y]) == Apply(Apply(b, x), y)
  {
    assert [x, y][1..] == [y];
    RunOne(Apply, Apply(b, x), y);
  }
}
