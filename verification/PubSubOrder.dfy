/**
 * The order of what a subscriber gets: each publisher's messages arrive in the order it published them,
 * with any number of publishers at once; and with one publisher the bounded channel refines the
 * unbounded stream of its topic.
 */
module PubSubOrder {
  import opened PubSub
  import opened PubSubProofs

  /** What an unbounded queue subscribed for publications `lo` up to `hi` would be given. */
  function OnTopic(log: seq<Publication>, lo: nat, hi: nat, topic: Topic): seq<Message>
    requires hi <= |log|
    decreases hi
  {
    if hi <= lo then []
    else OnTopic(log, lo, hi - 1, topic) + if log[hi - 1].topic == topic then [log[hi - 1].msg] else []
  }

  /** What it would be given of publisher `p`'s. */
  function OnTopicBy(log: seq<Publication>, lo: nat, hi: nat, topic: Topic, p: PublisherId): seq<Message>
    requires hi <= |log|
    decreases hi
  {
    if hi <= lo then []
    else
      OnTopicBy(log, lo, hi - 1, topic, p)
      + if log[hi - 1].topic == topic && log[hi - 1].publisher == p then [log[hi - 1].msg] else []
  }

  function TopicStream(b: Bus, k: Chan): seq<Message>
    requires End(b, k) <= |b.published|
  {
    OnTopic(b.published, k.since, End(b, k), k.topic)
  }

  /** Publisher `p`'s publications on the channel's topic while it was subscribed. */
  function StreamBy(b: Bus, k: Chan, p: PublisherId): seq<Message>
    requires End(b, k) <= |b.published|
  {
    OnTopicBy(b.published, k.since, End(b, k), k.topic, p)
  }

  function Msgs(sends: seq<Send>): seq<Message> {
    seq(|sends|, i requires 0 <= i < |sends| => sends[i].msg)
  }

  predicate IsBy(log: seq<Publication>, x: Send, p: PublisherId) {
    x.no < |log| && log[x.no].publisher == p
  }

  /** The sends made for publications of `p`. */
  function SentBy(log: seq<Publication>, sends: seq<Send>, p: PublisherId): seq<Send> {
    if sends == [] then []
    else
      var last := sends[|sends| - 1];
      SentBy(log, sends[..|sends| - 1], p) + if IsBy(log, last, p) then [last] else []
  }

  /** The sends that were not dropped. */
  function Delivered(sends: seq<Send>): seq<Send> {
    if sends == [] then []
    else
      var last := sends[|sends| - 1];
      Delivered(sends[..|sends| - 1]) + if last.accepted then [last] else []
  }

  /** The message publisher `p` has still to offer to channel `c`, if any. */
  function Pending(b: Bus, p: PublisherId, c: ChanId): seq<Message> {
    if p in b.readers && c in b.readers[p].todo then [b.readers[p].msg] else []
  }

  /** Dropped or not, `p`'s messages have been offered to the channel in the order of its publications. */
  predicate InOrderAt(b: Bus, p: PublisherId, c: ChanId)
    requires c in b.chans
  {
    var k := b.chans[c];
    End(b, k) <= |b.published| && Msgs(SentBy(b.published, k.sends, p)) + Pending(b, p, c) == StreamBy(b, k, p)
  }

  predicate InOrder(b: Bus, p: PublisherId) {
    forall c :: c in b.chans ==> InOrderAt(b, p, c)
  }

  // ----- every step keeps the order -----

  lemma {:induction false} OnTopicOfPrefix(log: seq<Publication>, log': seq<Publication>, lo: nat, hi: nat,
                                           topic: Topic, p: PublisherId)
    requires hi <= |log| && log <= log'
    ensures OnTopicBy(log', lo, hi, topic, p) == OnTopicBy(log, lo, hi, topic, p)
    decreases hi
  {
    if lo < hi {
      OnTopicOfPrefix(log, log', lo, hi - 1, topic, p);
    }
  }

  predicate AllLogged(log: seq<Publication>, sends: seq<Send>) {
    forall i :: 0 <= i < |sends| ==> sends[i].no < |log|
  }

  lemma HistoryIsLogged(b: Bus, k: Chan)
    requires HistoryOk(b, k)
    ensures AllLogged(b.published, k.sends)
  {
    assert forall i :: 0 <= i < |k.sends| ==> SendOk(b, k.sends[i]);
  }

  lemma {:induction false} SentByOfPrefix(log: seq<Publication>, log': seq<Publication>, sends: seq<Send>,
                                          p: PublisherId)
    requires log <= log' && AllLogged(log, sends)
    ensures SentBy(log', sends, p) == SentBy(log, sends, p)
    decreases |sends|
  {
    if sends != [] {
      SentByOfPrefix(log, log', sends[..|sends| - 1], p);
    }
  }

  lemma SentByOneMore(log: seq<Publication>, sends: seq<Send>, x: Send, p: PublisherId)
    ensures SentBy(log, sends + [x], p) == SentBy(log, sends, p) + if IsBy(log, x, p) then [x] else []
  {
    assert (sends + [x])[..|sends|] == sends;
  }

  lemma BeginInOrder(b: Bus, q: PublisherId, topic: Topic, msg: Message, p: PublisherId, c: ChanId)
    requires SubsOk(b) && q !in b.readers && c in b.chans && HistoryOk(b, b.chans[c]) && InOrderAt(b, p, c)
    ensures InOrderAt(Begun(b, q, topic, msg), p, c)
  {
    var b' := Begun(b, q, topic, msg);
    var k := b.chans[c];
    HistoryIsLogged(b, k);
    SentByOfPrefix(b.published, b'.published, k.sends, p);
    OnTopicOfPrefix(b.published, b'.published, k.since, End(b, k), k.topic, p);
    assert b'.published[|b.published|] == Publication(q, topic, msg);
  }

  lemma SendInOrder(b: Bus, q: PublisherId, ch: ChanId, p: PublisherId, c: ChanId)
    requires q in b.readers && ReaderOk(b, q, b.readers[q])
    requires ch in b.readers[q].todo && ch in b.chans && b.chans[ch].open
    requires c in b.chans && InOrderAt(b, p, c)
    ensures InOrderAt(Sent(b, q, ch), p, c)
  {
    var b' := Sent(b, q, ch);
    if c == ch {
      OfferMovesPending(b, q, ch, p);
    }
  }

  lemma OfferMovesPending(b: Bus, q: PublisherId, ch: ChanId, p: PublisherId)
    requires q in b.readers && ReaderOk(b, q, b.readers[q])
    requires ch in b.readers[q].todo && ch in b.chans && b.chans[ch].open
    ensures var b' := Sent(b, q, ch);
      Msgs(SentBy(b.published, b'.chans[ch].sends, p)) + Pending(b', p, ch) ==
      Msgs(SentBy(b.published, b.chans[ch].sends, p)) + Pending(b, p, ch)
  {
    var b', r, k := Sent(b, q, ch), b.readers[q], b.chans[ch];
    var x := Send(r.no, r.msg, |k.queue|, |k.queue| < CAPACITY);
    var own := SentBy(b.published, k.sends, p);
    SentByOneMore(b.published, k.sends, x, p);
    assert IsBy(b.published, x, p) <==> p == q;
    if p == q {
      MsgsOneMore(own, x);
      assert Pending(b, p, ch) == [x.msg] && Pending(b', p, ch) == [];
      assert Msgs(own) + [x.msg] + [] == Msgs(own) + [x.msg];
    } else {
      assert own + [] == own;
    }
  }

  /** Subscribing, closing and receiving move neither the sends of a channel nor what is due to it. */
  lemma QuietInOrder(b: Bus, b': Bus, p: PublisherId, c: ChanId)
    requires c in b.chans && c in b'.chans && InOrderAt(b, p, c)
    requires b'.published == b.published && Pending(b', p, c) == Pending(b, p, c)
    requires var k, k' := b.chans[c], b'.chans[c];
      k'.sends == k.sends && k'.since == k.since && k'.topic == k.topic && End(b', k') == End(b, k)
    ensures InOrderAt(b', p, c)
  {
  }

  lemma StepIsQuiet(b: Bus, p: PublisherId, step: Step, c: ChanId)
    requires c in b.chans && (b.chans[c].open <==> b.chans[c].until.None?) && !step.BeginPublish? && !step.SendTo?
    requires SubsOk(b)
    ensures var b' := Apply(b, step);
      && c in b'.chans && b'.published == b.published && Pending(b', p, c) == Pending(b, p, c)
      && var k, k' := b.chans[c], b'.chans[c];
        k'.sends == k.sends && k'.since == k.since && k'.topic == k.topic && End(b', k') == End(b, k)
  {
    if step.Close? {
      AllSubscribersAreTheOpenOnes(b);
    }
  }

  /** A channel just made has nothing sent and nothing due. */
  lemma NewChannelInOrder(b: Bus, p: PublisherId, topic: Topic, ch: ChanId)
    requires b.readers == map[]
    ensures InOrderAt(Subscribed(b, topic, ch), p, ch)
  {
  }

  lemma OldChannelInOrder(b: Bus, p: PublisherId, step: Step, c: ChanId)
    requires Inv(b) && b.crash == NoCrash && c in b.chans && InOrderAt(b, p, c)
    ensures c in Apply(b, step).chans && InOrderAt(Apply(b, step), p, c)
  {
    assert ChanOk(b, c);
    if step.BeginPublish? {
      if !b.closed && step.p !in b.readers {
        BeginInOrder(b, step.p, step.topic, step.msg, p, c);
      }
    } else if step.SendTo? {
      if step.p in b.readers && step.ch in b.readers[step.p].todo && step.ch in b.chans {
        SendKeepsSubs(b, step.p, step.ch);
        SendInOrder(b, step.p, step.ch, p, c);
      }
    } else {
      StepIsQuiet(b, p, step, c);
      QuietInOrder(b, Apply(b, step), p, c);
    }
  }

  lemma NewOnlyBySubscribe(b: Bus, step: Step, c: ChanId)
    requires c in Apply(b, step).chans && c !in b.chans
    ensures step.Subscribe? && step.ch == c && b.readers == map[] && Apply(b, step) == Subscribed(b, step.topic, c)
  {
  }

  lemma StepInOrder(b: Bus, p: PublisherId, step: Step)
    requires Inv(b) && InOrder(b, p)
    ensures InOrder(Apply(b, step), p)
  {
    if b.crash == NoCrash {
      forall c | c in Apply(b, step).chans
        ensures InOrderAt(Apply(b, step), p, c)
      {
        if c in b.chans {
          OldChannelInOrder(b, p, step, c);
        } else {
          NewOnlyBySubscribe(b, step, c);
          NewChannelInOrder(b, p, step.topic, c);
        }
      }
    }
  }

  lemma {:induction false} RunInOrder(b: Bus, p: PublisherId, steps: seq<Step>)
    requires Inv(b) && InOrder(b, p)
    ensures InOrder(Exec(b, steps), p)
    decreases |steps|
  {
    if steps != [] {
      StepKeepsInv(b, steps[0]);
      StepInOrder(b, p, steps[0]);
      RunInOrder(Apply(b, steps[0]), p, steps[1..]);
    }
  }

  // ----- subsequences -----

  predicate Subsequence(xs: seq<Message>, ys: seq<Message>)
    decreases |ys|
  {
    if xs == [] then true
    else if ys == [] then false
    else
      || Subsequence(xs, ys[..|ys| - 1])
      || (xs[|xs| - 1] == ys[|ys| - 1] && Subsequence(xs[..|xs| - 1], ys[..|ys| - 1]))
  }

  lemma SubsequenceOneMore(xs: seq<Message>, ys: seq<Message>, m: Message)
    requires Subsequence(xs, ys)
    ensures Subsequence(xs, ys + [m]) && Subsequence(xs + [m], ys + [m])
  {
    assert (ys + [m])[..|ys|] == ys && (xs + [m])[..|xs|] == xs;
  }

  lemma MsgsOneMore(sends: seq<Send>, x: Send)
    ensures Msgs(sends + [x]) == Msgs(sends) + [x.msg]
  {
  }

  lemma {:induction false} DeliveredIsSubsequence(sends: seq<Send>)
    ensures Subsequence(Msgs(Delivered(sends)), Msgs(sends))
    decreases |sends|
  {
    if sends != [] {
      var front, last := sends[..|sends| - 1], sends[|sends| - 1];
      DeliveredIsSubsequence(front);
      assert sends == front + [last];
      MsgsOneMore(front, last);
      DeliveredOneMore(front, last);
      SubsequenceOneMore(Msgs(Delivered(front)), Msgs(front), last.msg);
      if last.accepted {
        MsgsOneMore(Delivered(front), last);
      } else {
        assert Delivered(front) + [] == Delivered(front);
      }
    }
  }

  predicate AllAccepted(sends: seq<Send>) {
    forall i :: 0 <= i < |sends| ==> sends[i].accepted
  }

  lemma {:induction false} DeliveredAll(sends: seq<Send>)
    ensures |Delivered(sends)| <= |sends|
    ensures |Delivered(sends)| == |sends| <==> AllAccepted(sends)
    ensures AllAccepted(sends) ==> Delivered(sends) == sends
    decreases |sends|
  {
    if sends != [] {
      var front, last := sends[..|sends| - 1], sends[|sends| - 1];
      DeliveredAll(front);
      assert sends == front + [last];
      assert AllAccepted(sends) <==> AllAccepted(front) && last.accepted;
    }
  }

  /** The delivered sends are, one for one and in order, what was received and then what is buffered. */
  lemma {:induction false} DeliveredIsAccepted(sends: seq<Send>)
    ensures Msgs(Delivered(sends)) == AcceptedMsgs(sends)
    decreases |sends|
  {
    if sends != [] {
      DeliveredIsAccepted(sends[..|sends| - 1]);
    }
  }

  /** Picking out one publisher's sends and leaving out the dropped ones can be done in either order. */
  lemma {:induction false} FiltersCommute(log: seq<Publication>, sends: seq<Send>, p: PublisherId)
    ensures SentBy(log, Delivered(sends), p) == Delivered(SentBy(log, sends, p))
    decreases |sends|
  {
    if sends != [] {
      var front, last := sends[..|sends| - 1], sends[|sends| - 1];
      FiltersCommute(log, front, p);
      SentByOneMore(log, Delivered(front), last, p);
      DeliveredOneMore(SentBy(log, front, p), last);
      assert Delivered(front) + [] == Delivered(front);
      assert SentBy(log, front, p) + [] == SentBy(log, front, p);
      assert Delivered(SentBy(log, front, p)) + [] == Delivered(SentBy(log, front, p));
    }
  }

  lemma DeliveredOneMore(sends: seq<Send>, x: Send)
    ensures Delivered(sends + [x]) == Delivered(sends) + if x.accepted then [x] else []
  {
    assert (sends + [x])[..|sends|] == sends;
  }

  lemma {:induction false} SentByMembers(log: seq<Publication>, sends: seq<Send>, p: PublisherId, x: Send)
    ensures x in SentBy(log, sends, p) <==> x in sends && IsBy(log, x, p)
    decreases |sends|
  {
    if sends != [] {
      var front, last := sends[..|sends| - 1], sends[|sends| - 1];
      SentByMembers(log, front, p, x);
      assert sends == front + [last];
    }
  }

  // ----- the theorems -----

  /** No message of `p` found 64 outstanding. */
  predicate NoneDropped(b: Bus, k: Chan, p: PublisherId) {
    forall x :: x in k.sends && IsBy(b.published, x, p) ==> x.depth < CAPACITY
  }

  /** Of `p`'s messages, those the subscriber has received or has buffered. */
  function ReceivedFrom(b: Bus, k: Chan, p: PublisherId): seq<Message> {
    Msgs(SentBy(b.published, Delivered(k.sends), p))
  }

  /**
   * With any number of publishers at once, the messages of any one of them reach a subscriber in the
   * order it published them: a subsequence of its publications on the topic during the subscription,
   * and, with the one still on its way, all of them if and only if none of them found 64 outstanding.
   */
  lemma PublisherOrderKept(steps: seq<Step>, p: PublisherId, c: ChanId)
    requires c in Exec(INIT, steps).chans
    ensures var b := Exec(INIT, steps);
      var k := b.chans[c];
      && End(b, k) <= |b.published|
      && Msgs(Delivered(k.sends)) == k.received + k.queue
      && Subsequence(ReceivedFrom(b, k, p), StreamBy(b, k, p))
      && (ReceivedFrom(b, k, p) + Pending(b, p, c) == StreamBy(b, k, p) <==> NoneDropped(b, k, p))
  {
    Reachable(steps);
    RunInOrder(INIT, p, steps);
    var b := Exec(INIT, steps);
    assert InOrderAt(b, p, c) && ChanOk(b, c);
    DeliveredIsAccepted(b.chans[c].sends);
    StreamOfPublisher(b, p, c);
  }

  lemma StreamOfPublisher(b: Bus, p: PublisherId, c: ChanId)
    requires c in b.chans && InOrderAt(b, p, c) && HistoryOk(b, b.chans[c])
    ensures var k := b.chans[c];
      && Subsequence(ReceivedFrom(b, k, p), StreamBy(b, k, p))
      && (ReceivedFrom(b, k, p) + Pending(b, p, c) == StreamBy(b, k, p) <==> NoneDropped(b, k, p))
  {
    var k := b.chans[c];
    var own := SentBy(b.published, k.sends, p);
    FiltersCommute(b.published, k.sends, p);
    DeliveredIsSubsequence(own);
    SubsequenceOfLonger(Msgs(Delivered(own)), Msgs(own), Pending(b, p, c));
    StreamEqualsExactly(own, Pending(b, p, c), StreamBy(b, k, p));
    AcceptedMeansNoneDropped(b, k, p);
  }

  lemma SubsequenceOfLonger(xs: seq<Message>, ys: seq<Message>, more: seq<Message>)
    requires Subsequence(xs, ys) && |more| <= 1
    ensures Subsequence(xs, ys + more)
  {
    if more == [] {
      assert ys + more == ys;
    } else {
      SubsequenceOneMore(xs, ys, more[0]);
      assert more == [more[0]];
    }
  }

  lemma StreamEqualsExactly(own: seq<Send>, pending: seq<Message>, stream: seq<Message>)
    requires Msgs(own) + pending == stream
    ensures Msgs(Delivered(own)) + pending == stream <==> AllAccepted(own)
  {
    DeliveredAll(own);
    if Msgs(Delivered(own)) + pending == stream {
      assert |Msgs(Delivered(own))| == |Msgs(own)|;
    }
  }

  lemma AcceptedMeansNoneDropped(b: Bus, k: Chan, p: PublisherId)
    requires HistoryOk(b, k)
    ensures AllAccepted(SentBy(b.published, k.sends, p)) <==> NoneDropped(b, k, p)
  {
    var own := SentBy(b.published, k.sends, p);
    forall x: Send
      ensures x in own <==> x in k.sends && IsBy(b.published, x, p)
    {
      SentByMembers(b.published, k.sends, p, x);
    }
    assert AllAccepted(own) <==> forall x :: x in own ==> x.accepted;
    assert forall x :: x in k.sends ==> SendOk(b, x);
  }

  // ----- one publisher -----

  predicate AllBy(log: seq<Publication>, p: PublisherId) {
    forall i :: 0 <= i < |log| ==> log[i].publisher == p
  }

  lemma {:induction false} PublishedByOne(b: Bus, p: PublisherId, steps: seq<Step>)
    requires AllBy(b.published, p) && forall step :: step in steps && step.BeginPublish? ==> step.p == p
    ensures AllBy(Exec(b, steps).published, p)
    decreases |steps|
  {
    if steps != [] {
      assert steps[0] in steps;
      StepPublished(b, steps[0], p);
      PublishedByOne(Apply(b, steps[0]), p, steps[1..]);
    }
  }

  lemma StepPublished(b: Bus, step: Step, p: PublisherId)
    requires AllBy(b.published, p) && (step.BeginPublish? ==> step.p == p)
    ensures AllBy(Apply(b, step).published, p)
  {
  }

  lemma {:induction false} AllByOnTopic(log: seq<Publication>, lo: nat, hi: nat, topic: Topic, p: PublisherId)
    requires hi <= |log| && AllBy(log, p)
    ensures OnTopicBy(log, lo, hi, topic, p) == OnTopic(log, lo, hi, topic)
    decreases hi
  {
    if lo < hi {
      AllByOnTopic(log, lo, hi - 1, topic, p);
    }
  }

  lemma {:induction false} AllBySends(log: seq<Publication>, sends: seq<Send>, p: PublisherId)
    requires AllBy(log, p) && AllLogged(log, sends)
    ensures SentBy(log, sends, p) == sends
    decreases |sends|
  {
    if sends != [] {
      AllBySends(log, sends[..|sends| - 1], p);
    }
  }

  /**
   * When all publishing is done by publisher `p`, what a subscriber has received, followed by what is
   * buffered for it, is a subsequence of the messages published on its topic while it was subscribed;
   * together with the one message still on its way it is all of them if and only if no send found 64
   * messages outstanding.
   */
  lemma BoundedRefinesUnbounded(steps: seq<Step>, p: PublisherId, c: ChanId)
    requires forall step :: step in steps && step.BeginPublish? ==> step.p == p
    requires c in Exec(INIT, steps).chans
    ensures var b := Exec(INIT, steps);
      var k := b.chans[c];
      && End(b, k) <= |b.published|
      && Subsequence(k.received + k.queue, TopicStream(b, k))
      && (k.received + k.queue + Pending(b, p, c) == TopicStream(b, k) <==>
            forall x :: x in k.sends ==> x.depth < CAPACITY)
  {
    var b := Exec(INIT, steps);
    var k := b.chans[c];
    Reachable(steps);
    assert ChanOk(b, c);
    PublishedByOne(INIT, p, steps);
    PublisherOrderKept(steps, p, c);
    HistoryIsLogged(b, k);
    AllByOnTopic(b.published, k.since, End(b, k), k.topic, p);
    AllBySends(b.published, k.sends, p);
    FiltersCommute(b.published, k.sends, p);
    EverySendIsBy(b, k, p);
  }

  lemma EverySendIsBy(b: Bus, k: Chan, p: PublisherId)
    requires AllBy(b.published, p) && AllLogged(b.published, k.sends)
    ensures NoneDropped(b, k, p) <==> forall x :: x in k.sends ==> x.depth < CAPACITY
  {
    assert forall x :: x in k.sends ==> IsBy(b.published, x, p);
  }
}
