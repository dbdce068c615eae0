/**
 * internal/subscribers/subscribers.go: a starter subscribes handlers with `On`, remembers the unsubs,
 * and its `stop` calls each of them once.
 */
module Subscribers {
  import opened Common
  import opened PubSub
  import opened PubSubProofs
  import opened InMemoryPubSub

  function Subscribes(topics: seq<Topic>, chs: seq<ChanId>): seq<Step>
    requires |topics| == |chs|
  {
    seq(|chs|, i requires 0 <= i < |chs| => Step.Subscribe(topics[i], chs[i]))
  }

  function Unsubs(chs: seq<ChanId>): seq<Step> {
    seq(|chs|, i requires 0 <= i < |chs| => Step.Unsub(chs[i]))
  }

  /** A bus nobody is publishing on at this moment, and that has not panicked. */
  predicate Idle(b: Bus) {
    SubsOk(b) && b.crash == NoCrash && b.readers == map[]
  }

  predicate NotYetUnsubbed(b: Bus, chs: seq<ChanId>) {
    forall c :: c in chs ==> c in b.chans && c !in b.unsubbed
  }

  /** The channels in `which` closed if they still were open, every other channel untouched. */
  function CloseThese(chans: map<ChanId, Chan>, which: set<ChanId>, now: nat): map<ChanId, Chan> {
    map c | c in chans :: if c in which && chans[c].open then ClosedChan(chans[c], now) else chans[c]
  }

  function Elements(chs: seq<ChanId>): set<ChanId> {
    set c | c in chs
  }

  /** Exactly `which` has left the subscriptions, topic by topic. */
  ghost predicate SubsWithout(subs: map<Topic, set<ChanId>>, subs': map<Topic, set<ChanId>>, which: set<ChanId>) {
    forall t :: Subscribers(subs', t) == Subscribers(subs, t) - which
  }

  /** What `stop` does to the bus: its channels are unsubscribed and closed, and nothing else changes. */
  ghost predicate Stopped(b: Bus, b': Bus, which: set<ChanId>) {
    && SubsWithout(b.subs, b'.subs, which)
    && b'.chans == CloseThese(b.chans, which, |b.published|)
    && b'.closed == b.closed && b'.published == b.published
  }

  lemma UnsubEffect(b: Bus, c: ChanId)
    requires SubsOk(b) && b.crash == NoCrash && c in b.chans && c !in b.unsubbed
    ensures var b' := Unsubscribed(b, c);
      b'.crash == NoCrash && b'.readers == b.readers && b'.unsubbed == b.unsubbed + {c} && Stopped(b, b', {c})
  {
    UnsubCrash(b, c);
    UnsubSubs(b, c);
    UnsubChans(b, c);
  }

  lemma UnsubSubs(b: Bus, c: ChanId)
    requires SubsOk(b) && c in b.chans
    ensures SubsWithout(b.subs, Unsubscribed(b, c).subs, {c})
  {
    forall t
      ensures c in Subscribers(b.subs, t) ==> t == b.chans[c].topic && b.chans[c].open
    {
      assert t in b.subs ==> forall d :: d in b.subs[t] ==> b.chans[d].topic == t;
    }
  }

  lemma UnsubChans(b: Bus, c: ChanId)
    requires SubsOk(b) && c in b.chans
    ensures Unsubscribed(b, c).chans == CloseThese(b.chans, {c}, |b.published|)
  {
  }

  lemma UnsubStep(b: Bus, c: ChanId)
    requires Idle(b) && c in b.chans && c !in b.unsubbed
    ensures var b' := Unsubscribed(b, c);
      Apply(b, Step.Unsub(c)) == b' && Idle(b') && Stopped(b, b', {c}) && b'.unsubbed == b.unsubbed + {c}
  {
    UnsubEffect(b, c);
    UnsubKeepsSubs(b, c);
  }

  lemma StoppedThenStopped(b: Bus, b1: Bus, b2: Bus, x: set<ChanId>, y: set<ChanId>)
    requires Stopped(b, b1, x) && Stopped(b1, b2, y)
    ensures Stopped(b, b2, x + y)
  {
    forall t
      ensures Subscribers(b2.subs, t) == Subscribers(b.subs, t) - (x + y)
    {
      assert Subscribers(b1.subs, t) == Subscribers(b.subs, t) - x;
    }
  }

  lemma NextUnsub(b: Bus, chs: seq<ChanId>)
    requires Idle(b) && chs != [] && Distinct(chs) && NotYetUnsubbed(b, chs)
    ensures chs[0] in b.chans && chs[0] !in b.unsubbed && Idle(Unsubscribed(b, chs[0]))
    ensures Distinct(chs[1..]) && NotYetUnsubbed(Unsubscribed(b, chs[0]), chs[1..])
    ensures Exec(Unsubscribed(b, chs[0]), Unsubs(chs[1..])) == Exec(b, Unsubs(chs))
  {
    RestNotUnsubbed(b, chs);
    assert chs[0] in chs;
    UnsubStep(b, chs[0]);
    assert Unsubs(chs)[1..] == Unsubs(chs[1..]);
  }

  lemma HeadAndTail(chs: seq<ChanId>)
    requires chs != []
    ensures Elements(chs) == {chs[0]} + Elements(chs[1..])
  {
    assert chs == [chs[0]] + chs[1..];
  }

  lemma {:induction false} StopRuns(b: Bus, chs: seq<ChanId>)
    requires Idle(b) && Distinct(chs) && NotYetUnsubbed(b, chs)
    ensures Idle(Exec(b, Unsubs(chs))) && Stopped(b, Exec(b, Unsubs(chs)), Elements(chs))
    decreases |chs|
  {
    if chs == [] {
      StoppedNothing(b);
    } else {
      var b1 := Unsubscribed(b, chs[0]);
      NextUnsub(b, chs);
      StopRuns(b1, chs[1..]);
      FirstThenRest(b, chs, Exec(b, Unsubs(chs)));
    }
  }

  lemma StoppedNothing(b: Bus)
    ensures Stopped(b, b, {})
  {
    assert CloseThese(b.chans, {}, |b.published|) == b.chans;
  }

  lemma FirstThenRest(b: Bus, chs: seq<ChanId>, b': Bus)
    requires Idle(b) && chs != [] && chs[0] in b.chans && chs[0] !in b.unsubbed
    requires Stopped(Unsubscribed(b, chs[0]), b', Elements(chs[1..]))
    ensures Stopped(b, b', Elements(chs))
  {
    UnsubEffect(b, chs[0]);
    StoppedThenStopped(b, Unsubscribed(b, chs[0]), b', {chs[0]}, Elements(chs[1..]));
    HeadAndTail(chs);
  }

  /**
   * `stop`, called at any moment at which none of its unsubs has been called yet, never panics; it
   * unsubscribes exactly the starter's own channels and closes exactly those still open. After Close
   * there are none, so it is a no-op on subscriptions and channels.
   */
  lemma StopIsExact(b: Bus, chs: seq<ChanId>)
    requires Idle(b) && Distinct(chs) && NotYetUnsubbed(b, chs)
    ensures var b' := Exec(b, Unsubs(chs));
      && Idle(b') && Stopped(b, b', Elements(chs))
      && (b.closed ==> b'.subs == b.subs && b'.chans == b.chans)
  {
    StopRuns(b, chs);
    if b.closed {
      ClosedBusHasNothingToStop(b, Exec(b, Unsubs(chs)), Elements(chs));
    }
  }

  lemma RestNotUnsubbed(b: Bus, chs: seq<ChanId>)
    requires chs != [] && Distinct(chs) && NotYetUnsubbed(b, chs)
    ensures chs[0] in b.chans
    ensures Distinct(chs[1..]) && NotYetUnsubbed(Unsubscribed(b, chs[0]), chs[1..])
  {
    assert chs[0] in chs;
    var b1 := Unsubscribed(b, chs[0]);
    forall d | d in chs[1..]
      ensures d in b1.chans && d !in b1.unsubbed
    {
      assert d in chs && d != chs[0];
    }
  }

  lemma ClosedBusHasNothingToStop(b: Bus, b': Bus, which: set<ChanId>)
    requires SubsOk(b) && SubsOk(b') && b.closed && Stopped(b, b', which)
    ensures b'.subs == b.subs && b'.chans == b.chans
  {
    assert forall c :: c in b.chans ==> !b.chans[c].open by {
      assert forall c :: c in b.chans ==> Subscribers(b.subs, b.chans[c].topic) == {};
    }
  }

  /** Maps without empty sets are determined by the subscribers of each topic. */
  lemma SubsEqual(subs: map<Topic, set<ChanId>>, subs': map<Topic, set<ChanId>>)
    requires forall t :: t in subs ==> subs[t] != {}
    requires forall t :: t in subs' ==> subs'[t] != {}
    requires forall t :: Subscribers(subs, t) == Subscribers(subs', t)
    ensures subs == subs'
  {
    forall t
      ensures t in subs <==> t in subs'
    {
      assert Subscribers(subs, t) == Subscribers(subs', t);
    }
    forall t | t in subs
      ensures subs[t] == subs'[t]
    {
      assert Subscribers(subs, t) == Subscribers(subs', t);
    }
  }

  /** What registering channels `chs` does: they join the subscriptions, open and empty; the others stay. */
  ghost predicate Registered(b: Bus, b': Bus, which: set<ChanId>) {
    && (forall t :: Subscribers(b.subs, t) == Subscribers(b'.subs, t) - which)
    && b'.chans.Keys == b.chans.Keys + which
    && (forall c :: c in b.chans ==> b'.chans[c] == b.chans[c])
    && (forall c :: c in which ==> c !in b.chans && b'.chans[c].open)
    && b'.closed == b.closed && b'.unsubbed == b.unsubbed
  }

  lemma SubscribeEffect(b: Bus, topic: Topic, c: ChanId)
    requires SubsOk(b) && c !in b.chans
    ensures Registered(b, Subscribed(b, topic, c), {c})
  {
    forall t
      ensures c !in Subscribers(b.subs, t)
    {
      assert t in b.subs ==> forall d :: d in b.subs[t] ==> d in b.chans;
    }
  }

  lemma RegisteredThenRegistered(b: Bus, b1: Bus, b2: Bus, x: set<ChanId>, y: set<ChanId>)
    requires Registered(b, b1, x) && Registered(b1, b2, y)
    ensures Registered(b, b2, x + y)
  {
    forall t
      ensures Subscribers(b.subs, t) == Subscribers(b2.subs, t) - (x + y)
    {
      assert Subscribers(b1.subs, t) == Subscribers(b2.subs, t) - y;
    }
  }

  lemma {:induction false} OnRegisters(b: Bus, topics: seq<Topic>, chs: seq<ChanId>)
    requires Idle(b) && !b.closed && |topics| == |chs|
    requires Distinct(chs) && forall c :: c in chs ==> c !in b.chans
    ensures var b' := Exec(b, Subscribes(topics, chs)); Idle(b') && Registered(b, b', Elements(chs))
    decreases |chs|
  {
    if chs != [] {
      var b1 := Subscribed(b, topics[0], chs[0]);
      NextSubscribe(b, topics, chs);
      OnRegisters(b1, topics[1..], chs[1..]);
      RegisteredThenRegistered(b, b1, Exec(b, Subscribes(topics, chs)), {chs[0]}, Elements(chs[1..]));
      HeadAndTail(chs);
    }
  }

  lemma NextSubscribe(b: Bus, topics: seq<Topic>, chs: seq<ChanId>)
    requires Idle(b) && !b.closed && |topics| == |chs| && chs != []
    requires Distinct(chs) && forall c :: c in chs ==> c !in b.chans
    ensures var b1 := Subscribed(b, topics[0], chs[0]);
      && Idle(b1) && !b1.closed && Registered(b, b1, {chs[0]})
      && Distinct(chs[1..]) && (forall c :: c in chs[1..] ==> c !in b1.chans)
      && Exec(b1, Subscribes(topics[1..], chs[1..])) == Exec(b, Subscribes(topics, chs))
  {
    assert chs[0] in chs;
    SubscribeKeepsSubs(b, topics[0], chs[0]);
    SubscribeEffect(b, topics[0], chs[0]);
    assert Subscribes(topics, chs)[1..] == Subscribes(topics[1..], chs[1..]);
    assert forall d :: d in chs[1..] ==> d in chs && d != chs[0];
  }

  /**
   * Subscribing to any list of topics, repeats included, and stopping once restores the subscription
   * map, closes every channel created and touches no other.
   */
  lemma StopUndoesOn(b: Bus, topics: seq<Topic>, chs: seq<ChanId>)
    requires Idle(b) && !b.closed && |topics| == |chs|
    requires Distinct(chs) && forall c :: c in chs ==> c !in b.chans
    ensures var b' := Exec(Exec(b, Subscribes(topics, chs)), Unsubs(chs));
      && b'.crash == NoCrash && b'.subs == b.subs
      && b'.chans.Keys == b.chans.Keys + Elements(chs)
      && (forall c :: c in b.chans ==> b'.chans[c] == b.chans[c])
      && (forall c :: c in chs ==> !b'.chans[c].open)
  {
    var b1 := Exec(b, Subscribes(topics, chs));
    OnRegisters(b, topics, chs);
    FreshNotUnsubbed(b, b1, chs);
    StopIsExact(b1, chs);
    var b' := Exec(b1, Unsubs(chs));
    StopRestores(b, b1, b', Elements(chs));
    assert forall c :: c in chs ==> c in Elements(chs);
  }

  lemma FreshNotUnsubbed(b: Bus, b1: Bus, chs: seq<ChanId>)
    requires SubsOk(b) && Registered(b, b1, Elements(chs))
    ensures NotYetUnsubbed(b1, chs)
  {
    assert forall c :: c in chs ==> c in Elements(chs);
  }

  lemma StopRestores(b: Bus, b1: Bus, b': Bus, which: set<ChanId>)
    requires SubsOk(b) && SubsOk(b') && Registered(b, b1, which) && Stopped(b1, b', which)
    ensures b'.subs == b.subs && b'.chans.Keys == b.chans.Keys + which
    ensures forall c :: c in b.chans ==> b'.chans[c] == b.chans[c]
    ensures forall c :: c in which ==> !b'.chans[c].open
  {
    SubsEqual(b'.subs, b.subs);
  }

  /** No unsub of `chs` is called, so none of them has been called yet. */
  lemma {:induction false} MeanwhileNotUnsubbed(b: Bus, chs: seq<ChanId>, meanwhile: seq<Step>)
    requires Inv(b) && NotYetUnsubbed(b, chs)
    requires forall c :: c in chs ==> Step.Unsub(c) !in meanwhile
    ensures NotYetUnsubbed(Exec(b, meanwhile), chs) && Inv(Exec(b, meanwhile))
    decreases |meanwhile|
  {
    if meanwhile != [] {
      StepKeepsInv(b, meanwhile[0]);
      StepUnsubFrame(b, meanwhile[0]);
      assert meanwhile[0] in meanwhile;
      MeanwhileNotUnsubbed(Apply(b, meanwhile[0]), chs, meanwhile[1..]);
    }
  }

  /**
   * Whatever publishers, other subscribers, their unsubs and Close do in between, `stop` takes out and
   * closes exactly what `On` registered and is still there; after a Close it is a safe no-op.
   */
  lemma StopAfterAnything(b: Bus, topics: seq<Topic>, chs: seq<ChanId>, meanwhile: seq<Step>)
    requires Inv(b) && Idle(b) && !b.closed && |topics| == |chs|
    requires Distinct(chs) && forall c :: c in chs ==> c !in b.chans
    requires forall c :: c in chs ==> Step.Unsub(c) !in meanwhile
    requires Idle(Exec(Exec(b, Subscribes(topics, chs)), meanwhile))
    ensures var before := Exec(Exec(b, Subscribes(topics, chs)), meanwhile);
      var after := Exec(before, Unsubs(chs));
      && after.crash == NoCrash && Stopped(before, after, Elements(chs))
      && (before.closed ==> after.subs == before.subs && after.chans == before.chans)
  {
    var b1 := Exec(b, Subscribes(topics, chs));
    OnRegisters(b, topics, chs);
    FreshNotUnsubbed(b, b1, chs);
    RunKeepsInv(b, Subscribes(topics, chs));
    MeanwhileNotUnsubbed(b1, chs, meanwhile);
    StopIsExact(Exec(b1, meanwhile), chs);
  }

  /** The bus and the starter's unsubs, before or after a call of `On`. */
  datatype Stage = Stage(bus: Bus, stops: seq<ChanId>)

  /** `On`: one more unsub is remembered, of a fresh channel on the topic; on a closed bus nothing changes. */
  ghost predicate OnOnce(topic: Topic, r: Stage, r': Stage) {
    if r.bus.closed then r' == r
    else
      && |r'.stops| == |r.stops| + 1 && r'.stops[..|r.stops|] == r.stops
      && r'.stops[|r.stops|] !in r.bus.chans && r'.bus == Subscribed(r.bus, topic, r'.stops[|r.stops|])
  }

  class Starter {
    const ps: PubSubBus
    var stops: seq<ChanId>

    constructor (ps: PubSubBus)
      ensures this.ps == ps && stops == []
    {
      this.ps := ps;
      stops := [];
    }

    /** Subscribes a handler; on a closed bus it only logs. */
    method On(topic: Topic)
      requires ps.Valid()
      modifies this, ps
      ensures ps.Valid() && OnOnce(topic, old(Stage(ps.View(), stops)), Stage(ps.View(), stops))
    {
      var ch := ps.Subscribe(topic);
      if ch.None? {
        return;
      }
      stops := stops + [ch.value];
    }

    /** The function Start returns: call every unsub once, in the order of subscription. */
    method Stop()
      requires ps.Valid() && Idle(ps.View()) && Distinct(stops) && NotYetUnsubbed(ps.View(), stops)
      modifies ps
      ensures ps.Valid() && ps.View() == Exec(old(ps.View()), Unsubs(stops))
      ensures Idle(ps.View()) && Stopped(old(ps.View()), ps.View(), Elements(stops))
    {
      ghost var before := ps.View();
      StopIsExact(before, stops);
      var i := 0;
      while i < |stops|
        invariant 0 <= i <= |stops| && ps.Valid()
        invariant Idle(ps.View()) && Distinct(stops[i..]) && NotYetUnsubbed(ps.View(), stops[i..])
        invariant Exec(ps.View(), Unsubs(stops[i..])) == Exec(before, Unsubs(stops))
      {
        ghost var now := ps.View();
        var f := stops[i];
        assert f in stops[i..];
        NextUnsub(now, stops[i..]);
        var panics := ps.Unsub(f);
        assert !panics;
        assert stops[i..][1..] == stops[i + 1..];
        i := i + 1;
      }
    }
  }

  /** Each of `topics` has been subscribed once since `before`, by the channel at its place in `stops`. */
  ghost predicate Wired(before: Bus, now: Bus, topics: seq<Topic>, stops: seq<ChanId>) {
    && Idle(now) && Distinct(stops) && |stops| == |topics|
    && Registered(before, now, Elements(stops))
    && forall k :: 0 <= k < |stops| ==> stops[k] in now.chans && now.chans[stops[k]].topic == topics[k]
  }

  lemma OneMore(before: Bus, was: Bus, topics: seq<Topic>, topic: Topic, stops: seq<ChanId>, ch: ChanId)
    requires Wired(before, was, topics, stops) && !was.closed && ch !in was.chans
    ensures Wired(before, Subscribed(was, topic, ch), topics + [topic], stops + [ch])
  {
    OneMoreRegistered(before, was, topic, stops, ch);
    OneMoreDistinct(was, stops, ch);
  }

  lemma OneMoreRegistered(before: Bus, was: Bus, topic: Topic, stops: seq<ChanId>, ch: ChanId)
    requires Idle(was) && !was.closed && ch !in was.chans && Registered(before, was, Elements(stops))
    ensures Idle(Subscribed(was, topic, ch)) && Registered(before, Subscribed(was, topic, ch), Elements(stops + [ch]))
  {
    SubscribeKeepsSubs(was, topic, ch);
    SubscribeEffect(was, topic, ch);
    RegisteredThenRegistered(before, was, Subscribed(was, topic, ch), Elements(stops), {ch});
    assert Elements(stops + [ch]) == Elements(stops) + {ch};
  }

  lemma OneMoreDistinct(was: Bus, stops: seq<ChanId>, ch: ChanId)
    requires Distinct(stops) && ch !in was.chans && forall k :: 0 <= k < |stops| ==> stops[k] in was.chans
    ensures Distinct(stops + [ch])
  {
  }

  /** How far Start has come: on a closed bus, nowhere. */
  ghost predicate StartedOn(before: Bus, now: Bus, topics: seq<Topic>, stops: seq<ChanId>) {
    if before.closed then now == before && stops == []
    else !now.closed && Wired(before, now, topics, stops)
  }

  lemma NothingStarted(b: Bus)
    requires Idle(b)
    ensures StartedOn(b, b, [], [])
  {
  }

  lemma LastAdded(xs: seq<ChanId>, ys: seq<ChanId>)
    requires |ys| == |xs| + 1 && ys[..|xs|] == xs
    ensures ys == xs + [ys[|xs|]]
  {
  }

  lemma StartedOneMore(before: Bus, done: seq<Topic>, topic: Topic, r: Stage, r': Stage)
    requires StartedOn(before, r.bus, done, r.stops) && OnOnce(topic, r, r')
    ensures StartedOn(before, r'.bus, done + [topic], r'.stops)
  {
    if !before.closed {
      LastAdded(r.stops, r'.stops);
      OneMore(before, r.bus, done, topic, r.stops, r'.stops[|r.stops|]);
    }
  }

  ghost predicate OnEach(topics: seq<Topic>, stages: seq<Stage>) {
    && |stages| == |topics| + 1
    && forall i :: 0 <= i < |topics| ==> OnOnce(topics[i], stages[i], stages[i + 1])
  }

  lemma {:induction false} StagesStarted(stages: seq<Stage>, topics: seq<Topic>, n: nat)
    requires OnEach(topics, stages) && Idle(stages[0].bus) && stages[0].stops == [] && n <= |topics|
    ensures StartedOn(stages[0].bus, stages[n].bus, topics[..n], stages[n].stops)
    decreases n
  {
    if n == 0 {
      NothingStarted(stages[0].bus);
    } else {
      assert topics[..n] == topics[..n - 1] + [topics[n - 1]];
      StagesStarted(stages, topics, n - 1);
      assert OnOnce(topics[n - 1], stages[n - 1], stages[n]);
      StartedOneMore(stages[0].bus, topics[..n - 1], topics[n - 1], stages[n - 1], stages[n]);
    }
  }

  const PREDEFINED: seq<Topic> :=
    ["ping", "tessa/things/certificates/notify", "$aws/things/tunnels/notify", "tessa/things/tunnels/notify",
     "tessa/things/commands/notify"]

  predicate OpenOn(b: Bus, c: ChanId, topic: Topic) {
    c in b.chans && b.chans[c].open && b.chans[c].topic == topic
  }

  /** Exactly one of the channels is on the topic, and it is open. */
  ghost predicate SubscribedOnce(b: Bus, stops: seq<ChanId>, topic: Topic) {
    exists k :: 0 <= k < |stops| && OpenOn(b, stops[k], topic)
                && forall j :: 0 <= j < |stops| && j != k ==> !OpenOn(b, stops[j], topic)
  }

  ghost predicate OpenInOrder(b: Bus, topics: seq<Topic>, stops: seq<ChanId>) {
    |stops| == |topics| && forall j :: 0 <= j < |stops| ==> OpenOn(b, stops[j], topics[j])
  }

  lemma WiredAreOpen(before: Bus, now: Bus, topics: seq<Topic>, stops: seq<ChanId>)
    requires Wired(before, now, topics, stops)
    ensures OpenInOrder(now, topics, stops)
  {
    assert forall j :: 0 <= j < |stops| ==> stops[j] in Elements(stops);
  }

  lemma OpenOnce(b: Bus, topics: seq<Topic>, stops: seq<ChanId>, k: nat)
    requires OpenInOrder(b, topics, stops) && Distinct(topics) && k < |topics|
    ensures SubscribedOnce(b, stops, topics[k])
  {
    assert OpenOn(b, stops[k], topics[k]);
    forall j | 0 <= j < |stops| && j != k
      ensures !OpenOn(b, stops[j], topics[k])
    {
      assert OpenOn(b, stops[j], topics[j]) && topics[j] != topics[k];
    }
  }

  /** The starter has one open channel for each of the five topics, and no more channels. */
  ghost predicate HasPredefined(b: Bus, stops: seq<ChanId>) {
    && |stops| == 5
    && SubscribedOnce(b, stops, "ping")
    && SubscribedOnce(b, stops, "tessa/things/certificates/notify")
    && SubscribedOnce(b, stops, "$aws/things/tunnels/notify")
    && SubscribedOnce(b, stops, "tessa/things/tunnels/notify")
    && SubscribedOnce(b, stops, "tessa/things/commands/notify")
  }

  lemma PredefinedAreWired(before: Bus, now: Bus, stops: seq<ChanId>)
    requires Wired(before, now, PREDEFINED, stops)
    ensures HasPredefined(now, stops)
  {
    WiredAreOpen(before, now, PREDEFINED, stops);
    EachPredefinedOnce(now, stops);
  }

  lemma EachPredefinedOnce(b: Bus, stops: seq<ChanId>)
    requires OpenInOrder(b, PREDEFINED, stops)
    ensures HasPredefined(b, stops)
  {
    PredefinedDistinct();
    OpenOnce(b, PREDEFINED, stops, 0);
    OpenOnce(b, PREDEFINED, stops, 1);
    OpenOnce(b, PREDEFINED, stops, 2);
    OpenOnce(b, PREDEFINED, stops, 3);
    OpenOnce(b, PREDEFINED, stops, 4);
  }

  lemma PredefinedDistinct()
    ensures Distinct(PREDEFINED)
  {
    assert |PREDEFINED[0]| == 4 && |PREDEFINED[1]| == 32 && |PREDEFINED[2]| == 26 && |PREDEFINED[3]| == 27
           && |PREDEFINED[4]| == 28;
  }

  /**
   * registerPing, registerCredentials, registerTunnels (two topics) and registerCommands: wires all
   * predefined subscribers. The starter it returns is the one whose `Stop` undoes them.
   */
  method Start(ps: PubSubBus) returns (st: Starter)
    requires ps.Valid() && Idle(ps.View())
    modifies ps
    ensures fresh(st) && st.ps == ps && ps.Valid()
    ensures StartedOn(old(ps.View()), ps.View(), PREDEFINED, st.stops)
    ensures !old(ps.closed) ==> HasPredefined(ps.View(), st.stops)
  {
    st := new Starter(ps);
    ghost var r0 := Stage(ps.View(), st.stops);
    st.On("ping");
    ghost var r1 := Stage(ps.View(), st.stops);
    st.On("tessa/things/certificates/notify");
    ghost var r2 := Stage(ps.View(), st.stops);
    st.On("$aws/things/tunnels/notify");
    ghost var r3 := Stage(ps.View(), st.stops);
    st.On("tessa/things/tunnels/notify");
    ghost var r4 := Stage(ps.View(), st.stops);
    st.On("tessa/things/commands/notify");
    AllStarted(r0, r1, r2, r3, r4, Stage(ps.View(), st.stops));
  }

  lemma AllStarted(r0: Stage, r1: Stage, r2: Stage, r3: Stage, r4: Stage, r5: Stage)
    requires Idle(r0.bus) && r0.stops == []
    requires OnOnce(PREDEFINED[0], r0, r1) && OnOnce(PREDEFINED[1], r1, r2) && OnOnce(PREDEFINED[2], r2, r3)
    requires OnOnce(PREDEFINED[3], r3, r4) && OnOnce(PREDEFINED[4], r4, r5)
    ensures StartedOn(r0.bus, r5.bus, PREDEFINED, r5.stops)
    ensures !r0.bus.closed ==> HasPredefined(r5.bus, r5.stops)
  {
    var stages := [r0, r1, r2, r3, r4, r5];
    StagesStarted(stages, PREDEFINED, 5);
    assert PREDEFINED[..5] == PREDEFINED;
    if !r0.bus.closed {
      PredefinedAreWired(r0.bus, r5.bus, r5.stops);
    }
  }

  /** The whole of Start and of the function it returns: the subscriptions are as they were before. */
  method StartThenStop(ps: PubSubBus)
    requires ps.Valid() && Idle(ps.View())
    modifies ps
    ensures ps.subs == old(ps.subs)
    ensures forall c :: c in old(ps.chans) ==> c in ps.chans && ps.chans[c] == old(ps.chans)[c]
    ensures forall c :: c in ps.chans && c !in old(ps.chans) ==> !ps.chans[c].open
    ensures old(ps.closed) ==> ps.View() == old(ps.View())
  {
    ghost var before := ps.View();
    var st := Start(ps);
    ghost var started := ps.View();
    CanStop(before, started, PREDEFINED, st.stops);
    st.Stop();
    StartAndStopRestore(before, started, ps.View(), PREDEFINED, st.stops);
  }

  lemma CanStop(before: Bus, started: Bus, topics: seq<Topic>, stops: seq<ChanId>)
    requires Idle(before) && StartedOn(before, started, topics, stops)
    ensures Idle(started) && Distinct(stops) && NotYetUnsubbed(started, stops)
  {
    if !before.closed {
      FreshNotUnsubbed(before, started, stops);
    }
  }

  lemma StartAndStopRestore(before: Bus, started: Bus, after: Bus, topics: seq<Topic>, stops: seq<ChanId>)
    requires Idle(before) && StartedOn(before, started, topics, stops)
    requires Idle(after) && Stopped(started, after, Elements(stops)) && after == Exec(started, Unsubs(stops))
    ensures after.subs == before.subs
    ensures forall c :: c in before.chans ==> c in after.chans && after.chans[c] == before.chans[c]
    ensures forall c :: c in after.chans && c !in before.chans ==> !after.chans[c].open
    ensures before.closed ==> after == before
  {
    if !before.closed {
      StopRestores(before, started, after, Elements(stops));
    }
  }
}
