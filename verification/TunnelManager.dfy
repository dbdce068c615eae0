/**
 * internal/tunnel/manager.go: the store of proxies behind the SSH tunnels, and the supervisor that
 * starts the tunnel client with the first proxy, reloads it on every change and stops it with the last.
 */
module TunnelManager {
  import opened Common
  import opened Text

  // ----- the store's keys -----

  /** `net.JoinHostPort`: a host with a colon in it is put in brackets. */
  function JoinHostPort(host: string, port: string): string {
    if ':' in host then "[" + host + "]:" + port else host + ":" + port
  }

  function Key(ip: string, port: int): string {
    JoinHostPort(ip, DecimalInt(port))
  }

  /** The position of the last colon, or -1. */
  function LastColon(s: string): int {
    if s == [] then -1 else if s[|s| - 1] == ':' then |s| - 1 else LastColon(s[..|s| - 1])
  }

  lemma {:induction false} LastColonOf(front: string, port: string)
    requires ':' !in port
    ensures LastColon(front + ":" + port) == |front|
    decreases |port|
  {
    var s := front + ":" + port;
    if port != [] {
      var last := port[|port| - 1];
      assert last in port && s[|s| - 1] == last;
      assert s[..|s| - 1] == front + ":" + port[..|port| - 1];
      LastColonOf(front, port[..|port| - 1]);
    }
  }

  lemma DecimalIntNoColon(n: int)
    ensures ':' !in DecimalInt(n)
  {
    var m := if n < 0 then -n else n;
    NumeralFree(Decimal(m), ':');
  }

  /** What stands before the last colon of a key. */
  function Bracketed(host: string): string {
    if ':' in host then "[" + host + "]" else host
  }

  lemma BracketedInjective(h: string, h': string)
    requires Bracketed(h) == Bracketed(h')
    ensures h == h'
  {
    assert ':' in h ==> "[" + h + "]" == Bracketed(h) && h == Bracketed(h)[1..|h| + 1];
    assert ':' in h' ==> h' == Bracketed(h')[1..|h'| + 1];
    assert ':' in h <==> ':' in Bracketed(h);
    assert ':' in h' <==> ':' in Bracketed(h');
  }

  /** The keys as they are written, for an IPv4 and an IPv6 host. */
  lemma KeyFormat()
    ensures Key("10.0.0.7", 22) == "10.0.0.7:22" && Key("::1", 2222) == "[::1]:2222"
  {
    assert Decimal(2) == "2" && Decimal(22) == Decimal(2) + "2";
    assert Decimal(222) == Decimal(22) + "2" && Decimal(2222) == Decimal(222) + "2";
  }

  /** Two proxies share a key only if they have the same host and the same port, colons in hosts included. */
  lemma KeyInjective(ip: string, port: int, ip': string, port': int)
    requires Key(ip, port) == Key(ip', port')
    ensures ip == ip' && port == port'
  {
    var k := Key(ip, port);
    DecimalIntNoColon(port);
    DecimalIntNoColon(port');
    assert k == Bracketed(ip) + ":" + DecimalInt(port);
    assert k == Bracketed(ip') + ":" + DecimalInt(port');
    LastColonOf(Bracketed(ip), DecimalInt(port));
    LastColonOf(Bracketed(ip'), DecimalInt(port'));
    var i := LastColon(k);
    assert Bracketed(ip) == k[..i] == Bracketed(ip');
    assert DecimalInt(port) == k[i + 1..] == DecimalInt(port');
    BracketedInjective(ip, ip');
    DecimalIntInjective(port, port');
  }

  // ----- the state -----

  type RunId = nat

  datatype ProxyCfg = ProxyCfg(name: string, localIP: string, localPort: int)

  type Store = map<string, ProxyCfg>

  /**
   * `cancel` is the run whose context `m.cancel` cancels; `live` are the runs whose context is not
   * cancelled; `pushed` is the list last accepted by the tunnel client.
   */
  datatype Tunnel = Tunnel(device: string, cfgs: Store, cancel: Option<RunId>, live: set<RunId>, nextRun: RunId,
                           pushed: seq<ProxyCfg>)

  /** What happens around one call of `update`: the order Go ranges over the store in, whether the push is accepted,
      and whether a client it starts fails before `m.cancel` is set. */
  datatype Env = Env(order: seq<string>, pushOk: bool, failsEarly: bool)

  datatype Event =
    | ProxySSH(ip: string, port: int, env: Env)
    | UnProxy(ip: string, port: int, env: Env)
    | Stop
    | RunFails(run: RunId)

  function Init(device: string): Tunnel {
    Tunnel(device, map[], None, {}, 0, [])
  }

  /** The values of the store in the order of visit. */
  function Listing(cfgs: Store, order: seq<string>): seq<ProxyCfg> {
    if order == [] then []
    else if order[0] in cfgs then [cfgs[order[0]]] + Listing(cfgs, order[1..])
    else Listing(cfgs, order[1..])
  }

  function Reloaded(t: Tunnel, env: Env): Tunnel {
    if env.pushOk then t.(pushed := Listing(t.cfgs, env.order)) else t
  }

  function Stopped(t: Tunnel): Tunnel {
    if t.cancel.None? then t else t.(cancel := None, live := t.live - {t.cancel.value})
  }

  function Started(t: Tunnel, env: Env): Tunnel {
    t.(cancel := Some(t.nextRun), nextRun := t.nextRun + 1,
       live := if env.failsEarly then t.live else t.live + {t.nextRun})
  }

  function Updated(t: Tunnel, env: Env): Tunnel {
    if t.cancel.None? then if |t.cfgs| > 0 then Reloaded(Started(t, env), env) else t
    else if |t.cfgs| == 0 then Stopped(t)
    else Reloaded(t, env)
  }

  function Apply(t: Tunnel, e: Event): Tunnel {
    match e
    case ProxySSH(ip, port, env) => Updated(t.(cfgs := t.cfgs[Key(ip, port) := ProxyCfg(t.device, ip, port)]), env)
    case UnProxy(ip, port, env) => Updated(t.(cfgs := t.cfgs - {Key(ip, port)}), env)
    case Stop => Stopped(t)
    case RunFails(r) => t.(cancel := None, live := t.live - {r})
  }

  // ----- the entries are the pairs proxied last -----

  /** The last ProxySSH or UnProxy of the pair in `events` is a ProxySSH. */
  predicate LastProxied(events: seq<Event>, ip: string, port: int) {
    if events == [] then false
    else
      match events[|events| - 1]
      case ProxySSH(ip', port', _) => (ip' == ip && port' == port) || LastProxied(events[..|events| - 1], ip, port)
      case UnProxy(ip', port', _) => !(ip' == ip && port' == port) && LastProxied(events[..|events| - 1], ip, port)
      case _ => LastProxied(events[..|events| - 1], ip, port)
  }

  function Exec(t: Tunnel, events: seq<Event>): Tunnel {
    Run(Apply, t, events)
  }

  lemma ExecLast(t: Tunnel, events: seq<Event>)
    requires events != []
    ensures Exec(t, events) == Apply(Exec(t, events[..|events| - 1]), events[|events| - 1])
  {
    assert events[..|events|] == events;
    AtNext(Apply, t, events, |events| - 1);
  }

  /** After `update` the client runs exactly if there is a proxy, and then it has been pushed the store. */
  lemma UpdatedShape(t: Tunnel, env: Env)
    ensures var t' := Updated(t, env);
      && t'.device == t.device && t'.cfgs == t.cfgs
      && (t'.cancel.Some? <==> t.cfgs != map[])
      && (t'.cancel.Some? && env.pushOk ==> t'.pushed == Listing(t.cfgs, env.order))
  {
  }

  function Changed(t: Tunnel, e: Event): Store
    requires e.ProxySSH? || e.UnProxy?
  {
    if e.ProxySSH? then t.cfgs[Key(e.ip, e.port) := ProxyCfg(t.device, e.ip, e.port)] else t.cfgs - {Key(e.ip, e.port)}
  }

  /** What a step does to the store, whatever the supervisor does. */
  lemma StepStore(t: Tunnel, e: Event)
    ensures var t' := Apply(t, e);
      && t'.device == t.device
      && t'.cfgs == if e.ProxySSH? || e.UnProxy? then Changed(t, e) else t.cfgs
  {
    if e.ProxySSH? || e.UnProxy? {
      UpdatedShape(t.(cfgs := Changed(t, e)), e.env);
    }
  }

  /**
   * After any sequence of calls, Stops and client failures the store holds exactly the pairs whose last
   * operation was ProxySSH, each with its own configuration.
   */
  lemma {:induction false} EntriesAreTheProxiedPairs(device: string, events: seq<Event>, ip: string, port: int)
    ensures var t := Exec(Init(device), events);
      && (Key(ip, port) in t.cfgs <==> LastProxied(events, ip, port))
      && (Key(ip, port) in t.cfgs ==> t.cfgs[Key(ip, port)] == ProxyCfg(device, ip, port))
      && t.device == device
    decreases |events|
  {
    if events != [] {
      ExecLast(Init(device), events);
      EntriesAreTheProxiedPairs(device, events[..|events| - 1], ip, port);
      StepEntries(device, events, Exec(Init(device), events[..|events| - 1]), ip, port);
    }
  }

  lemma StepEntries(device: string, events: seq<Event>, t: Tunnel, ip: string, port: int)
    requires events != [] && t.device == device
    requires Key(ip, port) in t.cfgs <==> LastProxied(events[..|events| - 1], ip, port)
    requires Key(ip, port) in t.cfgs ==> t.cfgs[Key(ip, port)] == ProxyCfg(device, ip, port)
    ensures var t' := Apply(t, events[|events| - 1]);
      && (Key(ip, port) in t'.cfgs <==> LastProxied(events, ip, port))
      && (Key(ip, port) in t'.cfgs ==> t'.cfgs[Key(ip, port)] == ProxyCfg(device, ip, port))
      && t'.device == device
  {
    var e := events[|events| - 1];
    StepStore(t, e);
    if (e.ProxySSH? || e.UnProxy?) && Key(e.ip, e.port) == Key(ip, port) {
      KeyInjective(e.ip, e.port, ip, port);
    }
  }

  /** Every key in the store is the key of some pair. */
  lemma {:induction false} EveryEntryHasAPair(device: string, events: seq<Event>, key: string)
    requires key in Exec(Init(device), events).cfgs
    ensures exists ip, port :: key == Key(ip, port) && LastProxied(events, ip, port)
    decreases |events|
  {
    if events != [] {
      ExecLast(Init(device), events);
      var e := events[|events| - 1];
      StepStore(Exec(Init(device), events[..|events| - 1]), e);
      if e.ProxySSH? && key == Key(e.ip, e.port) {
        assert LastProxied(events, e.ip, e.port);
      } else {
        EveryEntryHasAPair(device, events[..|events| - 1], key);
        var ip, port :| key == Key(ip, port) && LastProxied(events[..|events| - 1], ip, port);
        EntriesAreTheProxiedPairs(device, events, ip, port);
      }
    }
  }

  // ----- the supervisor -----

  /**
   * Stop stops the client that `m.cancel` belongs to, and no other, and forgets it; without one it does
   * nothing. The store and the list pushed stay.
   */
  lemma StopStopsTheClient(t: Tunnel)
    ensures var t' := Apply(t, Stop);
      && t'.cancel.None?
      && (forall r :: r in t'.live <==> r in t.live && t.cancel != Some(r))
      && t'.cfgs == t.cfgs && t'.device == t.device && t'.nextRun == t.nextRun && t'.pushed == t.pushed
      && (OneRun(t) ==> t'.live == {})
  {
  }

  /** A client that fails is not live any more, and whatever client `m.cancel` belonged to it is nil. */
  lemma FailureForgetsCancel(t: Tunnel, r: RunId)
    ensures var t' := Apply(t, RunFails(r));
      && t'.cancel.None? && (forall q :: q in t'.live <==> q in t.live && q != r)
      && t'.cfgs == t.cfgs && t'.device == t.device && t'.nextRun == t.nextRun && t'.pushed == t.pushed
  {
  }

  /**
   * What a call that changes the store does to the client: the first proxy starts a new one, the last one
   * to go stops the current one, and any other change leaves it running. Once it runs, a push that is
   * accepted gives it the values of the store in the order of visit.
   */
  lemma CallsSupervise(t: Tunnel, e: Event)
    requires e.ProxySSH? || e.UnProxy?
    ensures var t' := Apply(t, e);
      && t'.cfgs == (if e.ProxySSH? then t.cfgs[Key(e.ip, e.port) := ProxyCfg(t.device, e.ip, e.port)]
                     else t.cfgs - {Key(e.ip, e.port)})
      && (t.cancel.None? && t'.cfgs != map[] ==>
            && t'.cancel == Some(t.nextRun) && t'.nextRun == t.nextRun + 1
            && t'.live == if e.env.failsEarly then t.live else t.live + {t.nextRun})
      && (t.cancel.None? && t'.cfgs == map[] ==> t'.cancel.None? && t'.live == t.live && t'.nextRun == t.nextRun)
      && (t.cancel.Some? && t'.cfgs == map[] ==>
            t'.cancel.None? && t'.live == t.live - {t.cancel.value} && t'.nextRun == t.nextRun)
      && (t.cancel.Some? && t'.cfgs != map[] ==>
            t'.cancel == t.cancel && t'.live == t.live && t'.nextRun == t.nextRun)
      && t'.pushed == if t'.cfgs != map[] && e.env.pushOk then Listing(t'.cfgs, e.env.order) else t.pushed
  {
    UpdateSupervises(t.(cfgs := Changed(t, e)), e.env);
  }

  lemma UpdateSupervises(t: Tunnel, env: Env)
    ensures var t' := Updated(t, env);
      && t'.cfgs == t.cfgs
      && (t.cancel.None? && t.cfgs != map[] ==>
            && t'.cancel == Some(t.nextRun) && t'.nextRun == t.nextRun + 1
            && t'.live == if env.failsEarly then t.live else t.live + {t.nextRun})
      && (t.cancel.None? && t.cfgs == map[] ==> t' == t)
      && (t.cancel.Some? && t.cfgs == map[] ==>
            t'.cancel.None? && t'.live == t.live - {t.cancel.value} && t'.nextRun == t.nextRun)
      && (t.cancel.Some? && t.cfgs != map[] ==>
            t'.cancel == t.cancel && t'.live == t.live && t'.nextRun == t.nextRun)
      && t'.pushed == if t.cfgs != map[] && env.pushOk then Listing(t.cfgs, env.order) else t.pushed
  {
  }

  /** A listing has the store's values, one for each key visited. */
  lemma {:induction false} ListingHas(cfgs: Store, order: seq<string>)
    requires forall k :: k in order ==> k in cfgs
    ensures |Listing(cfgs, order)| == |order|
    ensures forall i :: 0 <= i < |order| ==> Listing(cfgs, order)[i] == cfgs[order[i]]
    decreases |order|
  {
    if order != [] {
      assert order[0] in order && forall k :: k in order[1..] ==> k in order;
      ListingHas(cfgs, order[1..]);
    }
  }

  /** A running client has something to proxy. */
  predicate NotIdle(t: Tunnel) {
    t.cancel.Some? ==> t.cfgs != map[]
  }

  /** Whatever Stops and client failures happen, stale and early ones included. */
  lemma {:induction false} CancelMeansProxies(device: string, events: seq<Event>)
    ensures NotIdle(Exec(Init(device), events))
    decreases |events|
  {
    if events != [] {
      ExecLast(Init(device), events);
      CancelMeansProxies(device, events[..|events| - 1]);
      StepKeepsNotIdle(Exec(Init(device), events[..|events| - 1]), events[|events| - 1]);
    }
  }

  lemma StepKeepsNotIdle(t: Tunnel, e: Event)
    requires NotIdle(t)
    ensures NotIdle(Apply(t, e))
    ensures e.ProxySSH? || e.UnProxy? ==> (Apply(t, e).cancel.Some? <==> Apply(t, e).cfgs != map[])
  {
    if e.ProxySSH? || e.UnProxy? {
      UpdatedShape(t.(cfgs := Changed(t, e)), e.env);
      assert Apply(t, e) == Updated(t.(cfgs := Changed(t, e)), e.env);
    }
  }

  /** Right after ProxySSH or UnProxy the client is running if and only if there is a proxy. */
  lemma RunningExactlyWithProxies(device: string, events: seq<Event>)
    requires events != [] && (events[|events| - 1].ProxySSH? || events[|events| - 1].UnProxy?)
    ensures var t := Exec(Init(device), events); t.cancel.Some? <==> t.cfgs != map[]
  {
    ExecLast(Init(device), events);
    CancelMeansProxies(device, events[..|events| - 1]);
    StepKeepsNotIdle(Exec(Init(device), events[..|events| - 1]), events[|events| - 1]);
  }

  /** The live contexts are the one `m.cancel` cancels, if any. */
  predicate OneRun(t: Tunnel) {
    && t.live == (if t.cancel.Some? then {t.cancel.value} else {})
    && forall r :: r in t.live ==> r < t.nextRun
  }

  /** A failure that `m.cancel = nil` answers correctly: of the current run, or while there is none. */
  predicate Timely(t: Tunnel, e: Event) {
    match e
    case RunFails(r) => t.cancel.None? || t.cancel == Some(r)
    case ProxySSH(_, _, env) => t.cancel.Some? || !env.failsEarly
    case UnProxy(ip, port, env) => t.cancel.Some? || t.cfgs - {Key(ip, port)} == map[] || !env.failsEarly
    case Stop => true
  }

  /**
   * One live context per set `cancel` is kept by a step if and only if no client failure is stale, and
   * none comes between starting the client and setting `m.cancel`.
   */
  lemma OneRunKeptExactly(t: Tunnel, e: Event)
    requires OneRun(t)
    ensures OneRun(Apply(t, e)) <==> Timely(t, e)
  {
    match e
    case RunFails(r) => assert t.cancel.Some? && t.cancel.value != r ==> t.cancel.value in Apply(t, e).live;
    case Stop =>
    case ProxySSH(ip, port, env) => UpdateKeepsOneRun(t.(cfgs := Changed(t, e)), env);
    case UnProxy(ip, port, env) => UpdateKeepsOneRun(t.(cfgs := Changed(t, e)), env);
  }

  lemma UpdateKeepsOneRun(t: Tunnel, env: Env)
    requires OneRun(t)
    ensures OneRun(Updated(t, env)) <==> t.cancel.Some? || t.cfgs == map[] || !env.failsEarly
  {
    if t.cancel.None? && t.cfgs != map[] && env.failsEarly {
      assert t.nextRun !in Updated(t, env).live;
    }
  }

  predicate AllTimely(t: Tunnel, events: seq<Event>)
    decreases |events|
  {
    events == [] || (Timely(t, events[0]) && AllTimely(Apply(t, events[0]), events[1..]))
  }

  lemma {:induction false} OneRunThroughout(t: Tunnel, events: seq<Event>)
    requires OneRun(t) && AllTimely(t, events)
    ensures OneRun(Exec(t, events))
    decreases |events|
  {
    if events != [] {
      OneRunKeptExactly(t, events[0]);
      OneRunThroughout(Apply(t, events[0]), events[1..]);
    }
  }

  /** After ProxySSH, Stop and another ProxySSH the second client is current. */
  lemma ReachSecondRun(env: Env) returns (t: Tunnel)
    requires !env.failsEarly
    ensures Reaches(Apply, Init("device"), t) && t.live == {1} && t.cancel == Some(1) && t.nextRun == 2
  {
    var t0 := Init("device");
    ReachesSelf(Apply, t0);
    ReachesNext(Apply, t0, t0, ProxySSH("a", 1, env));
    FirstProxyStarts(t0, "a", 1, env);
    var t1 := Apply(t0, ProxySSH("a", 1, env));
    ReachesNext(Apply, t0, t1, Stop);
    var t2 := Apply(t1, Stop);
    assert t2.live == {} && t2.cancel == None && t2.nextRun == 1;
    ReachesNext(Apply, t0, t2, ProxySSH("b", 2, env));
    FirstProxyStarts(t2, "b", 2, env);
    t := Apply(t2, ProxySSH("b", 2, env));
  }

  /** A stale failure does leak a client: here two contexts end up live. */
  lemma StaleFailureLeaks(env: Env)
    requires !env.failsEarly
    ensures exists events :: Exec(Init("device"), events).live == {1, 2}
  {
    var t0 := Init("device");
    var t := ReachSecondRun(env);
    ReachesNext(Apply, t0, t, RunFails(0));
    var t1 := Apply(t, RunFails(0));
    assert t1.live == {1} && t1.cancel == None && t1.nextRun == 2;
    ReachesNext(Apply, t0, t1, ProxySSH("c", 3, env));
    FirstProxyStarts(t1, "c", 3, env);
    var t2 := Apply(t1, ProxySSH("c", 3, env));
    var events :| Run(Apply, t0, events) == t2;
    assert Exec(t0, events).live == {1, 2};
  }

  lemma FirstProxyStarts(t: Tunnel, ip: string, port: int, env: Env)
    requires t.cancel.None? && !env.failsEarly
    ensures var t' := Apply(t, ProxySSH(ip, port, env));
      t'.live == t.live + {t.nextRun} && t'.cancel == Some(t.nextRun) && t'.nextRun == t.nextRun + 1
  {
  }

  // ----- the list pushed -----

  /** `list` is the values of the store, each key's once, in some order. */
  ghost predicate ListsStore(list: seq<ProxyCfg>, cfgs: Store) {
    exists order :: Visits(order, cfgs.Keys) && list == Listing(cfgs, order)
  }

  /** Go's iteration visits each key of the store at the time of the call once, and the client accepts the push. */
  ghost predicate Pushes(t: Tunnel, e: Event) {
    match e
    case ProxySSH(ip, port, env) => env.pushOk && Visits(env.order, t.cfgs.Keys + {Key(ip, port)})
    case UnProxy(ip, port, env) => env.pushOk && Visits(env.order, t.cfgs.Keys - {Key(ip, port)})
    case _ => true
  }

  ghost predicate AllPush(t: Tunnel, events: seq<Event>)
    decreases |events|
  {
    events == [] || (Pushes(t, events[0]) && AllPush(Apply(t, events[0]), events[1..]))
  }

  /** While the client runs it has been given exactly the store's values. */
  ghost predicate InSync(t: Tunnel) {
    t.cancel.Some? ==> ListsStore(t.pushed, t.cfgs)
  }

  lemma StepKeepsInSync(t: Tunnel, e: Event)
    requires InSync(t) && Pushes(t, e)
    ensures InSync(Apply(t, e))
  {
    if e.ProxySSH? || e.UnProxy? {
      var u := t.(cfgs := Changed(t, e));
      assert u.cfgs.Keys ==
        if e.ProxySSH? then t.cfgs.Keys + {Key(e.ip, e.port)} else t.cfgs.Keys - {Key(e.ip, e.port)};
      assert Visits(e.env.order, u.cfgs.Keys);
      UpdatedShape(u, e.env);
      assert Apply(t, e) == Updated(u, e.env);
    }
  }

  lemma {:induction false} PushedIsTheStore(t: Tunnel, events: seq<Event>)
    requires InSync(t) && AllPush(t, events)
    ensures InSync(Exec(t, events))
    decreases |events|
  {
    if events != [] {
      StepKeepsInSync(t, events[0]);
      PushedIsTheStore(Apply(t, events[0]), events[1..]);
    }
  }

  /** All listings of a store hold the same configurations the same number of times. */
  lemma {:induction false} ListingsAgree(cfgs: Store, order: seq<string>, order': seq<string>)
    requires Visits(order, cfgs.Keys) && Visits(order', cfgs.Keys)
    ensures multiset(Listing(cfgs, order)) == multiset(Listing(cfgs, order'))
    decreases |order|
  {
    assert forall x :: x in order' ==> x in order;
    assert |order'| > 0 ==> order'[0] in order';
    if order != [] {
      var k := order[0];
      assert k in order && k in order';
      var i :| 0 <= i < |order'| && order'[i] == k;
      var rest := order'[..i] + order'[i + 1..];
      ListingWithout(cfgs, order', i);
      VisitsWithout(order, cfgs.Keys, 0);
      VisitsWithout(order', cfgs.Keys, i);
      assert order[..0] + order[1..] == order[1..];
      ListingsAgree(cfgs - {k}, order[1..], rest);
      ListingOfSmaller(cfgs, k, order[1..]);
      ListingOfSmaller(cfgs, k, rest);
      assert Listing(cfgs, order) == [cfgs[k]] + Listing(cfgs, order[1..]);
    }
  }

  lemma VisitsWithout(order: seq<string>, keys: set<string>, i: nat)
    requires Visits(order, keys) && i < |order|
    ensures Visits(order[..i] + order[i + 1..], keys - {order[i]})
  {
    var rest := order[..i] + order[i + 1..];
    forall x | x in keys - {order[i]}
      ensures x in rest
    {
      assert x in order;
      var j :| 0 <= j < |order| && order[j] == x;
      assert rest[if j < i then j else j - 1] == x;
    }
    forall j | 0 <= j < |rest|
      ensures rest[j] in order && rest[j] != order[i]
    {
      assert rest[j] == order[if j < i then j else j + 1];
    }
  }

  lemma {:induction false} ListingWithout(cfgs: Store, order: seq<string>, i: nat)
    requires i < |order| && order[i] in cfgs
    ensures multiset(Listing(cfgs, order)) ==
      multiset{cfgs[order[i]]} + multiset(Listing(cfgs, order[..i] + order[i + 1..]))
    decreases i
  {
    var rest := order[..i] + order[i + 1..];
    if i == 0 {
      assert rest == order[1..];
    } else {
      assert rest[0] == order[0] && rest[1..] == order[1..][..i - 1] + order[1..][i..];
      ListingWithout(cfgs, order[1..], i - 1);
    }
  }

  lemma {:induction false} ListingOfSmaller(cfgs: Store, k: string, order: seq<string>)
    requires k !in order
    ensures Listing(cfgs - {k}, order) == Listing(cfgs, order)
    decreases |order|
  {
    if order != [] {
      assert order[0] in order && forall x :: x in order[1..] ==> x in order;
      ListingOfSmaller(cfgs, k, order[1..]);
    }
  }

  // ----- the code -----

  class Manager {
    const deviceName: string
    var proxyCfgs: Store
    var cancel: Option<RunId>
    var live: set<RunId>
    var nextRun: RunId
    var pushed: seq<ProxyCfg>

    ghost function View(): Tunnel
      reads this
    {
      Tunnel(deviceName, proxyCfgs, cancel, live, nextRun, pushed)
    }

    constructor (device: string)
      ensures View() == Init(device)
    {
      deviceName := device;
      proxyCfgs, cancel, live, nextRun, pushed := map[], None, {}, 0, [];
    }

    method ProxySSH(ip: string, port: int, env: Env)
      modifies this
      ensures View() == Apply(old(View()), Event.ProxySSH(ip, port, env))
      ensures proxyCfgs == old(proxyCfgs)[Key(ip, port) := ProxyCfg(deviceName, ip, port)]
      ensures cancel == if old(cancel).Some? then old(cancel) else Some(old(nextRun))
    {
      proxyCfgs := proxyCfgs[JoinHostPort(ip, DecimalInt(port)) := ProxyCfg(deviceName, ip, port)];
      Update(env);
    }

    method UnProxy(ip: string, port: int, env: Env)
      modifies this
      ensures View() == Apply(old(View()), Event.UnProxy(ip, port, env))
      ensures proxyCfgs == old(proxyCfgs) - {Key(ip, port)}
      ensures proxyCfgs == map[] ==> cancel.None?
      ensures proxyCfgs == map[] && old(cancel).Some? ==> live == old(live) - {old(cancel).value}
      ensures proxyCfgs != map[] && old(cancel).Some? ==> cancel == old(cancel) && live == old(live)
    {
      proxyCfgs := proxyCfgs - {JoinHostPort(ip, DecimalInt(port))};
      Update(env);
    }

    method Update(env: Env)
      modifies this
      ensures View() == Updated(old(View()), env)
    {
      if cancel.None? {
        if |proxyCfgs| > 0 {
          if !env.failsEarly {
            live := live + {nextRun};
          }
          cancel := Some(nextRun);
          nextRun := nextRun + 1;
          Reload(env);
        }
        return;
      }
      if |proxyCfgs| == 0 {
        Stop();
        return;
      }
      Reload(env);
    }

    /** The `reload` closure: the store's values, collected in the order Go visits them, go to the client. */
    method Reload(env: Env)
      modifies this`pushed
      ensures View() == Reloaded(old(View()), env)
    {
      var cfgs: seq<ProxyCfg> := [];
      var i := 0;
      while i < |env.order|
        invariant 0 <= i <= |env.order|
        invariant cfgs + Listing(proxyCfgs, env.order[i..]) == Listing(proxyCfgs, env.order)
      {
        assert env.order[i..][1..] == env.order[i + 1..];
        if env.order[i] in proxyCfgs {
          cfgs := cfgs + [proxyCfgs[env.order[i]]];
        }
        i := i + 1;
      }
      if env.pushOk {
        pushed := cfgs;
      }
    }

    method Stop()
      modifies this
      ensures View() == Apply(old(View()), Event.Stop)
      ensures cancel.None?
      ensures live == if old(cancel).Some? then old(live) - {old(cancel).value} else old(live)
      ensures proxyCfgs == old(proxyCfgs) && nextRun == old(nextRun) && pushed == old(pushed)
    {
      if cancel.None? {
        return;
      }
      live := live - {cancel.value};
      cancel := None;
    }

    /** The goroutine that runs the client, once `frpc.Run` has returned an error for run `r`. */
    method RunFailed(r: RunId)
      modifies this
      ensures View() == Apply(old(View()), RunFails(r))
      ensures cancel.None? && live == old(live) - {r}
      ensures proxyCfgs == old(proxyCfgs) && nextRun == old(nextRun) && pushed == old(pushed)
    {
      live := live - {r};
      cancel := None;
    }
  }
}
