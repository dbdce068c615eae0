/** internal/ssh/session.go: the table of active SSH sessions, keyed by remote address. */
module SessionManager {
  import opened Common

  type Addr = string
  type ConnId = nat
  type ChannelId = nat

  datatype Session = Session(conn: ConnId, channel: Option<ChannelId>)

  type Table = map<Addr, Session>

  // The effect of each critical section of the manager's mutex.

  function WithSession(t: Table, addr: Addr, conn: ConnId): Table {
    t[addr := Session(conn, None)]
  }

  function WithChannel(t: Table, addr: Addr, channel: ChannelId): Table {
    if addr in t then t[addr := t[addr].(channel := Some(channel))] else t
  }

  function WithoutSession(t: Table, addr: Addr): Table {
    t - {addr}
  }

  /** The sessions that have a PTY channel to announce the shutdown on, and those channels. */
  function Announcements(t: Table): map<Addr, ChannelId> {
    map a | a in t && t[a].channel.Some? :: t[a].channel.value
  }

  /** The connections to close. */
  function Closings(t: Table): map<Addr, ConnId> {
    map a | a in t :: t[a].conn
  }

  function Entry(t: Table, addr: Addr): Option<Session> {
    if addr in t then Some(t[addr]) else None
  }

  class Manager {
    var sessions: Table

    constructor ()
      ensures sessions == map[]
    {
      sessions := map[];
    }

    method Add(conn: ConnId, addr: Addr)
      modifies this
      ensures sessions == WithSession(old(sessions), addr, conn)
      ensures addr in sessions && sessions[addr].conn == conn && sessions[addr].channel == None
      ensures forall a :: a != addr ==> Entry(sessions, a) == old(Entry(sessions, a))
    {
      sessions := sessions[addr := Session(conn, None)];
    }

    method SetChannel(addr: Addr, channel: ChannelId)
      modifies this
      ensures sessions == WithChannel(old(sessions), addr, channel)
      ensures addr in sessions <==> addr in old(sessions)
      ensures addr in sessions ==>
        sessions[addr].channel == Some(channel) && sessions[addr].conn == old(sessions)[addr].conn
      ensures forall a :: a != addr ==> Entry(sessions, a) == old(Entry(sessions, a))
    {
      if addr in sessions {
        var sess := sessions[addr];
        sessions := sessions[addr := sess.(channel := Some(channel))];
      }
    }

    method Remove(addr: Addr)
      modifies this
      ensures sessions == WithoutSession(old(sessions), addr)
      ensures addr !in sessions
      ensures forall a :: a != addr ==> Entry(sessions, a) == old(Entry(sessions, a))
    {
      sessions := map a | a in sessions && a != addr :: sessions[a];
    }

    /**
     * Both loops run under the mutex, so they range over one table: every session with a channel is
     * announced to once, on that channel, and every session's connection is closed once, whatever the
     * iteration order. The `i`-th announcement is to `announced[i]` on `channels[i]`.
     */
    method BroadcastAndClose()
      returns (announced: seq<Addr>, channels: seq<ChannelId>, closed: seq<Addr>, conns: seq<ConnId>)
      ensures Visits(announced, set a | a in sessions && sessions[a].channel.Some?)
      ensures |channels| == |announced|
      ensures forall i :: 0 <= i < |channels| ==>
        announced[i] in sessions && sessions[announced[i]].channel == Some(channels[i])
      ensures Visits(closed, sessions.Keys)
      ensures |conns| == |closed|
      ensures forall i :: 0 <= i < |conns| ==> closed[i] in sessions && sessions[closed[i]].conn == conns[i]
    {
      announced, channels, closed, conns := [], [], [], [];
      var activeSessions := |sessions|;
      if activeSessions > 0 {
        var todo := sessions.Keys;
        while todo != {}
          invariant todo <= sessions.Keys
          invariant Visits(announced, Announcements(sessions).Keys - todo)
          invariant |channels| == |announced|
          invariant forall i :: 0 <= i < |channels| ==>
            announced[i] in sessions && sessions[announced[i]].channel == Some(channels[i])
        {
          var addr :| addr in todo;
          if sessions[addr].channel.Some? {
            announced := announced + [addr];
            channels := channels + [sessions[addr].channel.value];
          }
          todo := todo - {addr};
        }
      }
      if activeSessions > 0 {
        var todo := sessions.Keys;
        while todo != {}
          invariant todo <= sessions.Keys
          invariant Visits(closed, sessions.Keys - todo)
          invariant |conns| == |closed|
          invariant forall i :: 0 <= i < |conns| ==> closed[i] in sessions && sessions[closed[i]].conn == conns[i]
        {
          var addr :| addr in todo;
          closed := closed + [addr];
          conns := conns + [sessions[addr].conn];
          todo := todo - {addr};
        }
      }
    }
  }
}
