/**
 * internal/ssh/controller.go and internal/ssh/conn.go as a machine of labelled steps: `Run`, its
 * accept loop, one handler per connection and any number of PTY waiters per connection, interleaved
 * at every lock, WaitGroup and Once action. A step whose guard does not hold leaves the state alone
 * (that goroutine is blocked, or is somewhere else), so every sequence of steps is a run.
 */
module SshServer {
  import opened Common
  import opened SessionManager

  // ----- the controller's fields -----

  datatype Socket = NoSocket | OpenSocket | ClosedSocket
  datatype Signal = NoSignal | OpenSignal | ClosedSignal

  /** `config` carries the number of the Prepare that built it, so that a handler's config can be traced. */
  datatype Fields = Fields(isRunning: bool, config: Option<nat>, listener: Socket, shutdown: Signal)

  const STOPPED := Fields(false, None, NoSocket, NoSignal)

  function Prepared(runNo: nat): Fields {
    Fields(true, Some(runNo), OpenSocket, OpenSignal)
  }

  function ListenerClosed(f: Fields): Fields {
    if f.listener == OpenSocket then f.(listener := ClosedSocket) else f
  }

  // ----- one connection -----

  datatype HandlerPc = ReadConfig | Handshake | Rejected | RejectedExit | AddSession | Serving | AtOnce | Exited
  datatype WaiterPc = Waiting | WaiterAtOnce | WaiterExited
  datatype Thread = Handler | Waiter(index: nat)

  /** Where the cleanup body is; the thread that won the Once stays at `AtOnce` until `Finished`. */
  datatype Stage = AtRemove | AtDone | AtReturn
  datatype Once = Fresh | Running(stage: Stage) | Finished

  /**
   * `channel` is the last session channel opened on the connection, `dones` counts the `wg.Done` calls
   * made for it, and `run` is the Prepare it was accepted under.
   */
  datatype Conn = Conn(run: nat, addr: Addr, handler: HandlerPc, channel: Option<ChannelId>, waiters: seq<WaiterPc>,
                       once: Once, dones: nat)

  // ----- the server -----

  datatype RunPc =
    | NotRunning
    | ToRun
    | Select
    | CloseListener
    | JoinAccept
    | LockSessions
    | Announcing(todo: set<Addr>)
    | Grace
    | Closing(todo: set<Addr>)
    | WaitGroup
    | Reset

  datatype AcceptPc = NotStarted | AtAccept | InAccept | Returned

  datatype Crash = NoCrash | NilListener | NilConfig | NegativeWaitGroup | ClosedTwice

  /**
   * What the last `BroadcastAndClose` did: the table it locked, the channels it announced on and the
   * connections it closed, by the address of their session.
   */
  datatype Broadcast = Broadcast(snapshot: Table, announced: map<Addr, ChannelId>, closed: map<Addr, ConnId>)

  datatype Server = Server(fields: Fields, wg: int, table: Table, locked: bool,
                           run: RunPc, accept: AcceptPc, runs: nat, conns: map<ConnId, Conn>,
                           broadcast: Broadcast, crash: Crash)

  datatype Call = Prepare(ok: bool) | StartRun | Stop

  datatype RunStep =
    | SeeShutdown
    | SeeTimer
    | DoCloseListener
    | DoJoinAccept
    | DoLockSessions
    | Announce(addr: Addr)
    | EndAnnounce
    | EndGrace
    | CloseConn(addr: Addr)
    | EndClose
    | DoWait
    | DoReset

  datatype AcceptStep = CallAccept | AcceptConn(conn: ConnId, addr: Addr) | AcceptError

  datatype ConnStep =
    | DoReadConfig
    | HandshakeOk
    | HandshakeFailed
    | RejectDone
    | DoAdd
    | OpenChannel(channel: ChannelId)
    | EndServing
    | StartPty
    | CommandExits(waiter: nat)
    | EnterOnce(thread: Thread)
    | LeaveOnce(thread: Thread)
    | Cleanup

  datatype Step =
    | ByCaller(call: Call)
    | ByRun(runStep: RunStep)
    | ByAccept(acceptStep: AcceptStep)
    | ByConn(conn: ConnId, connStep: ConnStep)

  const INIT := Server(STOPPED, 0, map[], false, NotRunning, NotStarted, 0, map[], Broadcast(map[], map[], map[]),
                       NoCrash)

  function Exec(s: Server, steps: seq<Step>): Server {
    Run(Apply, s, steps)
  }

  function Apply(s: Server, step: Step): Server {
    if s.crash != NoCrash then s
    else
      match step
      case ByCaller(call) => ApplyCaller(s, call)
      case ByRun(r) => ApplyRun(s, r)
      case ByAccept(a) => ApplyAccept(s, a)
      case ByConn(c, k) => if c in s.conns then ApplyConn(s, k, c, s.conns[c]) else s
  }

  /** `PrepareConfigAndListener`, the call of `Run` that follows it, and `Stop`. */
  function ApplyCaller(s: Server, step: Call): Server {
    match step
    case Prepare(ok) =>
      if s.fields.isRunning || !ok then s
      else s.(fields := Prepared(s.runs + 1), runs := s.runs + 1, run := ToRun)
    case StartRun =>
      if s.run != ToRun then s else s.(run := Select, accept := AtAccept)
    case Stop =>
      if !s.fields.isRunning then s
      else if s.fields.shutdown != OpenSignal then s.(crash := ClosedTwice)
      else s.(fields := s.fields.(shutdown := ClosedSignal))
  }

  /** The body of `Run` after the accept loop is started, `BroadcastAndClose` included. */
  function ApplyRun(s: Server, step: RunStep): Server {
    match step
    case SeeShutdown => if s.run == Select && s.fields.shutdown == ClosedSignal then s.(run := CloseListener) else s
    case SeeTimer => if s.run == Select then s.(run := CloseListener) else s
    case DoCloseListener =>
      if s.run == CloseListener then s.(fields := ListenerClosed(s.fields), run := JoinAccept) else s
    case DoJoinAccept => if s.run == JoinAccept && s.accept == Returned then s.(run := LockSessions) else s
    case DoLockSessions =>
      if s.run == LockSessions && !s.locked
      then s.(locked := true, run := Announcing(s.table.Keys), broadcast := Broadcast(s.table, map[], map[])) else s
    case Announce(addr) =>
      if s.run.Announcing? && addr in s.run.todo && addr in s.table
      then s.(run := Announcing(s.run.todo - {addr}),
              broadcast := if s.table[addr].channel.None? then s.broadcast
                           else s.broadcast.(announced := s.broadcast.announced[addr := s.table[addr].channel.value]))
      else s
    case EndAnnounce => if s.run == Announcing({}) then s.(run := Grace) else s
    case EndGrace => if s.run == Grace then s.(run := Closing(s.table.Keys)) else s
    case CloseConn(addr) =>
      if s.run.Closing? && addr in s.run.todo && addr in s.table
      then s.(run := Closing(s.run.todo - {addr}),
              broadcast := s.broadcast.(closed := s.broadcast.closed[addr := s.table[addr].conn]))
      else s
    case EndClose => if s.run == Closing({}) then s.(locked := false, run := WaitGroup) else s
    case DoWait => if s.run == WaitGroup && s.wg == 0 then s.(run := Reset) else s
    case DoReset => if s.run == Reset then s.(fields := STOPPED, run := NotRunning) else s
  }

  /** `Run`'s accept goroutine; `c.listener` is read without the lock, and a nil one is dereferenced. */
  function ApplyAccept(s: Server, step: AcceptStep): Server {
    match step
    case CallAccept =>
      if s.accept != AtAccept then s
      else if s.fields.listener == NoSocket then s.(crash := NilListener)
      else s.(accept := InAccept)
    case AcceptConn(c, addr) =>
      if s.accept != InAccept || c in s.conns then s
      else s.(wg := s.wg + 1, accept := AtAccept,
              conns := s.conns[c := Conn(s.runs, addr, ReadConfig, None, [], Fresh, 0)])
    case AcceptError => if s.accept == InAccept then s.(accept := Returned) else s
  }

  function ThreadAtOnce(k: Conn, t: Thread): bool {
    match t
    case Handler => k.handler == AtOnce
    case Waiter(i) => i < |k.waiters| && k.waiters[i] == WaiterAtOnce
  }

  function ThreadExited(k: Conn, t: Thread): Conn
    requires ThreadAtOnce(k, t)
  {
    match t
    case Handler => k.(handler := Exited)
    case Waiter(i) => k.(waiters := k.waiters[i := WaiterExited])
  }

  function Put(s: Server, c: ConnId, k: Conn): Server {
    s.(conns := s.conns[c := k])
  }

  /** `wg.Done()` on behalf of connection `c`, which then is in state `k`. */
  function Done(s: Server, c: ConnId, k: Conn): Server {
    if s.wg <= 0 then s.(crash := NegativeWaitGroup)
    else Put(s, c, k.(dones := k.dones + 1)).(wg := s.wg - 1)
  }

  /** `handleConnection` for connection `c`, its PTY waiters, and the Once-guarded cleanup. */
  function ApplyConn(s: Server, step: ConnStep, c: ConnId, k: Conn): Server {
    match step
    case DoReadConfig =>
      if k.handler != ReadConfig then s
      else if s.fields.config == None then s.(crash := NilConfig)
      else Put(s, c, k.(handler := Handshake))
    case HandshakeOk => if k.handler == Handshake then Put(s, c, k.(handler := AddSession)) else s
    case HandshakeFailed => if k.handler == Handshake then Put(s, c, k.(handler := Rejected)) else s
    case RejectDone => if k.handler == Rejected then Done(s, c, k.(handler := RejectedExit)) else s
    case DoAdd =>
      if k.handler == AddSession && !s.locked
      then Put(s, c, k.(handler := Serving)).(table := WithSession(s.table, k.addr, c)) else s
    case OpenChannel(channel) =>
      if k.handler == Serving && !s.locked
      then Put(s, c, k.(channel := Some(channel))).(table := WithChannel(s.table, k.addr, channel)) else s
    case EndServing => if k.handler == Serving then Put(s, c, k.(handler := AtOnce)) else s
    case StartPty => if k.channel.Some? then Put(s, c, k.(waiters := k.waiters + [Waiting])) else s
    case CommandExits(i) =>
      if i < |k.waiters| && k.waiters[i] == Waiting then Put(s, c, k.(waiters := k.waiters[i := WaiterAtOnce])) else s
    case EnterOnce(t) => if ThreadAtOnce(k, t) && k.once == Fresh then Put(s, c, k.(once := Running(AtRemove))) else s
    case LeaveOnce(t) => if ThreadAtOnce(k, t) && k.once == Finished then Put(s, c, ThreadExited(k, t)) else s
    case Cleanup =>
      (match k.once
       case Running(AtRemove) =>
         if s.locked then s
         else Put(s, c, k.(once := Running(AtDone))).(table := WithoutSession(s.table, k.addr))
       case Running(AtDone) => Done(s, c, k.(once := Running(AtReturn)))
       case Running(AtReturn) => Put(s, c, k.(once := Finished))
       case _ => s)
  }
}
