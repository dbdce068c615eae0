/**
 * The critical sections of `c.mu` in internal/ssh/controller.go, as the methods that run them, each
 * proved to do to the fields what the corresponding step of the machine does.
 */
module SshController {
  import opened Common
  import opened SshServer

  datatype PrepareResult = Ok | AlreadyRunning | BadCaKey | BadHostKey | ListenFailed

  class Controller {
    var config: Option<nat>
    var isRunning: bool
    var listener: Socket
    var shutdownChan: Signal
    /** The number of Prepares that have succeeded: the identity given to the next config. */
    var runs: nat

    ghost function View(): Fields
      reads this
    {
      Fields(isRunning, config, listener, shutdownChan)
    }

    /** This controller's fields are those of machine state `s`. */
    ghost predicate Shows(s: Server)
      reads this
    {
      s.fields == View() && s.runs == runs && s.crash == NoCrash
    }

    constructor ()
      ensures Shows(INIT)
    {
      config, isRunning, listener, shutdownChan, runs := None, false, NoSocket, NoSignal, 0;
    }

    /** The three flags say whether each key parses and whether port 2222 can be listened on. */
    method PrepareConfigAndListener(ghost s: Server, caKeyParses: bool, hostKeyParses: bool, portFree: bool)
      returns (r: PrepareResult)
      requires Shows(s)
      modifies this
      ensures Shows(Apply(s, ByCaller(Prepare(caKeyParses && hostKeyParses && portFree))))
      ensures r == Ok <==> !old(isRunning) && caKeyParses && hostKeyParses && portFree
      ensures r == AlreadyRunning <==> old(isRunning)
      ensures r == BadCaKey <==> !old(isRunning) && !caKeyParses
      ensures r == BadHostKey <==> !old(isRunning) && caKeyParses && !hostKeyParses
      ensures r == ListenFailed <==> !old(isRunning) && caKeyParses && hostKeyParses && !portFree
      ensures r == Ok ==>
        isRunning && config == Some(old(runs) + 1) && listener == OpenSocket && shutdownChan == OpenSignal
      ensures r != Ok ==> View() == old(View()) && runs == old(runs)
    {
      if isRunning {
        return AlreadyRunning;
      }
      if !caKeyParses {
        return BadCaKey;
      }
      if !hostKeyParses {
        return BadHostKey;
      }
      if !portFree {
        return ListenFailed;
      }
      runs := runs + 1;
      config := Some(runs);
      listener := OpenSocket;
      isRunning := true;
      shutdownChan := OpenSignal;
      return Ok;
    }

    /** `panics` is the panic of closing a closed channel. */
    method Stop(ghost s: Server) returns (panics: bool)
      requires Shows(s) && (s.fields.shutdown != NoSignal <==> s.fields.isRunning)
      modifies this
      ensures panics <==> Apply(s, ByCaller(Call.Stop)).crash == ClosedTwice
      ensures !panics ==> Shows(Apply(s, ByCaller(Call.Stop)))
      ensures panics <==> old(isRunning) && old(shutdownChan) == ClosedSignal
      ensures old(isRunning) ==> shutdownChan == ClosedSignal
      ensures isRunning == old(isRunning) && config == old(config) && listener == old(listener)
    {
      if !isRunning {
        return false;
      }
      if shutdownChan == ClosedSignal {
        return true;
      }
      shutdownChan := ClosedSignal;
      return false;
    }

    method IsRunning() returns (running: bool)
      ensures running == View().isRunning
    {
      running := isRunning;
    }

    /** `Run`'s first critical section: make the accept loop's next `Accept` fail. */
    method CloseListenerSection(ghost s: Server)
      requires Shows(s) && s.run == CloseListener
      modifies this
      ensures Shows(Apply(s, ByRun(DoCloseListener)))
      ensures listener == if old(listener) == NoSocket then NoSocket else ClosedSocket
      ensures isRunning == old(isRunning) && config == old(config) && shutdownChan == old(shutdownChan)
    {
      if listener != NoSocket {
        listener := ClosedSocket;
      }
    }

    /** `Run`'s second critical section: back to where Prepare is possible again. */
    method ResetSection(ghost s: Server)
      requires Shows(s) && s.run == Reset
      modifies this
      ensures Shows(Apply(s, ByRun(DoReset)))
      ensures !isRunning && config == None && listener == NoSocket && shutdownChan == NoSignal
    {
      isRunning := false;
      config := None;
      listener := NoSocket;
      shutdownChan := NoSignal;
    }
  }
}
