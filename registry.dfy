/**
 * The process registry (`Server.processes`) and dispatch (`Server::incoming`).
 *
 * A process unit is an opaque handle of type `Unit`; what calling it returns is
 * the parameter `run`. The registry maps each name to the handle registered
 * under it most recently.
 */
module Registry {

  import opened Wrappers
  import opened Json
  import opened Envelope

  /** `HashMap::get`: the unit registered under `name`, if any. */
  function Lookup<Unit>(processes: map<string, Unit>, name: string): (r: Option<Unit>)
    ensures r.Some? <==> name in processes
    ensures r.Some? ==> r.value == processes[name]
  {
    if name in processes then Some(processes[name]) else None
  }

  /** `HashMap::new`: a registry in which no name resolves. */
  function Empty<Unit>(): (processes: map<string, Unit>)
    ensures forall name :: Lookup(processes, name) == None
  {
    map[]
  }

  /** `HashMap::insert`: `name` now resolves to `unit`, replacing any earlier unit; every other name resolves as before. */
  function Insert<Unit>(processes: map<string, Unit>, name: string, unit: Unit): (updated: map<string, Unit>)
    ensures Lookup(updated, name) == Some(unit)
    ensures forall other :: other != name ==> Lookup(updated, other) == Lookup(processes, other)
    ensures updated.Keys == processes.Keys + {name}
  {
    processes[name := unit]
  }

  /** The registry after the given registrations, performed in order on an empty one. */
  function Replay<Unit>(registrations: seq<(string, Unit)>): map<string, Unit>
  {
    if registrations == [] then Empty()
    else
      var last := registrations[|registrations| - 1];
      Insert(Replay(registrations[..|registrations| - 1]), last.0, last.1)
  }

  /** Reference definition: the unit of the latest registration of `name`, read from the front. */
  function LastRegistered<Unit>(registrations: seq<(string, Unit)>, name: string): Option<Unit>
  {
    if registrations == [] then None
    else match LastRegistered(registrations[1..], name)
      case Some(later) => Some(later)
      case None => if registrations[0].0 == name then Some(registrations[0].1) else None
  }

  lemma {:induction false} LastRegisteredAppend<Unit>(registrations: seq<(string, Unit)>, name: string, unit: Unit, other: string)
    ensures LastRegistered(registrations + [(name, unit)], other)
         == if other == name then Some(unit) else LastRegistered(registrations, other)
  {
    var extended := registrations + [(name, unit)];
    if registrations != [] {
      assert extended[1..] == registrations[1..] + [(name, unit)];
      LastRegisteredAppend(registrations[1..], name, unit, other);
    }
  }

  /** Last registration wins: the replayed registry resolves every name to its latest registration. */
  lemma {:induction false} ReplayResolvesToLast<Unit>(registrations: seq<(string, Unit)>, name: string)
    ensures Lookup(Replay(registrations), name) == LastRegistered(registrations, name)
  {
    if registrations != [] {
      var n := |registrations| - 1;
      var init, last := registrations[..n], registrations[n];
      assert registrations == init + [last];
      ReplayResolvesToLast(init, name);
      LastRegisteredAppend(init, last.0, last.1, name);
    }
  }

  /** The names that resolve are exactly the names ever registered. */
  lemma {:induction false} ReplayKeys<Unit>(registrations: seq<(string, Unit)>)
    ensures Replay(registrations).Keys == set i | 0 <= i < |registrations| :: registrations[i].0
  {
    if registrations != [] {
      var n := |registrations| - 1;
      ReplayKeys(registrations[..n]);
      assert forall i :: 0 <= i < n ==> registrations[..n][i] == registrations[i];
    }
  }

  /** What a process unit returns: `Ok` on success, `Err` on failure, the same shape on both branches. */
  datatype ProcessResult = Ok(success: ProcessResponse) | Err(failure: ProcessResponse)
  {
    function Response(): ProcessResponse
    {
      match this
      case Ok(p) => p
      case Err(p) => p
    }
  }

  /** The process id `incoming` looks up in the source, whatever the request. */
  const SourceProcessId: string := "test2"

  const NotFoundCode: u16 := 404
  const NotFoundMessage: string := "Not Found"
  const NotFoundErrors: seq<string> := ["Process not found"]

  /**
   * The envelope built by dispatch, and the units it called, in order. The
   * list is bookkeeping the model writes beside its one application of `run`,
   * not an effect observed from the call.
   */
  datatype Dispatched<Unit> = Dispatched(response: JsonResponse, invoked: seq<Unit>)

  /** The envelope carries the process's own code, message, data and errors. */
  predicate Carries(r: JsonResponse, p: ProcessResponse)
  {
    r.code == p.code && r.message == p.message && r.data == p.data && r.errors == p.errors
  }

  /**
   * The decision logic of `incoming` once the name is resolved: 404 without
   * calling anything when it is not; otherwise one call of the unit, whose
   * outcome is copied into the envelope, with the measured time as the cost
   * on success and 0.0 on failure.
   */
  function Dispatch<Unit>(resolved: Option<Unit>, run: Unit -> ProcessResult,
                          elapsed: Duration, now: Duration, h: Hashing): (d: Dispatched<Unit>)
    ensures HashIntact(h, d.response)
    ensures !d.response.cache
    ensures d.response.cost >= 0.0
    ensures d.response.timestamp == Encoding.DecimalString(now.secs)
    ensures resolved.None? ==>
              && d.invoked == []
              && d.response.code == 404 && d.response.message == "Not Found"
              && d.response.data == Object(map[]) && d.response.errors == ["Process not found"]
              && d.response.cost == 0.0
    ensures resolved.Some? ==>
              && d.invoked == [resolved.value]
              && Carries(d.response, run(resolved.value).Response())
              && d.response.cost == (if run(resolved.value).Ok? then AsSecsF64(elapsed) else 0.0)
  {
    match resolved
    case None =>
      Dispatched(NewJsonResponse(NotFoundCode, NotFoundMessage, EmptyObject, NotFoundErrors, false, 0.0, now, h), [])
    case Some(process) =>
      var result := run(process);
      var response := match result
        case Ok(success) => ToJsonResponse(success, false, AsSecsF64(elapsed), now, h)
        case Err(failure) => ToJsonResponse(failure, false, 0.0, now, h);
      Dispatched(response, [process])
  }

  /** An envelope that reports a failed call takes no time from the clock: its cost does not depend on the measurement. */
  lemma ErrCostIgnoresElapsed<Unit>(process: Unit, run: Unit -> ProcessResult,
                                    elapsed1: Duration, elapsed2: Duration, now: Duration, h: Hashing)
    requires run(process).Err?
    ensures Dispatch(Some(process), run, elapsed1, now, h) == Dispatch(Some(process), run, elapsed2, now, h)
  {
  }

  /** `Server`: the registry of named process units. */
  class Server<Unit> {
    var processes: map<string, Unit>
    /** Every `AddProcess` call so far, in order. */
    ghost var registrations: seq<(string, Unit)>

    ghost predicate Valid()
      reads this
    {
      processes == Replay(registrations)
    }

    /** `Server::new`: nothing registered. */
    constructor ()
      ensures Valid()
      ensures registrations == []
      ensures processes == Empty()
    {
      processes := Empty();
      registrations := [];
    }

    /** `Server::add_process`: insert or overwrite the entry for `name`. */
    method AddProcess(name: string, func: Unit)
      requires Valid()
      modifies this
      ensures Valid()
      ensures registrations == old(registrations) + [(name, func)]
      ensures processes == Insert(old(processes), name, func)
    {
      assert (registrations + [(name, func)])[..|registrations|] == registrations;
      processes := Insert(processes, name, func);
      registrations := registrations + [(name, func)];
    }

    /** The lookup `incoming` performs: the unit of the latest registration of `name`. */
    method Resolve(name: string) returns (unit: Option<Unit>)
      requires Valid()
      ensures unit == Lookup(processes, name)
      ensures unit == LastRegistered(registrations, name)
    {
      unit := Lookup(processes, name);
      ReplayResolvesToLast(registrations, name);
    }

    /**
     * `Server::incoming` for the process id `processId` (the source always uses
     * `SourceProcessId`): resolve it, dispatch, and return the envelope and the
     * units called. The registry is only read.
     */
    method Incoming(processId: string, run: Unit -> ProcessResult, elapsed: Duration, now: Duration, h: Hashing)
      returns (response: JsonResponse, invoked: seq<Unit>)
      requires Valid()
      ensures Dispatched(response, invoked) == Dispatch(Lookup(processes, processId), run, elapsed, now, h)
      ensures Lookup(processes, processId) == LastRegistered(registrations, processId)
    {
      var process := Resolve(processId);
      var d := Dispatch(process, run, elapsed, now, h);
      response, invoked := d.response, d.invoked;
    }

    /** `Server::incoming` as the source has it: the id looked up is always `SourceProcessId`. */
    method IncomingAsWritten(run: Unit -> ProcessResult, elapsed: Duration, now: Duration, h: Hashing)
      returns (response: JsonResponse, invoked: seq<Unit>)
      requires Valid()
      ensures Dispatched(response, invoked) == Dispatch(Lookup(processes, "test2"), run, elapsed, now, h)
    {
      response, invoked := Incoming(SourceProcessId, run, elapsed, now, h);
    }
  }
}
