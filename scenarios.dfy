/**
 * Clients of the registry: what embedding code can conclude from the
 * contracts alone, for a success unit, a failure unit, an unknown name and a
 * re-registration.
 */
module Scenarios {

  import opened Json
  import opened Envelope
  import opened Registry

  const Success: ProcessResponse := ProcessResponse(200, "ok", EmptyObject, [])
  const Failure: ProcessResponse := ProcessResponse(500, "boom", EmptyObject, ["x"])

  method RegisteredSuccess(run: int -> ProcessResult, elapsed: Duration, now: Duration, h: Hashing)
    requires run(1) == Ok(Success)
  {
    var server := new Server<int>();
    server.AddProcess("test", 1);
    var response, invoked := server.Incoming("test", run, elapsed, now, h);
    assert response.code == 200 && response.message == "ok" && response.errors == [];
    assert !response.cache && response.cost >= 0.0 && |response.hash| == 64;
    assert invoked == [1];
  }

  method RegisteredFailure(run: int -> ProcessResult, elapsed: Duration, now: Duration, h: Hashing)
    requires run(2) == Err(Failure)
  {
    var server := new Server<int>();
    server.AddProcess("fail", 2);
    var response, invoked := server.Incoming("fail", run, elapsed, now, h);
    assert response.code == 500 && response.message == "boom" && response.errors == ["x"];
    assert response.cost == 0.0 && HashIntact(h, response);
  }

  method Unregistered(run: int -> ProcessResult, elapsed: Duration, now: Duration, h: Hashing)
  {
    var server := new Server<int>();
    var response, invoked := server.Incoming("test", run, elapsed, now, h);
    assert response.code == 404 && invoked == [];
    server.AddProcess("test", 1);
    response, invoked := server.Incoming("missing", run, elapsed, now, h);
    assert response.code == 404 && response.message == "Not Found";
    assert response.errors == ["Process not found"] && invoked == [];
  }

  method HardcodedId(run: int -> ProcessResult, elapsed: Duration, now: Duration, h: Hashing)
  {
    var server := new Server<int>();
    server.AddProcess("test", 1);
    var response, invoked := server.IncomingAsWritten(run, elapsed, now, h);
    assert response.code == 404 && invoked == [];
  }

  method Reregistered(run: int -> ProcessResult, elapsed: Duration, now: Duration, h: Hashing)
    requires run(1) == Ok(Success) && run(2) == Err(Failure)
  {
    var server := new Server<int>();
    server.AddProcess("test", 1);
    server.AddProcess("test", 2);
    var response, invoked := server.Incoming("test", run, elapsed, now, h);
    assert invoked == [2] && response.code == 500;
  }
}
