/** Streaming market updates with reconnects (`bot/adapters/polymarket/websocket_market.py`). What the network does is
    given: a list of connections, each of which fails or delivers frames and then falls silent. A stream that has come
    to no result when the list ends is still connecting. */
module WebsocketStream {
  import opened Common

  /** One received frame: the updates parsed from it, or a frame that does not parse. */
  datatype Frame<T> = Parsed(updates: seq<T>) | Malformed

  datatype Connection<T> = MissingLibrary | Refused | Accepted(frames: seq<Frame<T>>)

  datatype StreamError = NoAssets | NoConnector | LibraryRequired | ParseError | Unavailable

  /** What one connection yields: enough updates, an error that ends the stream, a failure worth a retry, or, when no
      messages are wanted, nothing at all. */
  datatype Yield<T> = Enough(updates: seq<T>) | Stopped(error: StreamError) | Failed | Nothing

  datatype Progress<T> = Connecting | Finished(result: Result<seq<T>, StreamError>)

  function Receive<T>(frames: seq<Frame<T>>, wanted: nat, have: seq<T>): Yield<T>
    decreases |frames|
  {
    if |have| >= wanted then Enough(have[..wanted])
    else if frames == [] then Failed
    else if frames[0].Malformed? then Stopped(ParseError)
    else Receive(frames[1..], wanted, have + frames[0].updates)
  }

  function Attempt<T>(c: Connection<T>, wanted: int): Yield<T> {
    match c
    case MissingLibrary => Stopped(LibraryRequired)
    case Refused => Failed
    case Accepted(frames) => if wanted <= 0 then Nothing else Receive(frames, wanted, [])
  }

  /** How far a stream gets, and how many failures it has counted by then. */
  function Streaming<T>(connections: seq<Connection<T>>, wanted: int, limit: int, failed: nat): (Progress<T>, nat)
    decreases |connections|
  {
    if connections == [] then (Connecting, failed)
    else
      match Attempt(connections[0], wanted)
      case Enough(updates) => (Finished(Ok(updates)), failed)
      case Stopped(error) => (Finished(Err(error)), failed)
      case Nothing => Streaming(connections[1..], wanted, limit, failed)
      case Failed =>
        if failed + 1 >= limit then (Finished(Err(Unavailable)), failed + 1)
        else Streaming(connections[1..], wanted, limit, failed + 1)
  }

  function AllUpdates<T>(frames: seq<Frame<T>>): seq<T> {
    if frames == [] || frames[0].Malformed? then [] else frames[0].updates + AllUpdates(frames[1..])
  }

  function Power(n: nat): nat { if n == 0 then 1 else 2 * Power(n - 1) }

  /** The seconds slept after `attempts` failures, none of them the last one. */
  function Backoff(base: real, attempts: nat): real {
    if attempts == 0 then 0.0 else Backoff(base, attempts - 1) + base * Power(attempts - 1) as real
  }

  class PublicMarketWebSocketClient {
    const maxReconnectAttempts: int
    const baseBackoffSeconds: real

    constructor (maxReconnectAttempts: int, baseBackoffSeconds: real)
      ensures this.maxReconnectAttempts == maxReconnectAttempts && this.baseBackoffSeconds == baseBackoffSeconds
    {
      this.maxReconnectAttempts := maxReconnectAttempts;
      this.baseBackoffSeconds := baseBackoffSeconds;
    }

    /** The inner loop over one open connection. */
    method ReceiveUpdates<T>(frames: seq<Frame<T>>, wanted: nat) returns (r: Yield<T>)
      ensures r == Receive(frames, wanted, [])
    {
      var updates: seq<T> := [];
      var i := 0;
      while |updates| < wanted
        invariant 0 <= i <= |frames|
        invariant Receive(frames, wanted, []) == Receive(frames[i..], wanted, updates)
        decreases |frames| - i
      {
        if i == |frames| { return Failed; }
        if frames[i].Malformed? { return Stopped(ParseError); }
        assert frames[i..][1..] == frames[i + 1..];
        updates := updates + frames[i].updates;
        i := i + 1;
      }
      r := Enough(updates[..wanted]);
    }

    /** `resolved` tells whether a connector is configured or its library can be imported. */
    method StreamMarket<T>(assetIds: seq<string>, wanted: int, resolved: bool, connections: seq<Connection<T>>)
      returns (r: Progress<T>, failed: nat, slept: real)
      ensures assetIds == [] ==> r == Finished(Err(NoAssets)) && failed == 0 && slept == 0.0
      ensures assetIds != [] && !resolved ==> r == Finished(Err(NoConnector)) && failed == 0 && slept == 0.0
      ensures assetIds != [] && resolved ==>
        && (r, failed) == Streaming(connections, wanted, maxReconnectAttempts, 0)
        && slept == Backoff(baseBackoffSeconds,
                            if r == Finished(Err(Unavailable)) && failed > 0 then failed - 1 else failed)
    {
      failed, slept := 0, 0.0;
      if assetIds == [] { return Finished(Err(NoAssets)), failed, slept; }
      if !resolved { return Finished(Err(NoConnector)), failed, slept; }
      var i := 0;
      while i < |connections|
        invariant 0 <= i <= |connections|
        invariant Streaming(connections[i..], wanted, maxReconnectAttempts, failed)
               == Streaming(connections, wanted, maxReconnectAttempts, 0)
        invariant slept == Backoff(baseBackoffSeconds, failed)
      {
        var connection := connections[i];
        assert connections[i..][1..] == connections[i + 1..];
        i := i + 1;
        if connection.MissingLibrary? { return Finished(Err(LibraryRequired)), failed, slept; }
        if connection.Accepted? {
          if wanted <= 0 { continue; }
          var outcome := ReceiveUpdates(connection.frames, wanted);
          StopsAreParseErrors(connection.frames, wanted, []);
          NeverNothing(connection.frames, wanted, []);
          if outcome.Enough? { return Finished(Ok(outcome.updates)), failed, slept; }
          if outcome.Stopped? { return Finished(Err(outcome.error)), failed, slept; }
        }
        failed := failed + 1;
        if failed >= maxReconnectAttempts { return Finished(Err(Unavailable)), failed, slept; }
        slept := slept + baseBackoffSeconds * Power(failed - 1) as real;
      }
      r := Connecting;
    }
  }

  /** A stream that wants messages ends within max(1, limit) connections, and every connection before the last failed:
      it succeeds with what its last connection yields, gives up after exactly that many failures, or stops at an error
      of its last connection. */
  lemma {:induction false} StreamEnds<T>(connections: seq<Connection<T>>, wanted: int, limit: int, failed: nat)
    requires wanted >= 1 && failed < MaxInt(1, limit)
    ensures var (r, total) := Streaming(connections, wanted, limit, failed); var used := total - failed;
      && 0 <= used <= |connections| && total <= MaxInt(1, limit)
      && (forall k :: 0 <= k < used ==> Attempt(connections[k], wanted) == Failed)
      && (r == Finished(Err(Unavailable)) <==> total == MaxInt(1, limit))
      && (r == Connecting <==> total < MaxInt(1, limit) && used == |connections|)
      && (total < MaxInt(1, limit) && r.Finished? ==>
            used < |connections|
            && Attempt(connections[used], wanted)
              == (if r.result.Ok? then Enough(r.result.value) else Stopped(r.result.error)))
    decreases |connections|
  {
    if connections != [] {
      if connections[0].Accepted? {
        StopsAreParseErrors(connections[0].frames, wanted, []);
        NeverNothing(connections[0].frames, wanted, []);
      }
      if Attempt(connections[0], wanted) == Failed && failed + 1 < limit {
        StreamEnds(connections[1..], wanted, limit, failed + 1);
        assert forall k :: 1 <= k < |connections| ==> connections[k] == connections[1..][k - 1];
      }
    }
  }

  /** A stream that wants no messages never succeeds: accepted connections are opened and closed without end and are not
      counted, so it ends only by failures or a missing library. */
  lemma {:induction false} NothingWantedNeverSucceeds<T>(connections: seq<Connection<T>>, wanted: int, limit: int,
                                                         failed: nat)
    requires wanted <= 0
    ensures var r := Streaming(connections, wanted, limit, failed).0;
      && (r.Finished? ==> r.result.Err?)
      && ((forall k :: 0 <= k < |connections| ==> connections[k].Accepted?) ==> r == Connecting)
    decreases |connections|
  {
    if connections != [] {
      NothingWantedNeverSucceeds(connections[1..], wanted, limit, failed);
      NothingWantedNeverSucceeds(connections[1..], wanted, limit, failed + 1);
    }
  }

  lemma {:induction false} NeverNothing<T>(frames: seq<Frame<T>>, wanted: nat, have: seq<T>)
    ensures Receive(frames, wanted, have) != Nothing
    decreases |frames|
  {
    if |have| < wanted && frames != [] && frames[0].Parsed? {
      NeverNothing(frames[1..], wanted, have + frames[0].updates);
    }
  }

  lemma {:induction false} StopsAreParseErrors<T>(frames: seq<Frame<T>>, wanted: nat, have: seq<T>)
    ensures Receive(frames, wanted, have).Stopped? ==> Receive(frames, wanted, have).error == ParseError
    decreases |frames|
  {
    if |have| < wanted && frames != [] && frames[0].Parsed? {
      StopsAreParseErrors(frames[1..], wanted, have + frames[0].updates);
    }
  }

  /** A successful stream is exactly the wanted number of updates, the first ones of a single connection: nothing kept
      from a connection that failed is mixed in. */
  lemma {:induction false} ReceivedIsPrefix<T>(frames: seq<Frame<T>>, wanted: nat, have: seq<T>)
    ensures var r := Receive(frames, wanted, have); var all := have + AllUpdates(frames);
      && (r.Enough? ==> |r.updates| == wanted && wanted <= |all| && r.updates == all[..wanted])
      && (r.Enough? <==> |all| >= wanted)
    decreases |frames|
  {
    var all := have + AllUpdates(frames);
    if |have| >= wanted {
      assert all[..wanted] == have[..wanted];
    } else if frames != [] && frames[0].Parsed? {
      ReceivedIsPrefix(frames[1..], wanted, have + frames[0].updates);
      assert have + frames[0].updates + AllUpdates(frames[1..]) == all;
    } else {
      assert all == have;
    }
  }

  predicate Broken<T>(frames: seq<Frame<T>>) { exists k :: 0 <= k < |frames| && frames[k].Malformed? }

  lemma BrokenRest<T>(frames: seq<Frame<T>>)
    requires frames != []
    ensures Broken(frames) <==> frames[0].Malformed? || Broken(frames[1..])
  {
    if Broken(frames[1..]) {
      var k :| 0 <= k < |frames| - 1 && frames[1..][k].Malformed?;
      assert frames[k + 1].Malformed?;
    }
    if Broken(frames) && frames[0].Parsed? {
      var k :| 0 <= k < |frames| && frames[k].Malformed?;
      assert frames[1..][k - 1].Malformed?;
    }
  }

  lemma {:induction false} ShortStops<T>(frames: seq<Frame<T>>, wanted: nat, have: seq<T>)
    requires |have + AllUpdates(frames)| < wanted
    ensures Receive(frames, wanted, have) == if Broken(frames) then Stopped(ParseError) else Failed
    decreases |frames|
  {
    if frames != [] {
      BrokenRest(frames);
      if frames[0].Parsed? {
        assert have + frames[0].updates + AllUpdates(frames[1..]) == have + AllUpdates(frames);
        ShortStops(frames[1..], wanted, have + frames[0].updates);
      }
    }
  }

  /** How a stream that wants messages ends within its first connection: with the wanted number of its first updates, if
      that many stand before any frame that does not parse; else with an error when the library is missing or such a
      frame came; else it goes on to the next connection, or gives up at the limit. */
  lemma FirstConnectionDecides<T>(connections: seq<Connection<T>>, wanted: int, limit: int, failed: nat)
    requires wanted >= 1 && connections != []
    ensures var c, r := connections[0], Streaming(connections, wanted, limit, failed);
      var updates := if c.Accepted? then AllUpdates(c.frames) else [];
      if |updates| >= wanted then r == (Finished(Ok(updates[..wanted])), failed)
      else if c.MissingLibrary? then r == (Finished(Err(LibraryRequired)), failed)
      else if c.Accepted? && Broken(c.frames) then r == (Finished(Err(ParseError)), failed)
      else if failed + 1 < limit then r == Streaming(connections[1..], wanted, limit, failed + 1)
      else r == (Finished(Err(Unavailable)), failed + 1)
  {
    var c := connections[0];
    if c.Accepted? {
      ReceivedIsPrefix(c.frames, wanted, []);
      assert [] + AllUpdates(c.frames) == AllUpdates(c.frames);
      if |AllUpdates(c.frames)| < wanted { ShortStops(c.frames, wanted, []); }
    }
  }

  /** The total wait doubles with every further failure: base * (2^failures - 1). */
  lemma {:induction false} BackoffIsGeometric(base: real, failures: nat)
    ensures Backoff(base, failures) == base * (Power(failures) - 1) as real
  {
    if failures > 0 {
      BackoffIsGeometric(base, failures - 1);
      Doubles(base, Power(failures - 1));
    }
  }

  lemma Doubles(base: real, p: int)
    ensures base * (p - 1) as real + base * p as real == base * (2 * p - 1) as real
  {
    var x := p as real;
    assert (p - 1) as real == x - 1.0 && (2 * p - 1) as real == 2.0 * x - 1.0;
  }
}
