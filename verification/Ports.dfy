/** The recorder's list of input ports: one is always left free at the end. */
module Ports {
  import opened Bytes
  import opened Descriptors

  /** How many ports onDisconnected keeps, given which ports are connected: a free last port is
      removed while the port before it is free as well. */
  function Kept(connected: seq<bool>): (n: nat)
    ensures n <= |connected|
    ensures connected != [] ==> n >= 1
  {
    if |connected| >= 2 && !connected[|connected| - 1] && !connected[|connected| - 2]
    then Kept(connected[..|connected| - 1])
    else |connected|
  }

  /** The port that is free for the next connection. */
  predicate LastFree(connected: seq<bool>) {
    connected != [] && !connected[|connected| - 1]
  }

  /** What one turn of the trimming loop decides. */
  lemma KeptStep(connected: seq<bool>, n: nat)
    requires 2 <= n <= |connected|
    ensures Kept(connected[..n]) == if connected[n - 1] || connected[n - 2] then n else Kept(connected[..n - 1])
  {
    assert connected[..n][..n - 1] == connected[..n - 1];
  }

  /** Trimming keeps a free last port, stops at a single port or a connected neighbour, and removes
      only free ports. */
  lemma {:induction false} KeptIsTrimmed(connected: seq<bool>)
    requires LastFree(connected)
    ensures var n := Kept(connected);
            && LastFree(connected[..n])
            && (n == 1 || connected[n - 2])
            && (forall i :: n <= i < |connected| ==> !connected[i])
  {
    if |connected| >= 2 && !connected[|connected| - 2] {
      var shorter := connected[..|connected| - 1];
      KeptIsTrimmed(shorter);
      assert connected[..Kept(shorter)] == shorter[..Kept(shorter)];
    } else {
      assert connected[..|connected|] == connected;
    }
  }

  datatype Port = Port(id: nat, connection: Option<Signal>)

  function Flags(ports: seq<Port>): (r: seq<bool>)
    ensures |r| == |ports|
  {
    seq(|ports|, i requires 0 <= i < |ports| => ports[i].connection.Some?)
  }

  function Trimmed(ports: seq<Port>): seq<Port> {
    ports[..Kept(Flags(ports))]
  }

  function SetConnection(ports: seq<Port>, id: nat, connection: Option<Signal>): (r: seq<Port>)
    ensures |r| == |ports|
  {
    seq(|ports|, i requires 0 <= i < |ports| => if ports[i].id == id then ports[i].(connection := connection)
        else ports[i])
  }

  ghost predicate HasPort(ports: seq<Port>, id: nat) {
    exists i :: 0 <= i < |ports| && ports[i].id == id
  }

  ghost predicate Connected(ports: seq<Port>, id: nat) {
    exists i :: 0 <= i < |ports| && ports[i].id == id && ports[i].connection.Some?
  }

  ghost predicate ConnectedTo(ports: seq<Port>, id: nat, signal: Signal) {
    exists i :: 0 <= i < |ports| && ports[i].id == id && ports[i].connection == Some(signal)
  }

  /** Ports are distinct objects, and the last one is free. */
  ghost predicate PortsInv(ports: seq<Port>, nextPort: nat) {
    && LastFree(Flags(ports))
    && (forall i :: 0 <= i < |ports| ==> ports[i].id < nextPort)
    && (forall i, j :: 0 <= i < j < |ports| ==> ports[i].id != ports[j].id)
  }

  /** A connection adds a free port. */
  lemma ConnectKeepsPorts(ports: seq<Port>, nextPort: nat, id: nat, signal: Signal)
    requires PortsInv(ports, nextPort)
    ensures PortsInv(SetConnection(ports, id, Some(signal)) + [Port(nextPort, None)], nextPort + 1)
  {
  }

  /** A disconnection trims the list. */
  lemma DisconnectKeepsPorts(ports: seq<Port>, nextPort: nat, id: nat)
    requires PortsInv(ports, nextPort)
    ensures var after := Trimmed(SetConnection(ports, id, None));
            && PortsInv(after, nextPort)
            && (|after| == 1 || after[|after| - 2].connection.Some?)
            && (forall x :: Connected(after, x) <==> x != id && Connected(ports, x))
            && (forall x, s :: ConnectedTo(after, x, s) <==> x != id && ConnectedTo(ports, x, s))
  {
    var cut := SetConnection(ports, id, None);
    var after := Trimmed(cut);
    assert Flags(cut)[|cut| - 1] == false;
    KeptIsTrimmed(Flags(cut));
    assert Flags(after) == Flags(cut)[..|after|];
    forall x, s ensures ConnectedTo(after, x, s) <==> x != id && ConnectedTo(ports, x, s) {
      if x != id && ConnectedTo(ports, x, s) {
        var i :| 0 <= i < |ports| && ports[i].id == x && ports[i].connection == Some(s);
        assert Flags(cut)[i];
        assert after[i].id == x && after[i].connection == Some(s);
      }
      if ConnectedTo(after, x, s) {
        var i :| 0 <= i < |after| && after[i].id == x && after[i].connection == Some(s);
        assert cut[i].connection == Some(s);
        assert ports[i].id == x && ports[i].connection == Some(s);
      }
    }
    forall x ensures Connected(after, x) <==> x != id && Connected(ports, x) {
      ConnectedIsTo(after, x);
      ConnectedIsTo(ports, x);
    }
  }

  lemma ConnectedIsTo(ports: seq<Port>, x: nat)
    ensures Connected(ports, x) <==> exists s :: ConnectedTo(ports, x, s)
  {
    if Connected(ports, x) {
      var i :| 0 <= i < |ports| && ports[i].id == x && ports[i].connection.Some?;
      assert ConnectedTo(ports, x, ports[i].connection.value);
    }
    if exists s :: ConnectedTo(ports, x, s) {
      var s :| ConnectedTo(ports, x, s);
      var i :| 0 <= i < |ports| && ports[i].id == x && ports[i].connection == Some(s);
      assert ports[i].connection.Some?;
    }
  }

  lemma SetConnectionIs(ports: seq<Port>, nextPort: nat, id: nat, signal: Signal, added: Port)
    requires added.connection == None
    ensures var after := SetConnection(ports, id, Some(signal)) + [added];
            && (forall x :: Connected(after, x) <==> Connected(ports, x) || (x == id && HasPort(ports, id)))
            && (forall x, s :: x != id ==> (ConnectedTo(after, x, s) <==> ConnectedTo(ports, x, s)))
            && (forall s :: ConnectedTo(after, id, s) <==> s == signal && HasPort(ports, id))
  {
    var after := SetConnection(ports, id, Some(signal)) + [added];
    forall x, s | x != id ensures ConnectedTo(after, x, s) <==> ConnectedTo(ports, x, s) {
      if ConnectedTo(ports, x, s) {
        var i :| 0 <= i < |ports| && ports[i].id == x && ports[i].connection == Some(s);
        assert after[i].id == x && after[i].connection == Some(s);
      }
      if ConnectedTo(after, x, s) {
        var i :| 0 <= i < |after| && after[i].id == x && after[i].connection == Some(s);
        assert ports[i].id == x && ports[i].connection == Some(s);
      }
    }
    forall s ensures ConnectedTo(after, id, s) <==> s == signal && HasPort(ports, id) {
      if HasPort(ports, id) {
        var i :| 0 <= i < |ports| && ports[i].id == id;
        assert after[i].id == id && after[i].connection == Some(signal);
      }
      if ConnectedTo(after, id, s) {
        var i :| 0 <= i < |after| && after[i].id == id && after[i].connection == Some(s);
        assert ports[i].id == id;
      }
    }
    forall x ensures Connected(after, x) <==> Connected(ports, x) || (x == id && HasPort(ports, id)) {
      ConnectedIsTo(after, x);
      ConnectedIsTo(ports, x);
      if x == id && HasPort(ports, id) {
        assert ConnectedTo(after, id, signal);
      }
      if x == id && Connected(ports, x) {
        var i :| 0 <= i < |ports| && ports[i].id == x && ports[i].connection.Some?;
        assert HasPort(ports, id);
      }
    }
  }
}
