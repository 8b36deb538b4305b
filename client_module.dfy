/**
  `ClientModule` (`ClientModule.py`, and the older `Client.py`, whose two
  handlers are the same code with the first argument named `host`): the
  table of UDP subscribers keyed by `(ip, port)` exactly as received.

  Both handlers first build the debug text `ip + ':' + port`, which raises
  `TypeError` unless both arguments are strings. `add_client` then builds a
  `udp_client.SimpleUDPClient`, but neither file imports `udp_client`: as
  written, adding a new subscriber raises `NameError` and the table never
  grows. `AddClientAsWritten` models that; `AddClientAt` is the intended
  handler, the one the rest of the model uses.
 */
module ClientHandlers {
  import opened Wrappers
  import opened Registry
  import opened Fleet
  import opened FleetServer

  /** `ip + ':' + port` succeeds only on two strings. */
  predicate Concatenable(ip: PyVal, port: PyVal) {
    ip.Str? && port.Str?
  }

  /** `add_client` as written: the insertion reaches the undefined name `udp_client`. */
  function AddClientAsWritten(f: Fleet, ip: PyVal, port: PyVal): (r: Ran)
    ensures r.f == f
    ensures r.raised.None? <==> Concatenable(ip, port) && (ip, port) in f.clients
  {
    if !Concatenable(ip, port) then Ran(f, Some(TypeError))
    else if (ip, port) !in f.clients then Ran(f, Some(NameError))
    else Ran(f, None)
  }

  /**
    `add_client` as intended: a new `(ip, port)` gets a UDP client for that
    address, an existing one is left alone.
   */
  function AddClientAt(f: Fleet, ip: PyVal, port: PyVal): (r: Ran)
    ensures r.raised.Some? <==> !Concatenable(ip, port)
    ensures r.raised.Some? ==> r == Ran(f, Some(TypeError))
    ensures r.raised.None? ==>
      r.f == f.(clients := r.f.clients)
      && (ip, port) in r.f.clients && r.f.clients.Keys == f.clients.Keys + {(ip, port)}
      && forall k :: k in f.clients ==> r.f.clients[k] == f.clients[k]
    ensures r.raised.None? && (ip, port) !in f.clients ==> r.f.clients[(ip, port)] == UdpClient(ip, port)
  {
    if !Concatenable(ip, port) then Ran(f, Some(TypeError))
    else if (ip, port) !in f.clients then Ran(f.(clients := f.clients[(ip, port) := UdpClient(ip, port)]), None)
    else Ran(f, None)
  }

  /** `remove_client`: the subscriber is deleted if present; otherwise nothing changes. */
  function RemoveClientAt(f: Fleet, ip: PyVal, port: PyVal): (r: Ran)
    ensures r.raised.Some? <==> !Concatenable(ip, port)
    ensures r.raised.Some? ==> r == Ran(f, Some(TypeError))
    ensures r.raised.None? ==> r.f == f.(clients := f.clients - {(ip, port)})
    ensures r.raised.None? && (ip, port) !in f.clients ==> r.f == f
  {
    if !Concatenable(ip, port) then Ran(f, Some(TypeError))
    else if (ip, port) in f.clients then Ran(f.(clients := f.clients - {(ip, port)}), None)
    else Ran(f, None)
  }

  /** As written, no message ever adds a subscriber, and a new address always raises. */
  lemma AddClientNeverAddsAsWritten(f: Fleet, ip: PyVal, port: PyVal)
    ensures AddClientAsWritten(f, ip, port).f.clients == f.clients
    ensures Concatenable(ip, port) && (ip, port) !in f.clients ==>
      AddClientAsWritten(f, ip, port).raised == Some(NameError)
      && (ip, port) in AddClientAt(f, ip, port).f.clients
  {
  }

  /** Adding twice is adding once. */
  lemma AddClientIdempotent(f: Fleet, ip: PyVal, port: PyVal)
    ensures var once := AddClientAt(f, ip, port).f;
      AddClientAt(once, ip, port) == Ran(once, if Concatenable(ip, port) then None else Some(TypeError))
  {
  }

  /** Adding a new subscriber and removing it again gives back the table there was. */
  lemma AddThenRemoveClient(f: Fleet, ip: PyVal, port: PyVal)
    requires Concatenable(ip, port) && (ip, port) !in f.clients
    ensures RemoveClientAt(AddClientAt(f, ip, port).f, ip, port) == Ran(f, None)
  {
    var g := AddClientAt(f, ip, port).f;
    assert g.clients - {(ip, port)} == f.clients;
  }

  /** Removing a subscriber and adding it back gives a fresh client for the same address. */
  lemma RemoveThenAddClient(f: Fleet, ip: PyVal, port: PyVal)
    requires Concatenable(ip, port) && (ip, port) in f.clients
    ensures var g := AddClientAt(RemoveClientAt(f, ip, port).f, ip, port).f;
      g == f.(clients := f.clients[(ip, port) := UdpClient(ip, port)])
  {
    var h := RemoveClientAt(f, ip, port).f;
    assert h.clients[(ip, port) := UdpClient(ip, port)] == f.clients[(ip, port) := UdpClient(ip, port)];
  }

  // ---------------------------------------------------------------------
  // The same handlers as methods on the server

  method AddClientOn(srv: Server, ip: PyVal, port: PyVal) returns (raised: Option<Exc>)
    modifies srv
    ensures Ran(srv.Snap(), raised) == AddClientAt(old(srv.Snap()), ip, port)
    ensures srv.Routing() == old(srv.Routing())
  {
    if !Concatenable(ip, port) {
      return Some(TypeError);
    }
    if (ip, port) !in srv.clients {
      srv.clients := srv.clients[(ip, port) := UdpClient(ip, port)];
    }
    raised := None;
  }

  method RemoveClientOn(srv: Server, ip: PyVal, port: PyVal) returns (raised: Option<Exc>)
    modifies srv
    ensures Ran(srv.Snap(), raised) == RemoveClientAt(old(srv.Snap()), ip, port)
    ensures srv.Routing() == old(srv.Routing())
  {
    if !Concatenable(ip, port) {
      return Some(TypeError);
    }
    if (ip, port) in srv.clients {
      srv.clients := srv.clients - {(ip, port)};
    }
    raised := None;
  }
}
