/** The hub of internal/relay/hub.go: which client serves which token. The functions say
    what each lock section does to the map; the transition system uses them too. */
module Hub {
  import opened Wrappers
  import WSClient

  /** Register: the new client takes the token's place. */
  function Registered<C>(clients: map<string, C>, token: string, client: C): map<string, C> {
    clients[token := client]
  }

  /** The closure Register returns: it removes the entry only if it is still this client. */
  function Unregistered<C(==)>(clients: map<string, C>, token: string, client: C): map<string, C> {
    if token in clients && clients[token] == client then clients - {token} else clients
  }

  function Current<C>(clients: map<string, C>, token: string): Option<C> {
    if token in clients then Some(clients[token]) else None
  }

  class Hub {
    var clients: map<string, WSClient.Client>

    constructor ()
      ensures clients == map[]
    {
      clients := map[];
    }

    /** The displaced client, if any, is closed after the lock is released. */
    method Register(token: string, client: WSClient.Client)
      requires token in clients ==> clients[token].Valid()
      modifies this, if token in clients then {clients[token]} else {}
      ensures clients == Registered(old(clients), token, client) == old(clients)[token := client]
      ensures token in old(clients) ==> old(clients)[token].closed && old(clients)[token].pending == map[]
    {
      var displaced := Current(clients, token);
      clients := clients[token := client];
      if displaced.Some? { displaced.value.ClosePending(); }
    }

    method Unregister(token: string, client: WSClient.Client)
      modifies this
      ensures clients == Unregistered(old(clients), token, client)
      ensures clients == if token in old(clients) && old(clients)[token] == client then old(clients) - {token}
                         else old(clients)
      ensures forall t | t in old(clients) && old(clients)[t] != client :: t in clients && clients[t] == old(clients)[t]
    {
      if token in clients && clients[token] == client { clients := clients - {token}; }
    }

    /** The section of Forward that picks the client. */
    method Lookup(token: string) returns (client: Option<WSClient.Client>)
      ensures client == Current(clients, token)
    {
      client := if token in clients then Some(clients[token]) else None;
    }

    method Disconnect(token: string)
      requires token in clients ==> clients[token].Valid()
      modifies this, if token in clients then {clients[token]} else {}
      ensures clients == old(clients) - {token}
      ensures token in old(clients) ==> old(clients)[token].closed && old(clients)[token].pending == map[]
    {
      var client := Current(clients, token);
      clients := clients - {token};
      if client.Some? { client.value.ClosePending(); }
    }

    method Connected(token: string) returns (yes: bool)
      ensures yes <==> Current(clients, token).Some?
    {
      yes := token in clients;
    }
  }
}
