/**
 * `ClientManager`: the server's table of connected clients, keyed by ids it
 * hands out from a counter that starts at 1 and only goes up, and the
 * per-client bookkeeping its send operations keep.
 *
 * Sockets are plain handles; the outcome of a send is a parameter. Logging,
 * locking, the activity clock and the address lookup are not modelled.
 */
module ClientManagers {
  import opened Wrappers
  import opened Seqs

  /** An `sf::TcpSocket` the record holds (by handle). */
  datatype Socket = Socket(handle: nat)

  /** `sf::Socket::Status`. */
  datatype SendStatus = Done | NotReady | Partial | Disconnected | Error

  /** Every field of a client record the manager reads or writes. */
  datatype ClientView = ClientView(clientId: int, socket: Option<Socket>, authenticated: bool,
                                   username: string, pingMs: int, packetLoss: int, pendingDisconnect: bool)

  /** A digit character for `0 <= d < 10`. */
  function DigitChar(d: int): (ch: char)
    requires 0 <= d < 10
    ensures '0' <= ch <= '9'
    ensures ch as int - '0' as int == d
  {
    ('0' as int + d) as char
  }

  /** The number a string of decimal digits spells, most significant digit
      first. */
  function DigitsValue(s: string): int {
    if s == [] then 0 else 10 * DigitsValue(s[..|s| - 1]) + (s[|s| - 1] as int - '0' as int)
  }

  /** `std::to_string` of a non-negative integer: its decimal digits, which
      spell `n`, with no leading zero. */
  function Decimal(n: nat): (s: string)
    ensures |s| >= 1
    ensures forall k :: 0 <= k < |s| ==> '0' <= s[k] <= '9'
    ensures DigitsValue(s) == n
    ensures s[0] == '0' <==> n == 0
  {
    if n < 10 then [DigitChar(n)]
    else
      var front := Decimal(n / 10);
      var s := front + [DigitChar(n % 10)];
      assert s[..|s| - 1] == front;
      s
  }

  /** `std::to_string` of any `int`. */
  function IntToString(n: int): string {
    if n < 0 then "-" + Decimal(-n) else Decimal(n)
  }

  /** The record a new client gets: not authenticated, named after its id,
      with no ping, no packet loss and no pending disconnect. */
  function NewClient(id: int, sock: Option<Socket>): (r: ClientView)
    ensures r.clientId == id && r.socket == sock
    ensures !r.authenticated && !r.pendingDisconnect && r.pingMs == 0 && r.packetLoss == 0
    ensures |r.username| > 7 && r.username[..7] == "Player_"
  {
    ClientView(id, sock, false, "Player_" + IntToString(id), 0, 0, false)
  }

  /** The record after one send with outcome `s`. */
  function AfterSend(v: ClientView, s: SendStatus): (r: ClientView)
    ensures s == Done ==> r == v
    ensures s != Done ==> r.packetLoss == v.packetLoss + 1
    ensures r.pendingDisconnect <==> v.pendingDisconnect || s == Disconnected
    ensures r.(packetLoss := v.packetLoss, pendingDisconnect := v.pendingDisconnect) == v
  {
    if s == Done then v
    else v.(packetLoss := v.packetLoss + 1, pendingDisconnect := v.pendingDisconnect || s == Disconnected)
  }

  /** Broadcasting reaches only authenticated clients that have a socket. */
  function AfterBroadcast(v: ClientView, s: SendStatus): (r: ClientView)
    ensures v.socket.Some? && v.authenticated ==> r == AfterSend(v, s)
    ensures !(v.socket.Some? && v.authenticated) ==> r == v
  {
    if v.socket.Some? && v.authenticated then AfterSend(v, s) else v
  }

  /** A broadcast never lowers the loss count and never clears a pending
      disconnect, whatever the outcome. */
  lemma BroadcastMonotone(v: ClientView, s: SendStatus)
    ensures AfterBroadcast(v, s).packetLoss >= v.packetLoss
    ensures v.pendingDisconnect ==> AfterBroadcast(v, s).pendingDisconnect
    ensures AfterBroadcast(v, s).clientId == v.clientId && AfterBroadcast(v, s).socket == v.socket
  {
  }

  class ClientManager {
    /** The records, held by value: the source's `ClientData*` entries are
        owned by this table and changed only through it here. */
    var clients: map<int, ClientView>
    var nextClientId: int

    /** Every record sits under its own id, and every id in use was issued
        before the counter's current value. */
    ghost predicate Valid()
      reads this
    {
      nextClientId >= 1
      && forall id :: id in clients ==> 1 <= id < nextClientId && clients[id].clientId == id
    }

    constructor ()
      ensures Valid() && clients == map[] && nextClientId == 1
    {
      clients := map[];
      nextClientId := 1;
    }

    /** Issues the next id, which no client has held before, and files a new
        record for `sock` under it. */
    method AddClient(sock: Option<Socket>) returns (id: int)
      requires Valid()
      modifies this
      ensures Valid()
      ensures id == old(nextClientId) && nextClientId == id + 1
      ensures id !in old(clients)
      ensures clients == old(clients)[id := NewClient(id, sock)]
    {
      id := nextClientId;
      nextClientId := nextClientId + 1;
      clients := clients[id := NewClient(id, sock)];
    }

    /** Deletes the record under `id`, if there is one. */
    method RemoveClient(id: int)
      requires Valid()
      modifies this
      ensures Valid()
      ensures clients == old(clients) - {id}
      ensures nextClientId == old(nextClientId)
    {
      if id in clients {
        clients := clients - {id};
      }
    }

    /** The ids in use, in increasing order. */
    method GetClientIds() returns (ids: seq<int>)
      ensures forall i, j :: 0 <= i < j < |ids| ==> ids[i] < ids[j]
      ensures forall id :: id in ids <==> id in clients
    {
      var keys := KeysInOrder(clients.Keys);
      ids := [];
      var i := 0;
      while i < |keys|
        invariant i <= |keys|
        invariant ids == keys[..i]
      {
        assert keys[..i + 1] == keys[..i] + [keys[i]];
        ids := ids + [keys[i]];
        i := i + 1;
      }
      assert keys[..i] == keys;
    }

    /** The record under `id`, or nothing. */
    method GetClient(id: int) returns (c: Option<ClientView>)
      ensures id in clients ==> c == Some(clients[id])
      ensures id !in clients ==> c == None
    {
      c := if id in clients then Some(clients[id]) else None;
    }

    method GetClientCount() returns (n: int)
      ensures n == |clients.Keys|
    {
      n := |clients.Keys|;
    }

    /** Sends to every authenticated client with a socket, in id order;
        `outcome(id)` is what the send to client `id` returns. */
    method SendToAll(outcome: int -> SendStatus)
      requires Valid()
      modifies this
      ensures Valid() && nextClientId == old(nextClientId)
      ensures clients.Keys == old(clients.Keys)
      ensures forall id :: id in clients ==> clients[id] == AfterBroadcast(old(clients[id]), outcome(id))
    {
      var keys := KeysInOrder(clients.Keys);
      var table := clients;
      var i := 0;
      while i < |keys|
        invariant i <= |keys|
        invariant table.Keys == clients.Keys
        invariant forall k :: 0 <= k < i ==> table[keys[k]] == AfterBroadcast(clients[keys[k]], outcome(keys[k]))
        invariant forall k :: i <= k < |keys| ==> table[keys[k]] == clients[keys[k]]
      {
        var id := keys[i];
        assert forall k :: 0 <= k < |keys| && k != i ==> keys[k] != id;
        table := table[id := AfterBroadcast(table[id], outcome(id))];
        i := i + 1;
      }
      forall id | id in table
        ensures table[id] == AfterBroadcast(clients[id], outcome(id))
      {
        var k :| 0 <= k < |keys| && keys[k] == id;
      }
      clients := table;
    }

    /** Sends to one client, if it is in the table and has a socket (it need
        not be authenticated); `status` is what that send returns. */
    method SendTo(id: int, status: SendStatus)
      requires Valid()
      modifies this
      ensures Valid() && nextClientId == old(nextClientId)
      ensures id in old(clients) && old(clients[id]).socket.Some? ==>
                clients == old(clients)[id := AfterSend(old(clients[id]), status)]
      ensures !(id in old(clients) && old(clients[id]).socket.Some?) ==> clients == old(clients)
    {
      if id in clients && clients[id].socket.Some? {
        clients := clients[id := AfterSend(clients[id], status)];
      }
    }
  }
}
