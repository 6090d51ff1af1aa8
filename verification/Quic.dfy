/** src/anycorn/protocol/quic.py: the table that finds a QUIC connection by any of its ids, and the
    set of ids each connection keeps, which the events of aioquic change together. */
module QuicProtocols {
  import opened Common

  type Cid = Bytes

  class Connection {
    var cids: set<Cid>
    var closes: nat

    constructor (ids: set<Cid>)
      ensures cids == ids && closes == 0
    {
      cids := ids;
      closes := 0;
    }
  }

  datatype QuicEvent = Terminated | Issued(cid: Cid) | Retired(cid: Cid) | Other

  function IdsWith(cids: set<Cid>, event: QuicEvent): set<Cid> {
    match event
    case Terminated => {}
    case Issued(cid) => cids + {cid}
    case Retired(cid) => cids - {cid}
    case Other => cids
  }

  /** The ids a connection has after some events: what was issued and not taken back since. */
  function IdsAfter(cids: set<Cid>, events: seq<QuicEvent>): set<Cid> {
    if events == [] then cids else IdsWith(IdsAfter(cids, events[..|events| - 1]), events[|events| - 1])
  }

  lemma IdsAfterSnoc(cids: set<Cid>, events: seq<QuicEvent>, event: QuicEvent)
    ensures IdsAfter(cids, events + [event]) == IdsWith(IdsAfter(cids, events), event)
  {
    assert (events + [event])[..|events|] == events;
  }

  /** aioquic only retires an id it has issued, or the two the connection began with. */
  predicate RetiresHeld(cids: set<Cid>, events: seq<QuicEvent>) {
    forall k :: 0 <= k < |events| && events[k].Retired? ==> events[k].cid in IdsAfter(cids, events[..k])
  }

  /** An id is held exactly if its last mention issued it, or if it was there from the start and
      nothing has taken it back. */
  lemma {:induction false} IdsAfterMeans(cids: set<Cid>, events: seq<QuicEvent>, c: Cid)
    ensures c in IdsAfter(cids, events) <==>
      || (c in cids && forall k :: 0 <= k < |events| ==> events[k] != Retired(c) && events[k] != Terminated)
      || exists i :: 0 <= i < |events| && events[i] == Issued(c)
                     && forall k :: i < k < |events| ==> events[k] != Retired(c) && events[k] != Terminated
  {
    if events != [] {
      var n := |events| - 1;
      IdsAfterMeans(cids, events[..n], c);
      assert events[..n] + [events[n]] == events;
      if i :| 0 <= i < n && events[..n][i] == Issued(c)
              && forall k :: i < k < n ==> events[..n][k] != Retired(c) && events[..n][k] != Terminated {
        assert events[i] == Issued(c);
      }
      if i :| 0 <= i < |events| && events[i] == Issued(c)
              && forall k :: i < k < |events| ==> events[k] != Retired(c) && events[k] != Terminated {
        assert i < n ==> events[..n][i] == Issued(c);
      }
    }
  }

  /** An event and the connection whose loop takes it. */
  datatype Work = Work(conn: Connection, event: QuicEvent)

  /** The events of one connection, in order. */
  function EventsOf(work: seq<Work>, conn: Connection): seq<QuicEvent> {
    if work == [] then []
    else
      var last := work[|work| - 1];
      EventsOf(work[..|work| - 1], conn) + if last.conn == conn then [last.event] else []
  }

  lemma EventsOfNext(work: seq<Work>, n: nat, conn: Connection)
    requires n < |work|
    ensures EventsOf(work[..n + 1], conn)
         == if work[n].conn == conn then EventsOf(work[..n], conn) + [work[n].event] else EventsOf(work[..n], conn)
  {
    assert work[..n + 1][..n] == work[..n];
    assert EventsOf(work[..n], conn) + [] == EventsOf(work[..n], conn);
  }

  /** Where the next event of its connection stands among all of them. */
  lemma {:induction false} EventsOfPrefix(work: seq<Work>, n: nat, conn: Connection)
    requires n < |work| && work[n].conn == conn
    ensures
      var before := EventsOf(work[..n], conn);
      && |before| < |EventsOf(work, conn)|
      && EventsOf(work, conn)[|before|] == work[n].event && EventsOf(work, conn)[..|before|] == before
    decreases |work|
  {
    var m := |work| - 1;
    if n == m {
    } else {
      EventsOfPrefix(work[..m], n, conn);
      assert work[..m][..n] == work[..n];
    }
  }

  class QuicProtocol {
    var connections: map<Cid, Connection>
    /** Every connection ever accepted. */
    ghost var all: set<Connection>

    /** connections[c] is conn exactly if c is one of conn.cids. */
    ghost predicate Valid()
      reads this, all
    {
      && (forall c :: c in connections ==> connections[c] in all && c in connections[c].cids)
      && (forall conn, c :: conn in all && c in conn.cids ==> c in connections && connections[c] == conn)
    }

    ghost predicate Owned(owner: map<Cid, Connection>)
      reads this
    {
      forall c :: c in connections ==> c in owner && owner[c] == connections[c]
    }

    constructor ()
      ensures Valid() && connections == map[] && all == {}
    {
      connections := map[];
      all := {};
    }

    /** `handle(RawData)` up to the events: a first packet, long enough and while the worker is not
        stopping, makes a connection with two ids. The table stays sound exactly if the id
        that aioquic drew for it is new. */
    method Route(destination: Cid, hostCid: Cid, initial: bool, length: nat, stopping: bool) returns (conn: Connection?)
      requires Valid()
      modifies this
      ensures destination in old(connections) ==> conn == old(connections)[destination]
      ensures destination !in old(connections) ==> (conn != null <==> length >= 1200 && initial && !stopping)
      ensures destination in old(connections) || conn == null ==>
        Valid() && connections == old(connections) && all == old(all)
      ensures destination !in old(connections) && conn != null ==>
        && fresh(conn) && all == old(all) + {conn} && conn.cids == {destination, hostCid} && conn.closes == 0
        && connections == old(connections)[destination := conn][hostCid := conn]
        && (Valid() <==> hostCid !in old(connections))
    {
      conn := if destination in connections then connections[destination] else null;
      if conn == null && length >= 1200 && initial && !stopping {
        var made := new Connection({destination, hostCid});
        connections := connections[destination := made];
        connections := connections[hostCid := made];
        all := all + {made};
        conn := made;
        if hostCid in old(connections) {
          ghost var other := old(connections)[hostCid];
          assert other in all && hostCid in other.cids && connections[hostCid] != other;
        }
      }
    }

    /** The branch for ConnectionTerminated, once the timer is stopped. No `del` can miss. */
    method Terminate(conn: Connection)
      requires Valid() && conn in all
      modifies this`connections, conn`cids
      ensures Valid() && conn.cids == {} && connections == old(connections) - old(conn.cids)
      ensures forall c :: c in connections ==> connections[c] != conn
    {
      var left := conn.cids;
      while left != {}
        invariant left <= conn.cids == old(conn.cids)
        invariant connections == old(connections) - (conn.cids - left)
        decreases |left|
      {
        var cid :| cid in left;
        assert cid in connections;
        connections := connections - {cid};
        left := left - {cid};
      }
      conn.cids := {};
    }

    /** The branch for ConnectionIdIssued: the table stays sound exactly if no other connection has
        the id. */
    method Issue(conn: Connection, cid: Cid)
      requires Valid() && conn in all
      modifies this`connections, conn`cids
      ensures conn.cids == old(conn.cids) + {cid} && connections == old(connections)[cid := conn]
      ensures Valid() <==> cid !in old(connections) || old(connections)[cid] == conn
    {
      conn.cids := conn.cids + {cid};
      connections := connections[cid := conn];
      if cid in old(connections) && old(connections)[cid] != conn {
        ghost var other := old(connections)[cid];
        assert other in all && cid in other.cids && connections[cid] != other;
      }
    }

    /** The branch for ConnectionIdRetired. For an id the connection does not have `remove` raises;
        otherwise the `del` cannot miss. */
    method Retire(conn: Connection, cid: Cid) returns (raised: bool)
      requires Valid() && conn in all
      modifies this`connections, conn`cids
      ensures Valid() && (raised <==> cid !in old(conn.cids))
      ensures raised ==> connections == old(connections) && conn.cids == old(conn.cids)
      ensures !raised ==> connections == old(connections) - {cid} && conn.cids == old(conn.cids) - {cid}
    {
      if cid !in conn.cids {
        return true;
      }
      conn.cids := conn.cids - {cid};
      assert cid in connections;
      connections := connections - {cid};
      return false;
    }

    /** One turn of the loop of `_handle_events`: the table follows the ids of the connection, and no other
        connection notices. */
    method HandleEvent(conn: Connection, event: QuicEvent)
      requires Valid() && conn in all
      requires event.Retired? ==> event.cid in conn.cids
      requires event.Issued? && event.cid in connections ==> connections[event.cid] == conn
      modifies this`connections, conn`cids
      ensures Valid() && conn.cids == IdsWith(old(conn.cids), event)
      ensures forall c :: c in connections ==>
        || (c in old(connections) && old(connections)[c] == connections[c])
        || (connections[c] == conn && event == Issued(c))
      ensures forall c :: c in old(connections) && old(connections)[c] != conn ==>
        c in connections && connections[c] == old(connections)[c]
    {
      match event {
        case Terminated =>
          Terminate(conn);
        case Issued(cid) =>
          Issue(conn, cid);
        case Retired(cid) =>
          var raised := Retire(conn, cid);
        case Other =>
      }
    }

    /** Any interleaving of the loops of any connections, which suspend between the events: each connection
        ends up with the ids of its own events, and the table with all of them. `owner` says that no
        id is issued to two connections. */
    method HandleEvents(work: seq<Work>, ghost owner: map<Cid, Connection>)
      requires Valid() && Owned(owner)
      requires forall k :: 0 <= k < |work| ==> work[k].conn in all
      requires forall k :: 0 <= k < |work| && work[k].event.Issued? ==>
        work[k].event.cid in owner && owner[work[k].event.cid] == work[k].conn
      requires forall conn :: conn in all ==> RetiresHeld(conn.cids, EventsOf(work, conn))
      modifies this`connections, all`cids
      ensures Valid() && Owned(owner) && all == old(all)
      ensures forall conn :: conn in all ==> conn.cids == IdsAfter(old(conn.cids), EventsOf(work, conn))
    {
      var n := 0;
      while n < |work|
        invariant 0 <= n <= |work| && Valid() && Owned(owner) && all == old(all)
        invariant forall conn :: conn in all ==> conn.cids == IdsAfter(old(conn.cids), EventsOf(work[..n], conn))
      {
        var conn, event := work[n].conn, work[n].event;
        EventsOfPrefix(work, n, conn);
        HandleEvent(conn, event);
        IdsAfterSnoc(old(conn.cids), EventsOf(work[..n], conn), event);
        forall other | other in all
          ensures other.cids == IdsAfter(old(other.cids), EventsOf(work[..n + 1], other))
        {
          EventsOfNext(work, n, other);
        }
        n := n + 1;
      }
      assert work[..n] == work;
    }

    /** The dictionary keyed on identity that `close_all` walks. */
    method Distinct() returns (distinct: seq<Connection>)
      requires Valid()
      ensures forall i, j :: 0 <= i < j < |distinct| ==> distinct[i] != distinct[j]
      ensures forall conn :: conn in all ==> (conn in distinct <==> conn.cids != {})
      ensures forall i :: 0 <= i < |distinct| ==> distinct[i] in all
    {
      distinct := [];
      var left := connections.Keys;
      while left != {}
        invariant left <= connections.Keys
        invariant forall i, j :: 0 <= i < j < |distinct| ==> distinct[i] != distinct[j]
        invariant forall i :: 0 <= i < |distinct| ==> distinct[i] in all && distinct[i].cids != {}
        invariant forall c :: c in connections && c !in left ==> connections[c] in distinct
        decreases |left|
      {
        var c :| c in left;
        if connections[c] !in distinct {
          distinct := distinct + [connections[c]];
        }
        left := left - {c};
      }
      forall conn | conn in all && conn.cids != {} ensures conn in distinct {
        var c :| c in conn.cids;
        assert connections[c] == conn;
      }
    }

    /** `close_all`: every connection in the table is closed once, however many ids it has. */
    method CloseAll()
      requires Valid()
      modifies all
      ensures Valid() && connections == old(connections) && all == old(all)
      ensures forall conn :: conn in all ==> conn.cids == old(conn.cids)
      ensures forall conn :: conn in all ==> conn.closes == old(conn.closes) + if conn.cids != {} then 1 else 0
    {
      var distinct := Distinct();
      var n := 0;
      while n < |distinct|
        invariant 0 <= n <= |distinct| && all == old(all) && connections == old(connections)
        invariant forall conn :: conn in all ==> conn.cids == old(conn.cids)
        invariant forall conn :: conn in all ==>
          conn.closes == old(conn.closes) + if conn in distinct[..n] then 1 else 0
        modifies all
      {
        var conn := distinct[n];
        assert conn !in distinct[..n];
        assert distinct[..n + 1] == distinct[..n] + [conn];
        conn.closes := conn.closes + 1;
        n := n + 1;
      }
      assert distinct[..n] == distinct;
    }
  }

  /** Section 5.1 of RFC 9000: an id belongs to one connection. */
  lemma DistinctConnectionsShareNoId(q: QuicProtocol, a: Connection, b: Connection)
    requires q.Valid() && a in q.all && b in q.all && a != b
    ensures a.cids !! b.cids
  {
    forall c | c in a.cids ensures c !in b.cids {
      assert q.connections[c] == a;
    }
  }
}
