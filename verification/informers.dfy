/** Watch streams: a cache that lags behind the API server by the events not yet
    delivered to it. */
module Informers {
  import opened Kube

  datatype Event<V> = Put(key: Key, value: V) | Gone(key: Key)

  function Apply<V>(m: map<Key, V>, e: Event<V>): map<Key, V> {
    match e
    case Put(k, v) => m[k := v]
    case Gone(k) => m - {k}
  }

  function Replay<V>(m: map<Key, V>, es: seq<Event<V>>): map<Key, V>
    decreases |es|
  {
    if es == [] then m else Replay(Apply(m, es[0]), es[1..])
  }

  lemma {:induction false} ReplayAppend<V>(m: map<Key, V>, es: seq<Event<V>>, e: Event<V>)
    ensures Replay(m, es + [e]) == Apply(Replay(m, es), e)
    decreases |es|
  {
    if es == [] {
      assert es + [e] == [e];
    } else {
      assert (es + [e])[1..] == es[1..] + [e];
      ReplayAppend(Apply(m, es[0]), es[1..], e);
    }
  }

  /** `replaying` counts the undelivered events of the initial listing. */
  datatype Informer<V> = Informer(cache: map<Key, V>, pending: seq<Event<V>>, replaying: nat) {

    function Push(e: Event<V>): Informer<V> {
      this.(pending := pending + [e])
    }

    function Deliver(): Informer<V>
      requires pending != []
    {
      Informer(Apply(cache, pending[0]), pending[1..], if replaying == 0 then 0 else replaying - 1)
    }

    ghost predicate Follows(server: map<Key, V>) {
      Replay(cache, pending) == server
    }
  }

  /** A listing presents every stored object, in some order, as a creation. */
  predicate IsListing<V(==)>(server: map<Key, V>, es: seq<Event<V>>) {
    && (forall i :: 0 <= i < |es| ==> es[i].Put? && es[i].key in server && es[i].value == server[es[i].key])
    && (forall k :: k in server ==> Put(k, server[k]) in es)
  }

  /** Replaying part of a listing onto part of the server's content gives the
      part, extended by the keys listed. */
  lemma {:induction false} ListingPart<V>(server: map<Key, V>, part: map<Key, V>, es: seq<Event<V>>)
    requires part.Keys <= server.Keys && forall k :: k in part ==> part[k] == server[k]
    requires forall i :: 0 <= i < |es| ==> es[i].Put? && es[i].key in server && es[i].value == server[es[i].key]
    requires forall k :: k in server ==> k in part || Put(k, server[k]) in es
    ensures Replay(part, es) == server
    decreases |es|
  {
    if es == [] {
      assert part == server;
    } else {
      var next := Apply(part, es[0]);
      forall k | k in server
        ensures k in next || Put(k, server[k]) in es[1..]
      {
        assert Put(k, server[k]) in es ==> Put(k, server[k]) == es[0] || Put(k, server[k]) in es[1..];
      }
      ListingPart(server, next, es[1..]);
    }
  }

  /** A listing rebuilds the whole server state from an empty cache. */
  lemma ListingReplays<V>(server: map<Key, V>, es: seq<Event<V>>)
    requires IsListing(server, es)
    ensures Replay(map[], es) == server
  {
    ListingPart(server, map[], es);
  }

  /** Every server state has a listing. */
  lemma {:induction false} ListingExists<V>(server: map<Key, V>) returns (es: seq<Event<V>>)
    ensures IsListing(server, es)
    decreases |server|
  {
    if server == map[] {
      es := [];
    } else {
      var k :| k in server;
      var rest := server - {k};
      assert rest.Keys == server.Keys - {k};
      var tail := ListingExists(rest);
      es := [Put(k, server[k])] + tail;
      forall j | j in server
        ensures Put(j, server[j]) in es
      {
        assert j != k ==> j in rest && Put(j, rest[j]) in tail;
      }
    }
  }
}
