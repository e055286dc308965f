/**
 * The subscriber registry shared by the three instruments. Observers (a UI
 * component's `onPress`/`onRelease` pair) are registered under a caller-chosen
 * id; the registry keeps the key order of a JavaScript object: an id keeps its
 * place when it is overwritten, a new id goes last, a deleted id goes away.
 * A press or release calls every registered observer once, in that order; the
 * model records each call in a log.
 */
module Observers {
  import opened Wrappers
  import opened Keys

  /** A caller's observer, known to the model by an opaque handle. */
  datatype Observer = Observer(handle: nat)

  datatype KeyEvent = Pressed(key: Key) | Released(key: Key)

  /** One callback invocation: the observer registered under `id` was told `event`. */
  datatype Call = Call(id: string, observer: Observer, event: KeyEvent)

  datatype Entry = Entry(id: string, observer: Observer)

  /** The subscribers record, entries in key order. */
  type Registry = seq<Entry>

  /** No id is registered twice. */
  ghost predicate Valid(r: Registry) {
    forall i, j :: 0 <= i < j < |r| ==> r[i].id != r[j].id
  }

  /** The ids in key order (`Object.keys`). */
  function Ids(r: Registry): (ids: seq<string>)
    ensures |ids| == |r|
    ensures forall i :: 0 <= i < |r| ==> ids[i] == r[i].id
  {
    if r == [] then [] else [r[0].id] + Ids(r[1..])
  }

  /** The observer registered under `id` (`subscribers[id]`). */
  function Lookup(r: Registry, id: string): (o: Option<Observer>)
    ensures o.None? <==> forall i :: 0 <= i < |r| ==> r[i].id != id
    ensures o.Some? ==> Entry(id, o.value) in r
  {
    if r == [] then None
    else if r[0].id == id then Some(r[0].observer)
    else Lookup(r[1..], id)
  }

  /** `subscribers[id] = observer`: the last registration for an id wins. */
  function Put(r: Registry, id: string, observer: Observer): (r': Registry)
    ensures Lookup(r', id) == Some(observer)
    ensures forall other :: other != id ==> Lookup(r', other) == Lookup(r, other)
  {
    if r == [] then [Entry(id, observer)]
    else if r[0].id == id then [Entry(id, observer)] + r[1..]
    else [r[0]] + Put(r[1..], id, observer)
  }

  /** `delete subscribers[id]`: that id goes, every other registration stays. */
  function Delete(r: Registry, id: string): (r': Registry)
    ensures Lookup(r', id) == None
    ensures forall other :: other != id ==> Lookup(r', other) == Lookup(r, other)
    ensures Lookup(r, id) == None ==> r' == r
  {
    if r == [] then []
    else if r[0].id == id then Delete(r[1..], id)
    else [r[0]] + Delete(r[1..], id)
  }

  /** The calls made by telling every registered observer `event`, in key order. */
  function Broadcast(r: Registry, event: KeyEvent): (calls: seq<Call>) {
    if r == [] then [] else [Call(r[0].id, r[0].observer, event)] + Broadcast(r[1..], event)
  }

  /** How many of `calls` went to the observer registered under `id`. */
  function CallsTo(calls: seq<Call>, id: string): nat {
    if calls == [] then 0
    else (if calls[0].id == id then 1 else 0) + CallsTo(calls[1..], id)
  }

  /**
   * `Object.values(subscribers).forEach(s => s.onPress(key))` (or `onRelease`):
   * the calls made, in order.
   */
  method NotifyAll(r: Registry, event: KeyEvent) returns (calls: seq<Call>)
    ensures calls == Broadcast(r, event)
  {
    calls := [];
    var i := 0;
    while i < |r|
      invariant 0 <= i <= |r|
      invariant calls == Broadcast(r[..i], event)
    {
      BroadcastAppend(r[..i], r[i], event);
      assert r[..i + 1] == r[..i] + [r[i]];
      calls := calls + [Call(r[i].id, r[i].observer, event)];
      i := i + 1;
    }
    assert r[..i] == r;
  }

  // ---------------------------------------------------------------------------
  // Properties

  lemma {:induction false} BroadcastAppend(r: Registry, e: Entry, event: KeyEvent)
    ensures Broadcast(r + [e], event) == Broadcast(r, event) + [Call(e.id, e.observer, event)]
  {
    if r != [] {
      assert (r + [e])[1..] == r[1..] + [e];
      BroadcastAppend(r[1..], e, event);
    }
  }

  /** In a registry without repeated ids, an entry's id looks up its own observer. */
  lemma {:induction false} LookupAt(r: Registry, i: nat)
    requires Valid(r) && i < |r|
    ensures Lookup(r, r[i].id) == Some(r[i].observer)
  {
    if i > 0 {
      assert r[i].id != r[0].id;
      assert Valid(r[1..]);
      LookupAt(r[1..], i - 1);
    }
  }

  /** A broadcast makes one call per registered observer, in key order. */
  lemma {:induction false} BroadcastOrder(r: Registry, event: KeyEvent)
    ensures |Broadcast(r, event)| == |r|
    ensures forall i :: 0 <= i < |r| ==> Broadcast(r, event)[i] == Call(r[i].id, r[i].observer, event)
  {
    if r != [] {
      BroadcastOrder(r[1..], event);
    }
  }

  /** Each call of a broadcast carries the event and the observer registered under its id. */
  lemma BroadcastCalls(r: Registry, event: KeyEvent)
    requires Valid(r)
    ensures forall c :: c in Broadcast(r, event) ==> c.event == event && Lookup(r, c.id) == Some(c.observer)
  {
    BroadcastOrder(r, event);
    forall c | c in Broadcast(r, event)
      ensures c.event == event && Lookup(r, c.id) == Some(c.observer)
    {
      var i :| 0 <= i < |r| && Broadcast(r, event)[i] == c;
      LookupAt(r, i);
    }
  }

  /** Every registered observer is called exactly once, and no one else is called. */
  lemma {:induction false} BroadcastExactlyOnce(r: Registry, event: KeyEvent, id: string)
    requires Valid(r)
    ensures CallsTo(Broadcast(r, event), id) == if Lookup(r, id).Some? then 1 else 0
  {
    if r != [] {
      BroadcastExactlyOnce(r[1..], event, id);
      if r[0].id == id {
        assert Lookup(r[1..], id) == None by {
          forall i | 0 <= i < |r[1..]| ensures r[1..][i].id != id {
            assert r[i + 1].id != r[0].id;
          }
        }
      }
    }
  }

  /** An overwritten id keeps its place; a new id goes last. */
  lemma {:induction false} PutOrder(r: Registry, id: string, observer: Observer)
    ensures Ids(Put(r, id, observer)) == if Lookup(r, id).Some? then Ids(r) else Ids(r) + [id]
  {
    if r != [] && r[0].id != id {
      PutOrder(r[1..], id, observer);
      assert Put(r, id, observer) == [r[0]] + Put(r[1..], id, observer);
      assert Lookup(r, id) == Lookup(r[1..], id);
      assert Ids(r) == [r[0].id] + Ids(r[1..]);
      assert Ids(Put(r, id, observer)) == [r[0].id] + Ids(Put(r[1..], id, observer));
    }
  }

  /** Registering only adds the new entry. */
  lemma {:induction false} PutMembers(r: Registry, id: string, observer: Observer)
    ensures forall e :: e in Put(r, id, observer) ==> e == Entry(id, observer) || e in r
  {
    if r != [] && r[0].id != id {
      PutMembers(r[1..], id, observer);
    }
  }

  /** An entry whose id the rest does not use can go in front. */
  lemma ConsValid(e: Entry, rest: Registry)
    requires Valid(rest)
    requires forall j :: 0 <= j < |rest| ==> rest[j].id != e.id
    ensures Valid([e] + rest)
  {
    var r := [e] + rest;
    forall i, j | 0 <= i < j < |r| ensures r[i].id != r[j].id {
      assert r[j] == rest[j - 1];
      if i > 0 {
        assert r[i] == rest[i - 1];
      }
    }
  }

  /** Registering keeps ids unique. */
  lemma {:induction false} PutValid(r: Registry, id: string, observer: Observer)
    requires Valid(r)
    ensures Valid(Put(r, id, observer))
  {
    if r != [] {
      assert Valid(r[1..]);
      if r[0].id == id {
        forall j | 0 <= j < |r[1..]| ensures r[1..][j].id != id {
          assert r[j + 1].id != r[0].id;
        }
        ConsValid(Entry(id, observer), r[1..]);
      } else {
        PutValid(r[1..], id, observer);
        var rest := Put(r[1..], id, observer);
        PutMembers(r[1..], id, observer);
        forall j | 0 <= j < |rest| ensures rest[j].id != r[0].id {
          assert rest[j] in rest;
          if rest[j] != Entry(id, observer) {
            var k :| 0 <= k < |r[1..]| && r[1..][k] == rest[j];
            assert r[k + 1].id != r[0].id;
          }
        }
        ConsValid(r[0], rest);
      }
    }
  }

  /** Re-registering an id replaces its observer in place: the order of ids does not change. */
  lemma OverwriteKeepsOrder(r: Registry, id: string, first: Observer, second: Observer)
    ensures Ids(Put(Put(r, id, first), id, second)) == Ids(Put(r, id, first))
    ensures Lookup(Put(Put(r, id, first), id, second), id) == Some(second)
  {
    PutOrder(Put(r, id, first), id, second);
  }

  /** Unregistering only removes entries. */
  lemma {:induction false} DeleteSubset(r: Registry, id: string)
    ensures forall e :: e in Delete(r, id) ==> e in r && e.id != id
  {
    if r != [] {
      DeleteSubset(r[1..], id);
    }
  }

  /** Unregistering keeps ids unique. */
  lemma {:induction false} DeleteValid(r: Registry, id: string)
    requires Valid(r)
    ensures Valid(Delete(r, id))
  {
    if r != [] {
      assert Valid(r[1..]);
      DeleteValid(r[1..], id);
      if r[0].id != id {
        var rest := Delete(r[1..], id);
        DeleteSubset(r[1..], id);
        forall j | 0 <= j < |rest| ensures rest[j].id != r[0].id {
          assert rest[j] in r[1..];
        }
      }
    }
  }

  /** Unsubscribing after subscribing a fresh id gives back the registry. */
  lemma {:induction false} DeleteUndoesPut(r: Registry, id: string, observer: Observer)
    requires Lookup(r, id) == None
    ensures Delete(Put(r, id, observer), id) == r
  {
    if r != [] {
      DeleteUndoesPut(r[1..], id, observer);
    }
  }
}
