/**
 * The backlog a cold connection is sent: the documents after the client's
 * cursor, in ascending `createdAt` order, at most one page of them, each turned
 * into the event the live broadcast would have used.
 */
module Replay {
  import opened Wrappers
  import opened MessageSchema
  import opened Protocol
  import Strings

  /** The `.limit(50)` of the recovery query. */
  const PageSize: nat := 50

  /** `{ _id: { $gt: after } }`: the documents whose id is above the cursor, in store order. */
  function After(store: seq<Message>, after: nat): seq<Message>
    decreases |store|
  {
    if store == [] then []
    else (if store[0].id > after then [store[0]] else []) + After(store[1..], after)
  }

  /** The query of the recovery block: filtered only when the offset is truthy and a valid id. */
  function Select(store: seq<Message>, offset: Offset): seq<Message> {
    if offset.Cursor? then After(store, offset.id) else store
  }

  lemma {:induction false} AfterMembers(store: seq<Message>, after: nat, m: Message)
    ensures m in After(store, after) <==> m in store && m.id > after
    decreases |store|
  {
    if store != [] {
      AfterMembers(store[1..], after, m);
      assert store == [store[0]] + store[1..];
    }
  }

  lemma {:induction false} AfterMultiset(store: seq<Message>, after: nat)
    ensures multiset(After(store, after)) <= multiset(store)
    decreases |store|
  {
    if store != [] {
      AfterMultiset(store[1..], after);
      assert store == [store[0]] + store[1..];
    }
  }

  /**
   * With a Cursor the query keeps exactly the documents above it; with an unset,
   * falsy or malformed offset it keeps the whole collection.
   */
  lemma SelectMembers(store: seq<Message>, offset: Offset, m: Message)
    ensures m in Select(store, offset) <==> m in store && (offset.Cursor? ==> m.id > offset.id)
    ensures !offset.Cursor? ==> Select(store, offset) == store
    ensures multiset(Select(store, offset)) <= multiset(store)
  {
    if offset.Cursor? {
      AfterMembers(store, offset.id, m);
      AfterMultiset(store, offset.id);
    }
  }

  predicate SortedByCreatedAt(s: seq<Message>) {
    forall i, j :: 0 <= i < j < |s| ==> s[i].createdAt <= s[j].createdAt
  }

  /** Insert m before the first element that is not older than it. */
  function Insert(m: Message, s: seq<Message>): seq<Message>
    decreases |s|
  {
    if s == [] || m.createdAt <= s[0].createdAt then [m] + s
    else [s[0]] + Insert(m, s[1..])
  }

  /**
   * `.sort({ createdAt: 1 })`: a stable insertion sort, so documents with equal
   * timestamps keep their store order.
   */
  function SortByCreatedAt(s: seq<Message>): seq<Message>
    decreases |s|
  {
    if s == [] then [] else Insert(s[0], SortByCreatedAt(s[1..]))
  }

  lemma {:induction false} InsertMultiset(m: Message, s: seq<Message>)
    ensures multiset(Insert(m, s)) == multiset(s) + multiset{m}
    decreases |s|
  {
    if s != [] && m.createdAt > s[0].createdAt {
      InsertMultiset(m, s[1..]);
      assert s == [s[0]] + s[1..];
    }
  }

  lemma {:induction false} InsertSorted(m: Message, s: seq<Message>)
    requires SortedByCreatedAt(s)
    ensures SortedByCreatedAt(Insert(m, s))
    decreases |s|
  {
    if s != [] && m.createdAt > s[0].createdAt {
      var t := s[1..];
      InsertSorted(m, t);
      InsertMultiset(m, t);
      var r := Insert(m, t);
      forall k | 0 <= k < |r| ensures s[0].createdAt <= r[k].createdAt {
        assert r[k] in multiset(t) + multiset{m};
        if r[k] in multiset(t) {
          var j :| 0 <= j < |t| && t[j] == r[k];
          assert t[j] == s[j + 1];
        }
      }
    }
  }

  /** The sort orders by creation time and is a permutation of its input. */
  lemma {:induction false} SortByCreatedAtSpec(s: seq<Message>)
    ensures SortedByCreatedAt(SortByCreatedAt(s))
    ensures multiset(SortByCreatedAt(s)) == multiset(s)
    ensures |SortByCreatedAt(s)| == |s|
    decreases |s|
  {
    if s != [] {
      SortByCreatedAtSpec(s[1..]);
      InsertSorted(s[0], SortByCreatedAt(s[1..]));
      InsertMultiset(s[0], SortByCreatedAt(s[1..]));
      assert s == [s[0]] + s[1..];
      assert |multiset(SortByCreatedAt(s))| == |multiset(s)|;
    }
  }

  lemma SortedTail(s: seq<Message>)
    requires s != [] && SortedByCreatedAt(s)
    ensures SortedByCreatedAt(s[1..])
    ensures forall k :: 0 <= k < |s[1..]| ==> s[0].createdAt <= s[1..][k].createdAt
  {
    var t := s[1..];
    forall i, j | 0 <= i < j < |t| ensures t[i].createdAt <= t[j].createdAt {
      assert t[i] == s[i + 1] && t[j] == s[j + 1];
    }
    forall k | 0 <= k < |t| ensures s[0].createdAt <= t[k].createdAt {
      assert t[k] == s[k + 1];
    }
  }

  /** Already ordered input comes back unchanged: ties are not reordered. */
  lemma {:induction false} SortByCreatedAtKeepsSorted(s: seq<Message>)
    requires SortedByCreatedAt(s)
    ensures SortByCreatedAt(s) == s
    decreases |s|
  {
    if s != [] {
      SortedTail(s);
      SortByCreatedAtKeepsSorted(s[1..]);
      assert s == [s[0]] + s[1..];
    }
  }

  lemma {:induction false} AfterKeepsSorted(store: seq<Message>, after: nat)
    requires SortedByCreatedAt(store)
    ensures SortedByCreatedAt(After(store, after))
    decreases |store|
  {
    if store != [] {
      var t := store[1..];
      SortedTail(store);
      AfterKeepsSorted(t, after);
      var r := After(t, after);
      if store[0].id > after {
        forall k | 0 <= k < |r| ensures store[0].createdAt <= r[k].createdAt {
          AfterMembers(t, after, r[k]);
        }
      }
    }
  }

  /** `Message.find(query).sort({ createdAt: 1 }).limit(50)`. */
  function Backlog(store: seq<Message>, offset: Offset): seq<Message> {
    var s := SortByCreatedAt(Select(store, offset));
    s[..Strings.Min(PageSize, |s|)]
  }

  /** Cutting a sorted sequence: the kept prefix is sorted and no element after the cut is older. */
  lemma PrefixOfSorted(s: seq<Message>, k: nat)
    requires SortedByCreatedAt(s) && k <= |s|
    ensures SortedByCreatedAt(s[..k])
    ensures multiset(s) - multiset(s[..k]) == multiset(s[k..])
    ensures multiset(s[..k]) <= multiset(s)
    ensures forall m, n :: m in s[..k] && n in multiset(s[k..]) ==> m.createdAt <= n.createdAt
  {
    assert s == s[..k] + s[k..];
    assert multiset(s) == multiset(s[..k]) + multiset(s[k..]);
    forall m, n | m in s[..k] && n in multiset(s[k..]) ensures m.createdAt <= n.createdAt {
      var i :| 0 <= i < k && s[..k][i] == m;
      var j :| 0 <= j < |s[k..]| && s[k..][j] == n;
      assert s[i] == m && s[k + j] == n;
    }
  }

  /**
   * The backlog holds at most one page, in ascending createdAt order; it is the
   * OLDEST page of the matching documents (every matching document left out is no
   * older than any document sent); and when no more than a page matches, all of
   * them are sent.
   */
  lemma BacklogOrder(store: seq<Message>, offset: Offset)
    ensures var r := Backlog(store, offset); var q := Select(store, offset);
      && |r| == Strings.Min(PageSize, |q|)
      && SortedByCreatedAt(r)
      && multiset(r) <= multiset(q)
      && (forall m, n :: m in r && n in multiset(q) - multiset(r) ==> m.createdAt <= n.createdAt)
      && (|q| <= PageSize ==> multiset(r) == multiset(q))
  {
    var q := Select(store, offset);
    var s := SortByCreatedAt(q);
    SortByCreatedAtSpec(q);
    var k := Strings.Min(PageSize, |s|);
    PrefixOfSorted(s, k);
    assert Backlog(store, offset) == s[..k];
    assert multiset(s[..k]) <= multiset(q);
  }

  /** Only documents of the store that pass the cursor filter are replayed. */
  lemma BacklogFiltered(store: seq<Message>, offset: Offset, m: Message)
    requires m in Backlog(store, offset)
    ensures m in store && (offset.Cursor? ==> m.id > offset.id)
  {
    BacklogOrder(store, offset);
    assert m in multiset(Backlog(store, offset));
    SelectMembers(store, offset, m);
  }

  /**
   * When the collection is already in creation order (the clock never went back),
   * the backlog is simply the first page of the documents after the cursor, in
   * store order.
   */
  lemma BacklogInStoreOrder(store: seq<Message>, offset: Offset)
    requires SortedByCreatedAt(store)
    ensures var q := Select(store, offset); Backlog(store, offset) == q[..Strings.Min(PageSize, |q|)]
  {
    if offset.Cursor? {
      AfterKeepsSorted(store, offset.id);
    }
    SortByCreatedAtKeepsSorted(Select(store, offset));
  }

  /** The event the recovery loop emits for one document; none for an unknown type. */
  function EventFor(m: Message): Option<Event> {
    match KindOf(m.kind)
    case Some(k) => Some(ChatEvent(k, m.content, m.id, m.user, m.createdAt))
    case None => None
  }

  /** What `messages.forEach(...)` emits, in order. */
  function ReplayEvents(ms: seq<Message>): seq<Event>
    decreases |ms|
  {
    if ms == [] then []
    else EmittedFor(ms[0]) + ReplayEvents(ms[1..])
  }

  function EmittedFor(m: Message): seq<Event> {
    match EventFor(m)
    case Some(e) => [e]
    case None => []
  }

  lemma {:induction false} ReplayEventsAppend(a: seq<Message>, b: seq<Message>)
    ensures ReplayEvents(a + b) == ReplayEvents(a) + ReplayEvents(b)
    decreases |a|
  {
    if a != [] {
      assert (a + b)[0] == a[0] && a + b != [];
      assert (a + b)[1..] == a[1..] + b;
      assert ReplayEvents(a + b) == EmittedFor(a[0]) + ReplayEvents(a[1..] + b);
      ReplayEventsAppend(a[1..], b);
    } else {
      assert a + b == b;
    }
  }

  /** One more step of the `forEach`: the next document's events follow those of the ones before it. */
  lemma ReplayEventsStep(ms: seq<Message>, i: nat)
    requires i < |ms|
    ensures ReplayEvents(ms[..i + 1]) == ReplayEvents(ms[..i]) + EmittedFor(ms[i])
  {
    ReplayEventsAppend(ms[..i], [ms[i]]);
    assert ms[..i + 1] == ms[..i] + [ms[i]];
    assert [ms[i]][1..] == [];
  }

  /**
   * Every replayed event is a chat event built from one of the documents, with
   * that document's (content, id, user, createdAt); a document of unknown type
   * emits nothing; and when every type is known, the i-th event is that of the
   * i-th document.
   */
  lemma ReplayEventsSpec(ms: seq<Message>)
    ensures |ReplayEvents(ms)| <= |ms|
    ensures forall e :: e in ReplayEvents(ms) ==>
              exists m :: m in ms && KindOf(m.kind).Some? && e == ChatEvent(KindOf(m.kind).value, m.content, m.id, m.user, m.createdAt)
    ensures (forall i :: 0 <= i < |ms| ==> KindOf(ms[i].kind).None?) ==> ReplayEvents(ms) == []
    ensures (forall i :: 0 <= i < |ms| ==> KindOf(ms[i].kind).Some?) ==>
              |ReplayEvents(ms)| == |ms| &&
              forall i :: 0 <= i < |ms| ==> ReplayEvents(ms)[i] == EventFor(ms[i]).value
  {
    ReplayEventsFromDocuments(ms);
    if forall i :: 0 <= i < |ms| ==> KindOf(ms[i].kind).None? {
      ReplayEventsUnknown(ms);
    }
    if forall i :: 0 <= i < |ms| ==> KindOf(ms[i].kind).Some? {
      ReplayEventsKnown(ms);
    }
  }

  lemma {:induction false} ReplayEventsFromDocuments(ms: seq<Message>)
    ensures |ReplayEvents(ms)| <= |ms|
    ensures forall e :: e in ReplayEvents(ms) ==>
              exists m :: m in ms && KindOf(m.kind).Some? && e == ChatEvent(KindOf(m.kind).value, m.content, m.id, m.user, m.createdAt)
    decreases |ms|
  {
    if ms != [] {
      var tail := ms[1..];
      ReplayEventsFromDocuments(tail);
      forall e | e in ReplayEvents(ms)
        ensures exists m :: m in ms && KindOf(m.kind).Some? && e == ChatEvent(KindOf(m.kind).value, m.content, m.id, m.user, m.createdAt)
      {
        if e !in ReplayEvents(tail) {
          assert ms[0] in ms;
        } else {
          var m :| m in tail && KindOf(m.kind).Some? && e == ChatEvent(KindOf(m.kind).value, m.content, m.id, m.user, m.createdAt);
          assert m in ms;
        }
      }
    }
  }

  lemma {:induction false} ReplayEventsUnknown(ms: seq<Message>)
    requires forall i :: 0 <= i < |ms| ==> KindOf(ms[i].kind).None?
    ensures ReplayEvents(ms) == []
    decreases |ms|
  {
    if ms != [] {
      var tail := ms[1..];
      forall i | 0 <= i < |tail| ensures KindOf(tail[i].kind).None? {
        assert tail[i] == ms[i + 1];
      }
      ReplayEventsUnknown(tail);
    }
  }

  lemma {:induction false} ReplayEventsKnown(ms: seq<Message>)
    requires forall i :: 0 <= i < |ms| ==> KindOf(ms[i].kind).Some?
    ensures |ReplayEvents(ms)| == |ms|
    ensures forall i :: 0 <= i < |ms| ==> ReplayEvents(ms)[i] == EventFor(ms[i]).value
    decreases |ms|
  {
    if ms != [] {
      var tail := ms[1..];
      forall i | 0 <= i < |tail| ensures KindOf(tail[i].kind).Some? {
        assert tail[i] == ms[i + 1];
      }
      ReplayEventsKnown(tail);
      forall i | 0 <= i < |ms| ensures ReplayEvents(ms)[i] == EventFor(ms[i]).value {
        if i > 0 {
          assert ms[i] == tail[i - 1];
        }
      }
    }
  }
}
