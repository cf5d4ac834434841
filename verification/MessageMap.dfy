/** The collector's `Map` from message id to message, kept as the list of
    its values in insertion order (the order `Array.from(map.values())`
    gives), and the sort applied to that list. */
module MessageMap {
  import opened Wrappers
  import opened Messages

  function Ids(entries: seq<Msg>): (r: seq<string>)
    ensures |r| == |entries|
    ensures forall i | 0 <= i < |entries| :: r[i] == entries[i].id
  {
    if entries == [] then [] else [entries[0].id] + Ids(entries[1..])
  }

  /** Where the id is in the map's key order, if it is a key. */
  function IndexOfId(entries: seq<Msg>, id: string): (r: Option<nat>)
    ensures r.Some? ==> r.value < |entries|
  {
    if entries == [] then None
    else if entries[0].id == id then Some(0)
    else match IndexOfId(entries[1..], id)
      case None => None
      case Some(i) => Some(i + 1)
  }

  /** The index found holds the id, and no index is found exactly when the
      id is not a key. */
  lemma {:induction false} IndexOfIdSpec(entries: seq<Msg>, id: string)
    ensures IndexOfId(entries, id).Some? ==> entries[IndexOfId(entries, id).value].id == id
    ensures IndexOfId(entries, id).None? <==> id !in Ids(entries)
  {
    if entries != [] && entries[0].id != id {
      IndexOfIdSpec(entries[1..], id);
      assert Ids(entries) == [entries[0].id] + Ids(entries[1..]);
    }
  }

  /** `map.set(m.id, m)`: a present key keeps its place and takes the new
      value; a new key goes last. */
  function Set(entries: seq<Msg>, m: Msg): seq<Msg>
  {
    match IndexOfId(entries, m.id)
    case Some(i) => entries[i := m]
    case None => entries + [m]
  }

  /** On a map (unique ids), `Set` keeps the ids unique, keeps the key
      order or appends the new key, and changes only the value under
      `m.id`. */
  lemma SetSpec(entries: seq<Msg>, m: Msg)
    requires UniqueIds(entries)
    ensures UniqueIds(Set(entries, m))
    ensures m.id in Ids(entries) ==> Ids(Set(entries, m)) == Ids(entries)
    ensures m.id !in Ids(entries) ==> Ids(Set(entries, m)) == Ids(entries) + [m.id]
    ensures forall i | 0 <= i < |Set(entries, m)| ::
      Set(entries, m)[i] == (if Set(entries, m)[i].id == m.id then m else entries[i])
  {
    IndexOfIdSpec(entries, m.id);
    var r := Set(entries, m);
    match IndexOfId(entries, m.id)
    case Some(k) =>
      assert r == entries[k := m];
      assert Ids(r) == Ids(entries);
    case None =>
      assert r == entries + [m];
      assert Ids(r) == Ids(entries) + [m.id];
  }

  /** What a map holds after `Set`: the new message, and every earlier one
      whose id differs. */
  lemma SetMembers(entries: seq<Msg>, m: Msg, x: Msg)
    requires UniqueIds(entries)
    ensures x in Set(entries, m) <==> x == m || (x in entries && x.id != m.id)
  {
    IndexOfIdSpec(entries, m.id);
    match IndexOfId(entries, m.id)
    case None =>
      if x in entries {
        var i :| 0 <= i < |entries| && entries[i] == x;
        assert Ids(entries)[i] == x.id;
      }
    case Some(k) =>
      SetReplaceMembers(entries, m, x, k);
  }

  /** `Set` on a key at index k replaces the message there and only it. */
  lemma SetReplaceMembers(entries: seq<Msg>, m: Msg, x: Msg, k: nat)
    requires UniqueIds(entries) && k < |entries| && entries[k].id == m.id
    ensures x in entries[k := m] <==> x == m || (x in entries && x.id != m.id)
  {
    var r := entries[k := m];
    if x in r {
      var i :| 0 <= i < |r| && r[i] == x;
      if i != k {
        assert x == entries[i] && entries[i].id != entries[k].id;
      }
    }
    if x in entries && x.id != m.id {
      var i :| 0 <= i < |entries| && entries[i] == x;
      assert i != k && r[i] == x;
    }
    assert r[k] == m;
  }

  /** One `map.set(msg.id, msg)` per message, in order. */
  function SetAll(entries: seq<Msg>, ms: seq<Msg>): seq<Msg>
  {
    if ms == [] then entries else Set(SetAll(entries, ms[..|ms| - 1]), ms[|ms| - 1])
  }

  /** Filling a map keeps its ids unique. */
  lemma {:induction false} SetAllUnique(entries: seq<Msg>, ms: seq<Msg>)
    requires UniqueIds(entries)
    ensures UniqueIds(SetAll(entries, ms))
  {
    if ms != [] {
      SetAllUnique(entries, ms[..|ms| - 1]);
      SetSpec(SetAll(entries, ms[..|ms| - 1]), ms[|ms| - 1]);
    }
  }

  /** The last message of `ms` with the given id. */
  function LatestWithId(ms: seq<Msg>, id: string): (r: Option<Msg>)
    ensures r.Some? ==> r.value in ms && r.value.id == id
    ensures r.None? <==> forall i | 0 <= i < |ms| :: ms[i].id != id
  {
    if ms == [] then None
    else if ms[|ms| - 1].id == id then Some(ms[|ms| - 1])
    else LatestWithId(ms[..|ms| - 1], id)
  }

  /** Filling an empty map keeps, for each id, the message set last: a
      message is a value of the map exactly when it is the latest message
      with its id. */
  lemma {:induction false} SetAllLatest(ms: seq<Msg>, x: Msg)
    ensures x in SetAll([], ms) <==> LatestWithId(ms, x.id) == Some(x)
  {
    if ms != [] {
      var init, last := ms[..|ms| - 1], ms[|ms| - 1];
      SetAllLatest(init, x);
      SetAllUnique([], init);
      SetMembers(SetAll([], init), last, x);
    }
  }

  /** The values of a map filled from `ms` all come from `ms`, and so have
      times when every message of `ms` has one. */
  lemma SetAllFrom(ms: seq<Msg>)
    ensures forall x | x in SetAll([], ms) :: x in ms
    ensures Timed(ms) ==> Timed(SetAll([], ms))
  {
    forall x | x in SetAll([], ms)
      ensures x in ms
    {
      SetAllLatest(ms, x);
    }
    var r := SetAll([], ms);
    if Timed(ms) {
      forall i | 0 <= i < |r|
        ensures r[i].time.Some?
      {
        assert r[i] in ms;
      }
    }
  }

  /** Inserts `x` before the first message with a strictly later time, so
      that messages with equal times keep their order. */
  function Insert(x: Msg, s: seq<Msg>): (r: seq<Msg>)
    requires x.time.Some? && Timed(s)
    ensures Timed(r)
    ensures multiset(r) == multiset(s) + multiset{x}
    ensures SortedByTime(s) ==> SortedByTime(r)
  {
    if s == [] then [x]
    else if s[0].time.value > x.time.value then
      InsertFront(x, s);
      [x] + s
    else
      var rest := Insert(x, s[1..]);
      assert s == [s[0]] + s[1..];
      InsertSortedStep(x, s, rest);
      [s[0]] + rest
  }

  lemma InsertFront(x: Msg, s: seq<Msg>)
    requires x.time.Some? && Timed(s) && s != [] && s[0].time.value > x.time.value
    ensures Timed([x] + s)
    ensures SortedByTime(s) ==> SortedByTime([x] + s)
  {
  }

  lemma InsertSortedStep(x: Msg, s: seq<Msg>, rest: seq<Msg>)
    requires x.time.Some? && Timed(s) && Timed(rest) && s != []
    requires s[0].time.value <= x.time.value
    requires multiset(rest) == multiset(s[1..]) + multiset{x}
    requires SortedByTime(s) ==> SortedByTime(rest)
    ensures Timed([s[0]] + rest)
    ensures SortedByTime(s) ==> SortedByTime([s[0]] + rest)
  {
    if SortedByTime(s) {
      forall k | 0 <= k < |rest|
        ensures s[0].time.value <= rest[k].time.value
      {
        assert rest[k] in multiset(rest);
        if rest[k] != x {
          assert rest[k] in multiset(s[1..]);
          var j :| 0 <= j < |s[1..]| && s[1..][j] == rest[k];
          assert s[j + 1] == rest[k];
        }
      }
    }
  }

  /** `messages.sort((a, b) => new Date(a.timestamp) - new Date(b.timestamp))`
      on messages whose times are all numbers: a sort by time. */
  function SortByTime(s: seq<Msg>): (r: seq<Msg>)
    requires Timed(s)
    ensures Timed(r) && SortedByTime(r)
    ensures multiset(r) == multiset(s)
  {
    if s == [] then []
    else
      assert s == s[..|s| - 1] + [s[|s| - 1]];
      Insert(s[|s| - 1], SortByTime(s[..|s| - 1]))
  }

  /** Sorting keeps the ids unique. */
  lemma SortKeepsUnique(s: seq<Msg>)
    requires Timed(s) && UniqueIds(s)
    ensures UniqueIds(SortByTime(s))
  {
    var r := SortByTime(s);
    forall i, j | 0 <= i < j < |r|
      ensures r[i].id != r[j].id
    {
      assert r[i] in multiset(s) && r[j] in multiset(s);
      var i' :| 0 <= i' < |s| && s[i'] == r[i];
      var j' :| 0 <= j' < |s| && s[j'] == r[j];
      if i' == j' {
        TwiceCounted(r, i, j);
        UniqueCount(s, i');
        assert false;
      }
    }
  }

  /** A message at two positions of a list occurs in it at least twice. */
  lemma TwiceCounted(r: seq<Msg>, i: nat, j: nat)
    requires i < j < |r| && r[i] == r[j]
    ensures multiset(r)[r[j]] >= 2
  {
    var a, b := r[..j], r[j..];
    assert r == a + b;
    assert a[i] == r[j];
    assert b[0] == r[j];
    assert multiset(a)[r[j]] >= 1 && multiset(b)[r[j]] >= 1;
  }

  /** In a list with unique ids, each message occurs once. */
  lemma {:induction false} UniqueCount(s: seq<Msg>, k: nat)
    requires UniqueIds(s) && k < |s|
    ensures multiset(s)[s[k]] == 1
  {
    if |s| > 1 {
      var init := s[..|s| - 1];
      assert s == init + [s[|s| - 1]];
      if k < |s| - 1 {
        UniqueCount(init, k);
        assert s[|s| - 1] != s[k];
      } else {
        assert s[k] !in init;
      }
    }
  }
}
