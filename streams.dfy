/** EventStream queries (main.go lines 133-176). Each query in the program is
    a loop that appends the matching events of the receiver to a fresh slice;
    here each is a method with that loop, specified by the order-preserving
    selection `Filter`. */
module EventStreams {
  import opened Events

  /** The elements of `s` that satisfy `keep`, in their order in `s`. */
  function Filter<T>(s: seq<T>, keep: T -> bool): (r: seq<T>)
    ensures |r| <= |s|
    ensures forall x | x in r :: x in s && keep(x)
    ensures forall x | x in s && keep(x) :: x in r
  {
    if s == [] then []
    else Filter(s[..|s| - 1], keep) + (if keep(s[|s| - 1]) then [s[|s| - 1]] else [])
  }

  /** The indices of `s` whose elements satisfy `keep`, in increasing order:
      the positions that `Filter` picks. */
  function Positions<T>(s: seq<T>, keep: T -> bool): (ps: seq<nat>)
    ensures forall k | 0 <= k < |ps| :: ps[k] < |s| && keep(s[ps[k]])
    ensures forall k, l | 0 <= k < l < |ps| :: ps[k] < ps[l]
    ensures forall i | 0 <= i < |s| && keep(s[i]) :: i in ps
  {
    if s == [] then []
    else Positions(s[..|s| - 1], keep) + (if keep(s[|s| - 1]) then [|s| - 1] else [])
  }

  /** Filter keeps order: its k-th element is the element of `s` at the k-th
      kept position, and the kept positions are exactly those where `keep`
      holds, increasing. */
  lemma {:induction false} FilterIsOrderedSelection<T>(s: seq<T>, keep: T -> bool)
    ensures |Filter(s, keep)| == |Positions(s, keep)|
    ensures forall k | 0 <= k < |Positions(s, keep)| :: Filter(s, keep)[k] == s[Positions(s, keep)[k]]
  {
    if s != [] {
      var init, last := s[..|s| - 1], s[|s| - 1];
      FilterIsOrderedSelection(init, keep);
      var f, fi := Filter(s, keep), Filter(init, keep);
      var p, pi := Positions(s, keep), Positions(init, keep);
      assert f == fi + (if keep(last) then [last] else []);
      assert p == pi + (if keep(last) then [|s| - 1] else []);
      forall k | 0 <= k < |p|
        ensures f[k] == s[p[k]]
      {
        if k < |pi| {
          assert f[k] == fi[k] && p[k] == pi[k];
          assert init[pi[k]] == s[pi[k]];
        }
      }
    }
  }

  /** A filter whose criterion no element meets gives the empty sequence. */
  lemma {:induction false} FilterKeepsNone<T>(s: seq<T>, keep: T -> bool)
    requires forall i | 0 <= i < |s| :: !keep(s[i])
    ensures Filter(s, keep) == []
  {
    if s != [] {
      FilterKeepsNone(s[..|s| - 1], keep);
      assert !keep(s[|s| - 1]);
    }
  }

  /** A filter whose criterion every element meets keeps the whole sequence. */
  lemma {:induction false} FilterKeepsAll<T>(s: seq<T>, keep: T -> bool)
    requires forall i | 0 <= i < |s| :: keep(s[i])
    ensures Filter(s, keep) == s
  {
    if s != [] {
      var init := s[..|s| - 1];
      FilterKeepsAll(init, keep);
      assert keep(s[|s| - 1]);
      assert Filter(s, keep) == Filter(init, keep) + [s[|s| - 1]];
      assert init + [s[|s| - 1]] == s;
    }
  }

  /** Filtering a concatenation filters each part. */
  lemma {:induction false} FilterConcat<T>(a: seq<T>, b: seq<T>, keep: T -> bool)
    ensures Filter(a + b, keep) == Filter(a, keep) + Filter(b, keep)
  {
    if b == [] {
      assert a + b == a;
    } else {
      var init, last := b[..|b| - 1], b[|b| - 1];
      var tail := if keep(last) then [last] else [];
      assert (a + b)[..|a + b| - 1] == a + init && (a + b)[|a + b| - 1] == last;
      assert Filter(a + b, keep) == Filter(a + init, keep) + tail;
      assert Filter(b, keep) == Filter(init, keep) + tail;
      FilterConcat(a, init, keep);
    }
  }

  /** Filtering twice by the same criterion changes nothing. */
  lemma {:induction false} FilterIdempotent<T>(s: seq<T>, keep: T -> bool)
    ensures Filter(Filter(s, keep), keep) == Filter(s, keep)
  {
    if s != [] {
      var init, last := s[..|s| - 1], s[|s| - 1];
      var tail := if keep(last) then [last] else [];
      FilterIdempotent(init, keep);
      FilterConcat(Filter(init, keep), tail, keep);
      assert Filter(tail, keep) == tail by {
        if keep(last) { assert tail[..0] == []; }
      }
    }
  }

  /** Selection criteria of the queries below. */
  function HasType(t: EventType): AggregateEvent -> bool {
    (e: AggregateEvent) => e.eventType == t
  }

  function HasAggregateId(id: string): AggregateEvent -> bool {
    (e: AggregateEvent) => e.aggregateId == id
  }

  function HasAggregateIdIn(ids: seq<string>): AggregateEvent -> bool {
    (e: AggregateEvent) => e.aggregateId in ids
  }

  /** EventStream.AggregateIds: every event's aggregate id, in stream order,
      duplicates included. */
  method AggregateIds(s: EventStream) returns (ids: seq<string>)
    ensures |ids| == |s|
    ensures forall i | 0 <= i < |s| :: ids[i] == s[i].aggregateId
  {
    ids := [];
    for i := 0 to |s|
      invariant |ids| == i
      invariant forall j | 0 <= j < i :: ids[j] == s[j].aggregateId
    {
      ids := ids + [s[i].aggregateId];
    }
  }

  /** EventStream.FindByType: the events of type `t`, in stream order. */
  method FindByType(s: EventStream, t: EventType) returns (filtered: EventStream)
    ensures filtered == Filter(s, HasType(t))
    ensures forall e :: e in filtered <==> e in s && e.eventType == t
  {
    filtered := [];
    for i := 0 to |s|
      invariant filtered == Filter(s[..i], HasType(t))
    {
      assert s[..i + 1][..i] == s[..i];
      if s[i].eventType == t {
        filtered := filtered + [s[i]];
      }
    }
    assert s[..|s|] == s;
  }

  /** EventStream.FindByAggregateId: the events of aggregate `id`, in stream
      order; an id that does not occur gives the empty stream. */
  method FindByAggregateId(s: EventStream, id: string) returns (filtered: EventStream)
    ensures filtered == Filter(s, HasAggregateId(id))
    ensures forall e :: e in filtered <==> e in s && e.aggregateId == id
    ensures (forall e | e in s :: e.aggregateId != id) ==> filtered == []
  {
    filtered := [];
    for i := 0 to |s|
      invariant filtered == Filter(s[..i], HasAggregateId(id))
    {
      assert s[..i + 1][..i] == s[..i];
      if s[i].aggregateId == id {
        filtered := filtered + [s[i]];
      }
    }
    assert s[..|s|] == s;
    if filtered != [] {
      assert filtered[0] in filtered;
    }
  }

  /** EventStream.FindByAggregateIds: the events whose aggregate id is one of
      `ids`, in stream order; no ids give the empty stream. */
  method FindByAggregateIds(s: EventStream, ids: seq<string>) returns (filtered: EventStream)
    ensures filtered == Filter(s, HasAggregateIdIn(ids))
    ensures forall e :: e in filtered <==> e in s && e.aggregateId in ids
    ensures ids == [] ==> filtered == []
  {
    filtered := [];
    for i := 0 to |s|
      invariant filtered == Filter(s[..i], HasAggregateIdIn(ids))
    {
      assert s[..i + 1][..i] == s[..i];
      if s[i].aggregateId in ids {
        filtered := filtered + [s[i]];
      }
    }
    assert s[..|s|] == s;
    if filtered != [] {
      assert filtered[0] in filtered;
    }
  }

  /** Re-filtering the result of FindByAggregateId by the same id gives it back. */
  lemma FindByAggregateIdIdempotent(s: EventStream, id: string)
    ensures Filter(Filter(s, HasAggregateId(id)), HasAggregateId(id)) == Filter(s, HasAggregateId(id))
  {
    FilterIdempotent(s, HasAggregateId(id));
  }
}
