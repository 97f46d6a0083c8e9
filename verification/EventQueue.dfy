/** The deterministic event queue (pkg/simulation/event.go): a binary heap over the
    firing order, as container/heap maintains it. */
module FiringOrder {
  import opened Ids

  /** `seqNo` is the insertion number the queue assigns. */
  datatype Event = Event(id: nat, kind: string, time: real, priority: int, seqNo: nat,
                         source: EntityID, target: EntityID, payload: string)

  const NO_EVENT := Event(0, "", 0.0, 0, 0, NO_ENTITY, NO_ENTITY, "")

  /** Earlier time first, then higher priority, then insertion order, then id. */
  predicate Less(a: Event, b: Event) {
    if a.time != b.time then a.time < b.time
    else if a.priority != b.priority then a.priority > b.priority
    else if a.seqNo != b.seqNo then a.seqNo < b.seqNo
    else a.id < b.id
  }

  predicate Le(a: Event, b: Event) { !Less(b, a) }

  lemma LeTransitive(a: Event, b: Event, c: Event)
    requires Le(a, b) && Le(b, c)
    ensures Le(a, c)
  {}

  lemma LessTransitive(a: Event, b: Event, c: Event)
    requires Less(a, b) && Less(b, c)
    ensures Less(a, c)
  {}

  /** Different insertion numbers are always ordered, one way only. */
  lemma LessTotal(a: Event, b: Event)
    requires a.seqNo != b.seqNo
    ensures Less(a, b) != Less(b, a)
    ensures Le(a, b) <==> Less(a, b)
  {}

  predicate InFiringOrder(s: seq<Event>) {
    forall i, j :: 0 <= i < j < |s| ==> Less(s[i], s[j])
  }

  predicate DistinctSeqNos(s: seq<Event>) {
    forall i, j :: 0 <= i < j < |s| ==> s[i].seqNo != s[j].seqNo
  }

  /** Equal time and priority come out first in, first out. */
  lemma FirstInFirstOut(s: seq<Event>, i: nat, j: nat)
    requires InFiringOrder(s) && DistinctSeqNos(s) && i < |s| && j < |s|
    requires s[i].time == s[j].time && s[i].priority == s[j].priority
    ensures i < j <==> s[i].seqNo < s[j].seqNo
  {}

  /** The order of firing, on the fields: time, then the higher priority, then insertion. */
  lemma FiresBefore(s: seq<Event>, i: nat, j: nat)
    requires InFiringOrder(s) && DistinctSeqNos(s) && i < |s| && j < |s| && i != j
    ensures i < j <==> s[i].time < s[j].time
                       || (s[i].time == s[j].time && (s[i].priority > s[j].priority
                                                      || (s[i].priority == s[j].priority && s[i].seqNo < s[j].seqNo)))
  {}

  /** Times never decrease, within one time priorities never increase, and within both the
      insertion numbers increase. */
  predicate ByTimePriorityInsertion(s: seq<Event>) {
    forall i, j :: 0 <= i < j < |s| ==>
      && s[i].time <= s[j].time
      && (s[i].time == s[j].time ==> s[i].priority >= s[j].priority)
      && (s[i].time == s[j].time && s[i].priority == s[j].priority ==> s[i].seqNo <= s[j].seqNo)
  }

  lemma FiringOrderIs(s: seq<Event>)
    requires DistinctSeqNos(s)
    ensures InFiringOrder(s) <==> ByTimePriorityInsertion(s)
  {}

  /** No event is earlier, none of the same time has a higher priority, and none of the same time
      and priority was inserted before. */
  ghost predicate FiresFirst(e: Event, pending: multiset<Event>) {
    e in pending && forall u :: u in pending ==>
      && e.time <= u.time
      && (e.time == u.time ==> e.priority >= u.priority)
      && (e.time == u.time && e.priority == u.priority ==> e.seqNo <= u.seqNo)
  }

  lemma SameFirst(a: seq<Event>, b: seq<Event>)
    requires InFiringOrder(a) && InFiringOrder(b) && multiset(a) == multiset(b) && a != [] && b != []
    ensures a[0] == b[0]
  {
    assert a[0] in multiset(b) && b[0] in multiset(a);
    var i :| 0 <= i < |b| && b[i] == a[0];
    var j :| 0 <= j < |a| && a[j] == b[0];
    assert i > 0 ==> Less(b[0], a[0]);
    assert j > 0 ==> Less(a[0], b[0]);
  }

  lemma WithoutFirst(a: seq<Event>)
    requires a != []
    ensures multiset(a[1..]) == multiset(a) - multiset{a[0]}
    ensures InFiringOrder(a) ==> InFiringOrder(a[1..])
  {
    assert a == [a[0]] + a[1..];
  }

  /** There is only one firing order for a collection of events. */
  lemma {:induction false} FiringOrderUnique(a: seq<Event>, b: seq<Event>)
    requires InFiringOrder(a) && InFiringOrder(b) && multiset(a) == multiset(b)
    ensures a == b
  {
    assert |a| == |multiset(a)| == |multiset(b)| == |b|;
    if a != [] {
      SameFirst(a, b);
      WithoutFirst(a);
      WithoutFirst(b);
      FiringOrderUnique(a[1..], b[1..]);
      assert a == [a[0]] + a[1..] && b == [b[0]] + b[1..];
    }
  }

  lemma AppendLatest(s: seq<Event>, e: Event)
    requires InFiringOrder(s) && forall i :: 0 <= i < |s| ==> Less(s[i], e)
    ensures InFiringOrder(s + [e])
  {}
}

module Heap {
  import opened FiringOrder

  function Parent(j: nat): nat
    requires j > 0
  {
    (j - 1) / 2
  }

  /** No event fires before its parent. */
  predicate HeapFrom(h: seq<Event>, n: nat)
    requires n <= |h|
  {
    forall j :: 0 < j < n ==> Le(h[Parent(j)], h[j])
  }

  predicate IsHeap(h: seq<Event>) { HeapFrom(h, |h|) }

  lemma {:induction false} RootIsLeast(h: seq<Event>, i: nat)
    requires IsHeap(h) && i < |h|
    ensures Le(h[0], h[i])
    decreases i
  {
    if i > 0 {
      RootIsLeast(h, Parent(i));
      LeTransitive(h[0], h[Parent(i)], h[i]);
    }
  }

  function Swap(h: seq<Event>, i: nat, j: nat): (r: seq<Event>)
    requires i < |h| && j < |h|
    ensures |r| == |h| && r[i] == h[j] && r[j] == h[i]
    ensures forall k :: 0 <= k < |h| && k != i && k != j ==> r[k] == h[k]
  {
    h[i := h[j]][j := h[i]]
  }

  lemma SwapPermutes(h: seq<Event>, i: nat, j: nat)
    requires i < |h| && j < |h|
    ensures multiset(Swap(h, i, j)) == multiset(h)
  {}

  /** The heap order holds everywhere except between j and its parent, and j's
      children already respect j's parent. */
  predicate HeapButUp(h: seq<Event>, j: nat)
    requires j < |h|
  {
    && (forall k :: 0 < k < |h| && k != j ==> Le(h[Parent(k)], h[k]))
    && (forall k :: 0 < k < |h| && Parent(k) == j && j > 0 ==> Le(h[Parent(j)], h[k]))
  }

  lemma SwapUp(h: seq<Event>, j: nat)
    requires 0 < j < |h| && HeapButUp(h, j) && Less(h[j], h[Parent(j)])
    ensures HeapButUp(Swap(h, Parent(j), j), Parent(j))
  {
    var i := Parent(j);
    var r := Swap(h, i, j);
    forall k | 0 < k < |r| && k != i
      ensures Le(r[Parent(k)], r[k])
    {
      if k != j && Parent(k) == i {
        LeTransitive(h[j], h[i], h[k]);
      }
    }
    forall k | 0 < k < |r| && Parent(k) == i && i > 0
      ensures Le(r[Parent(i)], r[k])
    {
      assert Le(h[Parent(i)], h[i]);
      if k != j { LeTransitive(h[Parent(i)], h[i], h[k]); }
    }
  }

  /** container/heap's up. An element that already respects its parent stays. */
  method Up(h0: seq<Event>, j0: nat) returns (h: seq<Event>)
    requires j0 < |h0| && HeapButUp(h0, j0)
    ensures IsHeap(h) && multiset(h) == multiset(h0) && |h| == |h0|
    ensures j0 > 0 && Le(h0[Parent(j0)], h0[j0]) ==> h == h0
  {
    h := h0;
    var j := j0;
    while j > 0 && Less(h[j], h[Parent(j)])
      invariant 0 <= j < |h| == |h0| && HeapButUp(h, j)
      invariant multiset(h) == multiset(h0)
      invariant j0 > 0 && Le(h0[Parent(j0)], h0[j0]) ==> h == h0 && j == j0
      decreases j
    {
      var i := Parent(j);
      SwapUp(h, j);
      SwapPermutes(h, i, j);
      h := Swap(h, i, j);
      j := i;
    }
  }

  /** The heap order holds on the first n elements except below i, and i's children
      already respect i's parent. */
  predicate HeapButDown(h: seq<Event>, i: nat, n: nat)
    requires i <= n <= |h|
  {
    && (forall k :: 0 < k < n && Parent(k) != i ==> Le(h[Parent(k)], h[k]))
    && (forall k :: 0 < k < n && Parent(k) == i && i > 0 ==> Le(h[Parent(i)], h[k]))
  }

  lemma SwapDown(h: seq<Event>, i: nat, j: nat, n: nat)
    requires j < n <= |h| && j > 0 && Parent(j) == i && HeapButDown(h, i, n)
    requires Less(h[j], h[i]) && forall k :: 0 < k < n && Parent(k) == i ==> Le(h[j], h[k])
    ensures HeapButDown(Swap(h, i, j), j, n)
  {}

  /** container/heap's down over the first n elements. */
  method Down(h0: seq<Event>, n: nat) returns (h: seq<Event>)
    requires n <= |h0| && HeapButDown(h0, 0, n)
    ensures |h| == |h0| && HeapFrom(h, n) && multiset(h) == multiset(h0) && h[n..] == h0[n..]
  {
    h := h0;
    var i := 0;
    while 2 * i + 1 < n
      invariant 0 <= i <= n <= |h| == |h0| && HeapButDown(h, i, n)
      invariant multiset(h) == multiset(h0) && h[n..] == h0[n..]
      decreases n - i
    {
      var j1 := 2 * i + 1;
      var j := j1;
      var j2 := j1 + 1;
      if j2 < n && Less(h[j2], h[j1]) {
        j := j2;
      }
      assert forall k :: 0 < k < n && Parent(k) == i ==> k == j1 || k == j2;
      if !Less(h[j], h[i]) {
        LeastChild(h, i, j, n);
        return;
      }
      SwapDown(h, i, j, n);
      SwapPermutes(h, i, j);
      h := Swap(h, i, j);
      i := j;
    }
    assert forall k :: 0 < k < n ==> Parent(k) != i;
  }

  lemma LeastChild(h: seq<Event>, i: nat, j: nat, n: nat)
    requires i < n <= |h| && j < n && HeapButDown(h, i, n) && Le(h[i], h[j])
    requires forall k :: 0 < k < n && Parent(k) == i ==> Le(h[j], h[k])
    ensures HeapFrom(h, n)
  {}

  lemma AppendedIsHeapButUp(h: seq<Event>, e: Event)
    requires IsHeap(h)
    ensures HeapButUp(h + [e], |h|)
  {}

  /** heap.Push. */
  method PushHeap(h0: seq<Event>, e: Event) returns (h: seq<Event>)
    requires IsHeap(h0)
    ensures IsHeap(h) && multiset(h) == multiset(h0) + multiset{e} && |h| == |h0| + 1
    ensures h0 == [] || Le(h0[Parent(|h0|)], e) ==> h == h0 + [e]
  {
    AppendedIsHeapButUp(h0, e);
    h := Up(h0 + [e], |h0|);
    assert multiset(h0 + [e]) == multiset(h0) + multiset{e};
    if h0 == [] {
      assert |h| == 1 && h[0] in multiset(h0 + [e]);
    }
  }

  /** heap.Pop: swap the root with the last element, sift down, drop the last. */
  method PopHeap(h0: seq<Event>) returns (e: Event, h: seq<Event>)
    requires IsHeap(h0) && h0 != []
    ensures e == h0[0] && IsHeap(h) && |h| == |h0| - 1
    ensures multiset(h) == multiset(h0) - multiset{e}
  {
    var n := |h0| - 1;
    var swapped := Swap(h0, 0, n);
    SwapPermutes(h0, 0, n);
    RootSwapped(h0);
    var sifted := Down(swapped, n);
    e := sifted[n];
    h := sifted[..n];
    assert sifted[n..][0] == swapped[n..][0];
    assert sifted == h + [e];
    forall j | 0 < j < n
      ensures Le(h[Parent(j)], h[j])
    {}
  }

  lemma RootSwapped(h: seq<Event>)
    requires IsHeap(h) && h != []
    ensures HeapButDown(Swap(h, 0, |h| - 1), 0, |h| - 1)
  {}
}

module EventQueues {
  import opened FiringOrder
  import opened Heap

  /** The serialised queue: the heap array as it lies, and the two counters. */
  datatype QueueState = QueueState(events: seq<Event>, next: nat, seqNo: nat)

  /** Insertion numbers are unique and none is ahead of the counter. */
  predicate WellNumbered(h: seq<Event>, seqNo: nat) {
    DistinctSeqNos(h) && forall i :: 0 <= i < |h| ==> h[i].seqNo <= seqNo
  }

  /** e fires before everything else that is pending. */
  ghost predicate IsNext(e: Event, pending: multiset<Event>) {
    pending[e] == 1 && forall x :: x in pending && x != e ==> Less(e, x)
  }

  /** The next event, on the fields. */
  lemma NextIsFirst(e: Event, h: seq<Event>, seqNo: nat)
    requires WellNumbered(h, seqNo)
    ensures IsNext(e, multiset(h)) <==> FiresFirst(e, multiset(h))
  {
    MultiplicityOne(h, e);
    if FiresFirst(e, multiset(h)) {
      forall x | x in multiset(h) && x != e
        ensures Less(e, x)
      {
        var i :| 0 <= i < |h| && h[i] == e;
        var j :| 0 <= j < |h| && h[j] == x;
        assert i != j && h[i].seqNo != h[j].seqNo;
      }
    }
  }

  lemma NextIsUnique(e: Event, e': Event, pending: multiset<Event>)
    requires IsNext(e, pending) && IsNext(e', pending)
    ensures e == e'
  {}

  lemma WellNumberedPermuted(h: seq<Event>, h': seq<Event>, seqNo: nat)
    requires WellNumbered(h, seqNo) && multiset(h') == multiset(h)
    ensures WellNumbered(h', seqNo)
  {
    forall i | 0 <= i < |h'|
      ensures h'[i].seqNo <= seqNo
    {
      assert h'[i] in multiset(h');
    }
    forall i, j | 0 <= i < j < |h'|
      ensures h'[i].seqNo != h'[j].seqNo
    {
      DistinctInPermutation(h, h', i, j);
    }
  }

  lemma MultiplicityOne(h: seq<Event>, e: Event)
    requires DistinctSeqNos(h)
    ensures multiset(h)[e] <= 1
    decreases |h|
  {
    if h != [] {
      assert h == [h[0]] + h[1..];
      MultiplicityOne(h[1..], e);
      forall k | 0 <= k < |h[1..]|
        ensures h[1..][k] != h[0]
      {
        assert h[1..][k] == h[k + 1];
      }
    }
  }

  lemma DistinctInPermutation(h: seq<Event>, h': seq<Event>, i: nat, j: nat)
    requires DistinctSeqNos(h) && multiset(h') == multiset(h) && i < j < |h'|
    ensures h'[i].seqNo != h'[j].seqNo
  {
    var a, b := h'[i], h'[j];
    assert a in multiset(h) && b in multiset(h);
    if a == b {
      assert h' == h'[..i] + [a] + h'[i + 1..j] + [b] + h'[j + 1..];
      assert multiset(h')[a] >= 2;
      MultiplicityOne(h, a);
      assert false;
    }
    var p :| 0 <= p < |h| && h[p] == a;
    var q :| 0 <= q < |h| && h[q] == b;
    assert p != q;
  }

  lemma RootIsNext(h: seq<Event>, seqNo: nat)
    requires IsHeap(h) && WellNumbered(h, seqNo) && h != []
    ensures IsNext(h[0], multiset(h))
  {
    MultiplicityOne(h, h[0]);
    forall x | x in multiset(h) && x != h[0]
      ensures Less(h[0], x)
    {
      var i :| 0 <= i < |h| && h[i] == x;
      RootIsLeast(h, i);
      LessTotal(h[0], x);
    }
  }

  lemma PoppedSpec(before: seq<Event>, h: seq<Event>, e: Event, seqNo: nat)
    requires WellNumbered(before, seqNo) && IsNext(e, multiset(before))
    requires multiset(h) == multiset(before) - multiset{e}
    ensures WellNumbered(h, seqNo)
    ensures forall x :: x in h ==> Less(e, x) && x in before
  {
    assert multiset(h + [e]) == multiset(before);
    WellNumberedPermuted(before, h + [e], seqNo);
    forall i | 0 <= i < |h|
      ensures h[i].seqNo <= seqNo && Less(e, h[i]) && h[i] in before
    {
      assert h[i] in multiset(h);
      assert (h + [e])[i] == h[i] && (h + [e])[|h|] == e;
      assert h[i] in multiset(before);
    }
    forall i, j | 0 <= i < j < |h|
      ensures h[i].seqNo != h[j].seqNo
    {
      assert (h + [e])[i] == h[i] && (h + [e])[j] == h[j];
    }
  }

  function Insert(e: Event, s: seq<Event>): (r: seq<Event>)
    ensures multiset(r) == multiset(s) + multiset{e}
  {
    if s == [] || Less(e, s[0]) then [e] + s
    else
      assert s == [s[0]] + s[1..];
      [s[0]] + Insert(e, s[1..])
  }

  lemma {:induction false} InsertOrdered(e: Event, s: seq<Event>)
    requires InFiringOrder(s) && forall i :: 0 <= i < |s| ==> s[i].seqNo != e.seqNo
    ensures InFiringOrder(Insert(e, s))
  {
    if s == [] {
    } else if Less(e, s[0]) {
      forall i | 0 < i < |s|
        ensures Less(e, s[i])
      {
        LessTransitive(e, s[0], s[i]);
      }
    } else {
      InsertOrdered(e, s[1..]);
      var rest := Insert(e, s[1..]);
      LessTotal(e, s[0]);
      forall i | 0 <= i < |rest|
        ensures Less(s[0], rest[i])
      {
        assert rest[i] in multiset(rest);
        assert rest[i] == e || rest[i] in s[1..];
      }
    }
  }

  lemma InsertNext(h: seq<Event>, seqNo: nat, i: nat, out: seq<Event>)
    requires WellNumbered(h, seqNo) && i < |h| && InFiringOrder(out) && multiset(out) == multiset(h[..i])
    ensures InFiringOrder(Insert(h[i], out)) && multiset(Insert(h[i], out)) == multiset(h[..i + 1])
  {
    forall k | 0 <= k < |out|
      ensures out[k].seqNo != h[i].seqNo
    {
      assert out[k] in multiset(h[..i]);
    }
    InsertOrdered(h[i], out);
    assert h[..i + 1] == h[..i] + [h[i]];
  }

  class EventQueue {
    var h: seq<Event>
    var next: nat
    var seqNo: nat

    ghost predicate Valid()
      reads this
    {
      IsHeap(h) && WellNumbered(h, seqNo)
    }

    constructor ()
      ensures Valid() && h == [] && next == 0 && seqNo == 0
    {
      h, next, seqNo := [], 0, 0;
    }

    /** Schedules an event under the next insertion number; an event without an id gets
        the next id. */
    method Push(e: Event) returns (pushed: Event)
      requires Valid()
      modifies this
      ensures Valid()
      ensures seqNo == old(seqNo) + 1 && next == old(next) + if e.id == 0 then 1 else 0
      ensures pushed == e.(seqNo := seqNo, id := if e.id == 0 then next else e.id)
      ensures multiset(h) == old(multiset(h)) + multiset{pushed}
      ensures forall x :: x in old(h) ==> x.seqNo < pushed.seqNo
    {
      pushed := e;
      if pushed.id == 0 {
        next := next + 1;
        pushed := pushed.(id := next);
      }
      seqNo := seqNo + 1;
      pushed := pushed.(seqNo := seqNo);
      assert WellNumbered(h + [pushed], seqNo);
      ghost var before := h;
      h := PushHeap(h, pushed);
      assert multiset(before + [pushed]) == multiset(before) + multiset{pushed};
      WellNumberedPermuted(before + [pushed], h, seqNo);
    }

    method Peek() returns (e: Event, ok: bool)
      requires Valid()
      ensures ok <==> h != []
      ensures ok ==> IsNext(e, multiset(h)) && FiresFirst(e, multiset(h)) && e == h[0]
    {
      if h == [] {
        return NO_EVENT, false;
      }
      RootIsNext(h, seqNo);
      NextIsFirst(h[0], h, seqNo);
      e, ok := h[0], true;
    }

    /** Removes the one event that fires before all others. */
    method Pop() returns (e: Event, ok: bool)
      requires Valid()
      modifies this
      ensures Valid() && next == old(next) && seqNo == old(seqNo)
      ensures ok <==> old(h) != []
      ensures !ok ==> h == old(h)
      ensures ok ==> IsNext(e, old(multiset(h))) && FiresFirst(e, old(multiset(h))) && multiset(h) == old(multiset(h)) - multiset{e}
      ensures ok ==> |h| == |old(h)| - 1 && forall x :: x in h ==> Less(e, x) && x in old(h)
    {
      if h == [] {
        return NO_EVENT, false;
      }
      RootIsNext(h, seqNo);
      ghost var before := h;
      e, h := PopHeap(h);
      ok := true;
      NextIsFirst(e, before, seqNo);
      PoppedSpec(before, h, e, seqNo);
    }

    /** All pending events in firing order; the queue is unchanged. */
    method PeekAll() returns (out: seq<Event>)
      requires Valid()
      ensures InFiringOrder(out) && ByTimePriorityInsertion(out) && multiset(out) == multiset(h)
    {
      out := [];
      for i := 0 to |h|
        invariant InFiringOrder(out) && multiset(out) == multiset(h[..i])
      {
        InsertNext(h, seqNo, i, out);
        out := Insert(h[i], out);
      }
      assert h[..|h|] == h;
      WellNumberedPermuted(h, out, seqNo);
      FiringOrderIs(out);
    }

    /** Popping until the queue is empty yields the firing order. By FiringOrderUnique
        that is what PeekAll would have returned. */
    method Drain() returns (out: seq<Event>)
      requires Valid()
      modifies this
      ensures Valid() && h == []
      ensures InFiringOrder(out) && ByTimePriorityInsertion(out) && multiset(out) == old(multiset(h))
    {
      out := [];
      while h != []
        invariant Valid() && InFiringOrder(out) && seqNo == old(seqNo)
        invariant multiset(out) + multiset(h) == old(multiset(h))
        invariant forall i, x :: 0 <= i < |out| && x in h ==> Less(out[i], x)
        decreases |h|
      {
        ghost var before := h;
        var e, ok := Pop();
        assert e in multiset(before);
        assert e in before;
        AppendLatest(out, e);
        assert multiset(out + [e]) + multiset(h) == multiset(out) + multiset(before);
        out := out + [e];
      }
      assert multiset(out) == old(multiset(h));
      WellNumberedPermuted(old(h), out, seqNo);
      FiringOrderIs(out);
    }

    method Snapshot() returns (st: QueueState)
      ensures st == QueueState(h, next, seqNo)
    {
      st := QueueState(h, next, seqNo);
    }

    /** Pushes the stored events one by one without renumbering. A stored heap array is
        rebuilt exactly: no pushed event moves. */
    method Restore(st: QueueState)
      modifies this
      ensures IsHeap(h) && multiset(h) == multiset(st.events)
      ensures WellNumbered(st.events, st.seqNo) ==> Valid()
      ensures next == st.next && seqNo == st.seqNo
      ensures IsHeap(st.events) ==> h == st.events
    {
      h, next, seqNo := [], st.next, st.seqNo;
      for i := 0 to |st.events|
        invariant IsHeap(h) && |h| == i && multiset(h) == multiset(st.events[..i])
        invariant next == st.next && seqNo == st.seqNo
        invariant IsHeap(st.events) ==> h == st.events[..i]
      {
        if i > 0 && IsHeap(st.events) {
          assert Le(st.events[Parent(i)], st.events[i]);
        }
        h := PushHeap(h, st.events[i]);
        assert st.events[..i + 1] == st.events[..i] + [st.events[i]];
      }
      assert st.events[..|st.events|] == st.events;
      if WellNumbered(st.events, st.seqNo) {
        WellNumberedPermuted(st.events, h, seqNo);
      }
    }
  }

  /** Snapshot, restore into any queue, snapshot again: the same snapshot. */
  method RoundTrip(q: EventQueue, other: EventQueue) returns (before: QueueState, after: QueueState)
    requires q.Valid() && other != q
    modifies other
    ensures after == before == QueueState(old(q.h), old(q.next), old(q.seqNo))
    ensures other.Valid() && other.h == q.h && other.next == q.next && other.seqNo == q.seqNo
  {
    before := q.Snapshot();
    other.Restore(before);
    after := other.Snapshot();
  }

  // ------------------------------------------------- runs against a multiset

  datatype Operation = PushOp(e: Event) | PopOp

  datatype Outcome = Pushed(e: Event) | Popped(e: Event) | Empty

  datatype Abstract = Abstract(pending: multiset<Event>, next: nat, seqNo: nat)

  /** A pushed event is numbered, and named unless it has a name already. */
  ghost function Enqueued(a: Abstract, e: Event): (Abstract, Event) {
    var next := if e.id == 0 then a.next + 1 else a.next;
    var e' := e.(seqNo := a.seqNo + 1, id := if e.id == 0 then next else e.id);
    (Abstract(a.pending + multiset{e'}, next, a.seqNo + 1), e')
  }

  /** One operation on a plain multiset: a push numbers the event, a pop takes the one
      event that precedes all others. */
  ghost predicate AbstractStep(a: Abstract, op: Operation, out: Outcome, a': Abstract) {
    match op
    case PushOp(e) =>
      out == Pushed(Enqueued(a, e).1) && a' == Enqueued(a, e).0
    case PopOp =>
      if |a.pending| == 0 then out == Empty && a' == a
      else out.Popped? && IsNext(out.e, a.pending) && a' == a.(pending := a.pending - multiset{out.e})
  }

  ghost predicate AbstractRun(a: Abstract, ops: seq<Operation>, outs: seq<Outcome>, a': Abstract)
    decreases |ops|
  {
    if ops == [] then outs == [] && a' == a
    else
      outs != [] && exists mid :: AbstractStep(a, ops[0], outs[0], mid) && AbstractRun(mid, ops[1..], outs[1..], a')
  }

  /** The multiset machine is deterministic: what a run returns depends on the operations
      alone, not on how the heap array happens to be arranged. */
  lemma {:induction false} AbstractRunDeterministic(a: Abstract, ops: seq<Operation>, outs: seq<Outcome>, a': Abstract,
                                                    outs': seq<Outcome>, a'': Abstract)
    requires AbstractRun(a, ops, outs, a') && AbstractRun(a, ops, outs', a'')
    ensures outs == outs' && a' == a''
    decreases |ops|
  {
    if ops != [] {
      var m :| AbstractStep(a, ops[0], outs[0], m) && AbstractRun(m, ops[1..], outs[1..], a');
      var m' :| AbstractStep(a, ops[0], outs'[0], m') && AbstractRun(m', ops[1..], outs'[1..], a'');
      if ops[0].PopOp? && |a.pending| != 0 {
        NextIsUnique(outs[0].e, outs'[0].e, a.pending);
      }
      AbstractRunDeterministic(m, ops[1..], outs[1..], a', outs'[1..], a'');
      assert outs == [outs[0]] + outs[1..] && outs' == [outs'[0]] + outs'[1..];
    }
  }

  method Apply(q: EventQueue, op: Operation) returns (out: Outcome)
    requires q.Valid()
    modifies q
    ensures q.Valid()
    ensures AbstractStep(old(Abstract(multiset(q.h), q.next, q.seqNo)), op, out, Abstract(multiset(q.h), q.next, q.seqNo))
  {
    match op
    case PushOp(e) =>
      var p := q.Push(e);
      out := Pushed(p);
    case PopOp =>
      var e, ok := q.Pop();
      out := if ok then Popped(e) else Empty;
  }

  /** Any sequence of pushes and pops on the heap is a run of the multiset machine. */
  method ApplyAll(q: EventQueue, ops: seq<Operation>) returns (outs: seq<Outcome>)
    requires q.Valid()
    modifies q
    ensures q.Valid()
    ensures AbstractRun(old(Abstract(multiset(q.h), q.next, q.seqNo)), ops, outs, Abstract(multiset(q.h), q.next, q.seqNo))
    decreases |ops|
  {
    outs := [];
    if ops != [] {
      ghost var a := Abstract(multiset(q.h), q.next, q.seqNo);
      var out := Apply(q, ops[0]);
      ghost var mid := Abstract(multiset(q.h), q.next, q.seqNo);
      var rest := ApplyAll(q, ops[1..]);
      outs := [out] + rest;
      assert outs[1..] == rest;
      assert AbstractStep(a, ops[0], outs[0], mid);
    }
  }
}
