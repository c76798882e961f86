/** The request list as src/coap/atlas_coap_client.c keeps it in memory: a completing request is found by
    walking, its callback appends requests to the same list, and only then is it unlinked, through the
    predecessor that the walk remembered. `CoapClient` works on the list's contents. */
module RequestChain {
  import opened LinkedLists
  import opened CoapClient
  import opened Ownership
  import opened Sequences

  lemma WithoutFront<T>(q: seq<T>, i: nat, x: T, added: seq<T>)
    requires i < |q|
    ensures Without(q[i := x] + added, i) == Without(q, i) + added
    ensures Without(q + added, i) == Without(q, i) + added
  {
  }

  /** The requests submitted by a number of callbacks, one after another. */
  function Flat(added: seq<seq<Request>>): seq<Request> {
    if added == [] then [] else added[0] + Flat(added[1..])
  }

  /** One message for the request at position `i`: it is made dirty, and its callback submits requests. */
  function AnsweredWith(q: seq<Request>, i: nat, added: seq<Request>): seq<Request>
    requires i < |q|
  {
    q[i := q[i].(dirty := true)] + added
  }

  function AllAnswered(q: seq<Request>, i: nat, added: seq<seq<Request>>): (r: seq<Request>)
    requires i < |q|
    decreases |added|
  {
    if added == [] then q else AllAnswered(AnsweredWith(q, i, added[0]), i, added[1..])
  }

  lemma {:induction false} AllAnsweredMeans(q: seq<Request>, i: nat, added: seq<seq<Request>>)
    requires i < |q|
    ensures AllAnswered(q, i, added) == if added == [] then q else q[i := q[i].(dirty := true)] + Flat(added)
    decreases |added|
  {
    if added != [] {
      var q' := q[i := q[i].(dirty := true)];
      var p := AnsweredWith(q, i, added[0]);
      AllAnsweredMeans(p, i, added[1..]);
      assert p[i := p[i].(dirty := true)] == p;
      Assoc(q', added[0], Flat(added[1..]));
      Empty(added[0]);
    }
  }

  lemma FoundStill(q: seq<Request>, i: nat, added: seq<Request>)
    requires i < |q| && FindRequest(q, ByContext, q[i].ctx) == i
    ensures var p := AnsweredWith(q, i, added); p[i].ctx == q[i].ctx && FindRequest(p, ByContext, q[i].ctx) == i
  {
    var p := AnsweredWith(q, i, added);
    assert forall j | 0 <= j < i :: KeyOf(p[j], ByContext) == KeyOf(q[j], ByContext);
    assert KeyOf(p[i], ByContext) == q[i].ctx;
  }

  class Chain {
    const list: LinkedList<Request>

    ghost predicate Valid()
      reads this, list, list.nodes
    {
      list.Valid()
    }

    ghost function View(): seq<Request>
      reads this, list
    {
      list.items
    }

    constructor ()
      ensures Valid() && fresh(list) && list.nodes == {} && View() == []
    {
      list := new LinkedList();
    }

    /** The end of `add_request`. */
    method Add(r: Request)
      requires Valid()
      modifies list, list.nodes
      ensures Valid() && Grows(old(list.spine), list.spine) && fresh(list.nodes - old(list.nodes))
      ensures View() == old(View()) + [r]
    {
      list.Append(r);
    }

    /** A callback that submits any number of requests. */
    method AddAll(added: seq<Request>)
      requires Valid()
      modifies list, list.nodes
      ensures Valid() && Grows(old(list.spine), list.spine) && fresh(list.nodes - old(list.nodes))
      ensures View() == old(View()) + added
    {
      var k := 0;
      while k < |added|
        invariant k <= |added| && Valid()
        invariant Grows(old(list.spine), list.spine) && fresh(list.nodes - old(list.nodes))
        invariant View() == old(View()) + added[..k]
      {
        assert added[..k + 1] == added[..k] + [added[k]];
        Add(added[k]);
        k := k + 1;
      }
      assert added[..k] == added;
    }

    /** The walk to the first request with a key, and the node before it. */
    method Walk(k: Key, x: int) returns (found: Node?<Request>, prev: Node?<Request>, ghost i: nat)
      requires Valid()
      ensures i == FindRequest(View(), k, x) && i <= |list.spine|
      ensures found == list.NodeAt(i) && (i > 0 ==> prev == list.spine[i - 1])
    {
      found, prev, i := list.head, null, 0;
      list.AllAt();
      while found != null && KeyOf(found.data, k) != x
        invariant i <= |list.spine| && found == list.NodeAt(i)
        invariant i > 0 ==> prev == list.spine[i - 1]
        invariant forall j | 0 <= j < i :: KeyOf(list.items[j], k) != x
        decreases |list.spine| - i
      {
        prev, found := found, found.next;
        i := i + 1;
      }
      assert found != null ==> list.items[i] == found.data;
      assert i == FindRequest(View(), k, x);
    }

    /** `message_handler` for a message with the right token: the request of this context is made dirty,
        then its callback runs. */
    method Answer(ctx: nat, added: seq<Request>)
      requires Valid()
      modifies list, list.nodes
      ensures Valid() && Grows(old(list.spine), list.spine) && fresh(list.nodes - old(list.nodes))
      ensures var i := FindRequest(old(View()), ByContext, ctx);
              View() == if i == |old(View())| then old(View()) else AnsweredWith(old(View()), i, added)
    {
      var found, _, i := Walk(ByContext, ctx);
      if found != null {
        list.At(i);
        list.Update(found, i, found.data.(dirty := true));
        AddAll(added);
      }
    }

    /** `coap_io_process`, with a matching message for each element of `added`. */
    method Process(ctx: nat, added: seq<seq<Request>>, ghost i: nat)
      requires Valid() && i < |View()| && ctx == View()[i].ctx && FindRequest(View(), ByContext, ctx) == i
      modifies list, list.nodes
      ensures Valid() && Grows(old(list.spine), list.spine) && fresh(list.nodes - old(list.nodes))
      ensures View() == AllAnswered(old(View()), i, added)
      decreases |added|
    {
      if added != [] {
        FoundStill(View(), i, added[0]);
        Answer(ctx, added[0]);
        Process(ctx, added[1..], i);
      }
    }

    /** `coap_client_sched_callback`, when `coap_io_process` hands over any number of matching messages. */
    method OnReadable(fd: int, added: seq<seq<Request>>)
      requires Valid()
      requires forall i, j | 0 <= i < j < |View()| :: View()[i].ctx != View()[j].ctx
      modifies list, list.nodes
      ensures Valid()
      ensures var q := old(View());
              var i := FindRequest(q, ByFd, fd);
              View() == if i < |q| && (q[i].dirty || added != []) then Without(q, i) + Flat(added) else q
    {
      var p, pp, i := Walk(ByFd, fd);
      if p == null {
        return;
      }
      list.At(i);
      ghost var q := View();
      assert FindRequest(q, ByContext, q[i].ctx) == i;
      AllAnsweredMeans(q, i, added);
      Process(p.data.ctx, added, i);
      list.At(i);
      WithoutFront(q, i, q[i].(dirty := true), Flat(added));
      if p.data.dirty {
        list.Unlink(pp, p, i);
      }
      assert added == [] ==> Without(q, i) + Flat(added) == Without(q, i);
    }

    /** `request_alarm_cb`: the callback runs, then the request is unlinked. */
    method OnTimeout(id: int, added: seq<Request>)
      requires Valid()
      modifies list, list.nodes
      ensures Valid()
      ensures var i := FindRequest(old(View()), ByAlarm, id);
              View() == if i < |old(View())| then Without(old(View()), i) + added else old(View())
    {
      var p, pp, i := Walk(ByAlarm, id);
      if p != null {
        ghost var q := View();
        AddAll(added);
        WithoutFront(q, i, q[i], added);
        list.Unlink(pp, p, i);
      }
    }
  }

  // ----- The same list as in `CoapClient`

  /** What the callbacks submit that the messages of one context bring about, callback by callback. */
  function AddedBy(s: State, ctx: nat, ds: seq<Delivery>): seq<seq<Request>>
    decreases |ds|
  {
    if ds == [] then []
    else
      var i, s1 := FindRequest(s.requests, ByContext, ctx), MessageHandled(s, ctx, ds[0]);
      if i < |s.requests| && TokenMatches(ds[0].m, s.requests[i])
      then [s1.requests[|s.requests|..]] + AddedBy(s1, ctx, ds[1..])
      else AddedBy(s1, ctx, ds[1..])
  }

  /** One callback for each matching message, and together they submit all that is new in the list. */
  lemma {:induction false} AddedByMeans(s: State, i: nat, ds: seq<Delivery>)
    requires Numbered(s) && i < |s.requests|
    ensures var added, s' := AddedBy(s, s.requests[i].ctx, ds), Drained(s, s.requests[i].ctx, ds);
            |added| == |Answers(ds, s.requests[i])| && s'.requests[|s.requests|..] == Flat(added)
    decreases |ds|
  {
    if ds != [] {
      var r, s1 := s.requests[i], MessageHandled(s, s.requests[i].ctx, ds[0]);
      assert FindRequest(s.requests, ByContext, r.ctx) == i;
      StillThere(s, i, ds[0]);
      AddedByMeans(s1, i, ds[1..]);
      if TokenMatches(ds[0].m, r) {
        AnswersIgnoreDirty(ds[1..], r, s1.requests[i]);
        DrainedServes(s1, i, ds[1..]);
        Beyond(s.requests, s1.requests, Drained(s1, r.ctx, ds[1..]).requests, i);
      }
    }
  }

  lemma StillThere(s: State, i: nat, d: Delivery)
    requires Numbered(s) && i < |s.requests|
    ensures var r, s1 := s.requests[i], MessageHandled(s, s.requests[i].ctx, d);
            && Numbered(s1) && |s.requests| <= |s1.requests| && s1.requests[i].ctx == r.ctx
            && s1.requests[i].(dirty := true) == r.(dirty := true)
  {
    var s1 := MessageHandled(s, s.requests[i].ctx, d);
    MessageServes(s, i, d);
    assert s1.requests[i] == s1.requests[..|s.requests|][i];
  }

  lemma Beyond(a: seq<Request>, b: seq<Request>, c: seq<Request>, i: nat)
    requires i < |a| <= |b| <= |c| && c[..|b|] == b[i := c[i]]
    ensures c[|a|..] == b[|a|..] + c[|b|..]
  {
    assert forall k | |a| <= k < |b| :: c[k] == c[..|b|][k];
  }

  /** Whatever the callbacks do to alarms besides, they submit requests, as many lots of them as messages match,
      with which `Chain.OnReadable` leaves the list that the response handler leaves. */
  lemma ResponseRefined(s: State, i: nat, ds: seq<Delivery>) returns (added: seq<seq<Request>>)
    requires Owned(s) && Settled(s) && Numbered(s) && i < |s.requests|
    ensures |added| == |Answers(ds, s.requests[i])|
    ensures Drained(s, s.requests[i].ctx, ds).requests[|s.requests|..] == Flat(added)
    ensures Responded(s, s.requests[i].fd, ds).requests
            == if s.requests[i].dirty || added != [] then Without(s.requests, i) + Flat(added) else s.requests
  {
    added := AddedBy(s, s.requests[i].ctx, ds);
    AddedByMeans(s, i, ds);
    RespondedExact(s, i, ds);
  }

  /** And likewise on the time-out path. */
  lemma TimeoutRefined(s: State, i: nat, script: seq<Action>) returns (added: seq<Request>)
    requires Owned(s) && i < |s.requests|
    ensures Called(s, i, TimedOut, script, s.requests[i].alarmId).requests == s.requests + added
    ensures Triggered(s, s.requests[i].alarmId, script).requests == Without(s.requests, i) + added
  {
    TimeoutIsFinish(s, i, script);
    added := Called(s, i, TimedOut, script, s.requests[i].alarmId).requests[|s.requests|..];
  }
}
