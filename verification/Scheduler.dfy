/** The scheduler's entry list (src/scheduler/atlas_scheduler.c): entries are appended, deletion only
    sets a dirty bit, and the next round of the main loop sweeps the dirty entries out in place. */
module Scheduler {
  import opened LinkedLists
  import opened Sequences

  /** The functions the client registers for a readable descriptor. */
  datatype Handler = AlarmTrigger | CoapResponse | CoapServer | DataPlaneAccept | DataPlaneRead

  datatype Entry = Entry(fd: int, handler: Handler, dirty: bool)

  // ----- The list as a value

  function Added(s: seq<Entry>, fd: int, handler: Handler): seq<Entry> {
    if fd < 0 then s else s + [Entry(fd, handler, false)]
  }

  /** Deletion marks the first entry with this descriptor, whether or not it is dirty already. */
  function Marked(s: seq<Entry>, fd: int): (r: seq<Entry>)
    ensures |r| == |s| && Aged(s, r)
  {
    if s == [] then []
    else if s[0].fd == fd then [s[0].(dirty := true)] + s[1..]
    else [s[0]] + Marked(s[1..], fd)
  }

  /** What callbacks do to the list between two sweeps: entries are appended or made dirty. */
  ghost predicate Aged(s: seq<Entry>, s': seq<Entry>) {
    && |s| <= |s'|
    && forall k | 0 <= k < |s| ::
         s'[k].fd == s[k].fd && s'[k].handler == s[k].handler && (s[k].dirty ==> s'[k].dirty)
  }

  function Live(s: seq<Entry>): seq<Entry> {
    if s == [] then []
    else if s[0].dirty then Live(s[1..])
    else [s[0]] + Live(s[1..])
  }

  /** The descriptors of the live entries, in list order. */
  function LiveFds(s: seq<Entry>): seq<int> {
    if s == [] then []
    else if s[0].dirty then LiveFds(s[1..])
    else [s[0].fd] + LiveFds(s[1..])
  }

  /** The descriptors of the live entries of one handler, in list order. */
  function LiveOf(s: seq<Entry>, h: Handler): seq<int> {
    if s == [] then []
    else if s[0].dirty || s[0].handler != h then LiveOf(s[1..], h)
    else [s[0].fd] + LiveOf(s[1..], h)
  }

  /** A deletion of `fd` would hit a dirty entry while a live one with the same number stands behind it. */
  predicate Shadowed(s: seq<Entry>, fd: int) {
    s != [] &&
    if s[0].fd == fd then s[0].dirty && fd in LiveFds(s[1..])
    else Shadowed(s[1..], fd)
  }

  /** `q` without the first occurrence of `x`. */
  function Drop(q: seq<int>, x: int): seq<int> {
    if q == [] then [] else if q[0] == x then q[1..] else [q[0]] + Drop(q[1..], x)
  }

  predicate Distinct(q: seq<int>) {
    forall i, j | 0 <= i < j < |q| :: q[i] != q[j]
  }

  function Fds(s: seq<Entry>): set<int> {
    if s == [] then {} else Fds(s[..|s| - 1]) + {s[|s| - 1].fd}
  }

  /** The largest descriptor, or 0 when there is none. */
  function MaxFd(s: seq<Entry>): int {
    if s == [] then 0
    else var m := MaxFd(s[..|s| - 1]); if s[|s| - 1].fd > m then s[|s| - 1].fd else m
  }

  // ----- Sequence facts

  lemma {:induction false} LiveConcat(a: seq<Entry>, b: seq<Entry>)
    ensures Live(a + b) == Live(a) + Live(b)
    ensures LiveFds(a + b) == LiveFds(a) + LiveFds(b)
  {
    if a == [] {
      Empty(b);
      Empty(Live(b));
      Empty(LiveFds(b));
    } else {
      LiveConcat(a[1..], b);
      HeadAndTail(a, b);
      Assoc([a[0]], Live(a[1..]), Live(b));
      Assoc([a[0].fd], LiveFds(a[1..]), LiveFds(b));
    }
  }

  lemma {:induction false} LiveOfConcat(a: seq<Entry>, b: seq<Entry>, h: Handler)
    ensures LiveOf(a + b, h) == LiveOf(a, h) + LiveOf(b, h)
  {
    if a == [] {
      Empty(b);
      Empty(LiveOf(b, h));
    } else {
      LiveOfConcat(a[1..], b, h);
      HeadAndTail(a, b);
      Assoc([a[0].fd], LiveOf(a[1..], h), LiveOf(b, h));
    }
  }

  lemma AddedLive(s: seq<Entry>, fd: int, handler: Handler)
    requires fd >= 0
    ensures LiveFds(Added(s, fd, handler)) == LiveFds(s) + [fd]
    ensures forall h :: LiveOf(Added(s, fd, handler), h) == LiveOf(s, h) + if h == handler then [fd] else []
  {
    var e := Entry(fd, handler, false);
    LiveConcat(s, [e]);
    forall h ensures LiveOf(s + [e], h) == LiveOf(s, h) + if h == handler then [fd] else [] {
      LiveOfConcat(s, [e], h);
      assert LiveOf([e], h) == (if h == handler then [fd] else []) + LiveOf([e][1..], h);
    }
  }

  lemma {:induction false} LiveFdsMap(s: seq<Entry>)
    ensures LiveFds(s) == seq(|Live(s)|, i requires 0 <= i < |Live(s)| => Live(s)[i].fd)
    ensures forall e | e in Live(s) :: !e.dirty
  {
    if s != [] { LiveFdsMap(s[1..]); }
  }

  lemma {:induction false} LiveOfMember(s: seq<Entry>, h: Handler)
    ensures forall x | x in LiveOf(s, h) :: x in LiveFds(s)
  {
    if s != [] { LiveOfMember(s[1..], h); }
  }

  lemma DistinctCons(x: int, q: seq<int>)
    requires Distinct(q) && x !in q
    ensures Distinct([x] + q)
  {
  }

  /** The first live descriptor of a distinct list is not among the others. */
  lemma DistinctRest(s: seq<Entry>)
    requires Distinct(LiveFds(s)) && s != []
    ensures Distinct(LiveFds(s[1..])) && (!s[0].dirty ==> s[0].fd !in LiveFds(s[1..]))
  {
    var t := LiveFds(s[1..]);
    if !s[0].dirty {
      assert LiveFds(s) == [s[0].fd] + t;
      assert forall j | 0 <= j < |t| :: t[j] == LiveFds(s)[j + 1] != LiveFds(s)[0];
    }
  }

  lemma {:induction false} DropAbsent(q: seq<int>, x: int)
    requires x !in q
    ensures Drop(q, x) == q
  {
    if q != [] { DropAbsent(q[1..], x); }
  }

  lemma {:induction false} DropMember(q: seq<int>, x: int)
    ensures forall y | y in Drop(q, x) :: y in q
  {
    if q != [] && q[0] != x {
      DropMember(q[1..], x);
    }
  }

  lemma {:induction false} DropDistinct(q: seq<int>, x: int)
    requires Distinct(q)
    ensures Distinct(Drop(q, x)) && x !in Drop(q, x)
    ensures forall y :: y in Drop(q, x) <==> y in q && y != x
  {
    if q != [] {
      if q[0] == x {
        assert forall i | 0 <= i < |q[1..]| :: q[1..][i] == q[i + 1];
      } else {
        DropDistinct(q[1..], x);
        var d := Drop(q[1..], x);
        assert Drop(q, x) == [q[0]] + d;
        assert q[0] !in q[1..];
        assert q == [q[0]] + q[1..];
      }
    }
  }

  /** Dropping a distinct sequence's element at a known position leaves that position out. */
  lemma {:induction false} DropIsWithout(q: seq<int>, i: nat)
    requires Distinct(q) && i < |q|
    ensures Drop(q, q[i]) == Without(q, i)
  {
    if i > 0 {
      var t := q[1..];
      assert q == [q[0]] + t && t[i - 1] == q[i] != q[0];
      DropIsWithout(t, i - 1);
      assert Without(q, i) == [q[0]] + Without(t, i - 1);
    }
  }

  // ----- What a deletion does

  lemma {:induction false} NotLiveUnmarked(s: seq<Entry>, fd: int)
    requires fd !in LiveFds(s)
    ensures LiveFds(Marked(s, fd)) == LiveFds(s)
    ensures !Shadowed(s, fd)
    ensures forall h :: LiveOf(Marked(s, fd), h) == LiveOf(s, h)
  {
    if s != [] && s[0].fd != fd { NotLiveUnmarked(s[1..], fd); }
  }

  /** A deletion takes the descriptor out of the live ones exactly when it is not shadowed;
      a shadowed deletion changes nothing at all. */
  lemma {:induction false} DeleteExact(s: seq<Entry>, fd: int)
    ensures LiveFds(Marked(s, fd)) == Drop(LiveFds(s), fd) <==> !Shadowed(s, fd)
    ensures Shadowed(s, fd) ==> Marked(s, fd) == s && fd in LiveFds(s)
  {
    if s == [] {
    } else if s[0].fd == fd {
      if s[0].dirty {
        assert s[0].(dirty := true) == s[0];
        assert Marked(s, fd) == s;
        if fd in LiveFds(s[1..]) {
          DropShorter(LiveFds(s), fd);
        } else {
          DropAbsent(LiveFds(s), fd);
        }
      }
    } else {
      DeleteExact(s[1..], fd);
      var m := Marked(s, fd);
      assert m[1..] == Marked(s[1..], fd) && m[0] == s[0];
      if !s[0].dirty {
        assert LiveFds(s)[1..] == LiveFds(s[1..]);
        assert LiveFds(m) == [s[0].fd] + LiveFds(m[1..]);
        assert LiveFds(m)[1..] == LiveFds(m[1..]);
        assert Drop(LiveFds(s), fd) == [s[0].fd] + Drop(LiveFds(s[1..]), fd);
        assert Drop(LiveFds(s), fd)[1..] == Drop(LiveFds(s[1..]), fd);
      }
    }
  }

  lemma {:induction false} DropShorter(q: seq<int>, x: int)
    requires x in q
    ensures |Drop(q, x)| == |q| - 1
  {
    if q[0] != x { DropShorter(q[1..], x); }
  }

  /** An unshadowed deletion takes the descriptor from its own handler's entries and no others. */
  lemma {:induction false} DeletePerHandler(s: seq<Entry>, fd: int, h: Handler)
    requires Distinct(LiveFds(s)) && !Shadowed(s, fd)
    ensures LiveOf(Marked(s, fd), h) == Drop(LiveOf(s, h), fd)
  {
    if s == [] {
    } else if s[0].fd == fd {
      LiveOfMember(s[1..], h);
      assert !s[0].dirty ==> LiveFds(s)[0] == fd && LiveFds(s)[1..] == LiveFds(s[1..]);
      assert fd !in LiveFds(s[1..]);
      assert fd !in LiveOf(s[1..], h);
      DropAbsent(LiveOf(s[1..], h), fd);
      assert Marked(s, fd)[1..] == s[1..];
    } else {
      assert !s[0].dirty ==> LiveFds(s)[1..] == LiveFds(s[1..]);
      assert Distinct(LiveFds(s[1..]));
      DeletePerHandler(s[1..], fd, h);
      assert Marked(s, fd)[1..] == Marked(s[1..], fd);
    }
  }

  /** The entry that a deletion marks, found by walking. */
  lemma {:induction false} MarkedAt(s: seq<Entry>, fd: int, i: nat)
    requires i <= |s| && forall j | 0 <= j < i :: s[j].fd != fd
    requires i < |s| ==> s[i].fd == fd
    ensures Marked(s, fd) == if i < |s| then s[i := s[i].(dirty := true)] else s
  {
    if i > 0 {
      MarkedAt(s[1..], fd, i - 1);
    }
  }

  /** The sweep unlinks a dirty entry. */
  lemma SweepDrops(kept: seq<Entry>, rest: seq<Entry>)
    requires rest != [] && rest[0].dirty
    ensures Without(kept + rest, |kept|) == kept + rest[1..]
    ensures Live(rest) == Live(rest[1..])
  {
  }

  /** The sweep goes past a live one, */
  lemma SweepKeeps(kept: seq<Entry>, rest: seq<Entry>)
    requires rest != [] && !rest[0].dirty
    ensures kept + rest == kept + [rest[0]] + rest[1..]
    ensures kept + Live(rest) == kept + [rest[0]] + Live(rest[1..])
  {
    assert rest == [rest[0]] + rest[1..];
    Assoc(kept, [rest[0]], rest[1..]);
    Assoc(kept, [rest[0]], Live(rest[1..]));
  }

  /** and adds its descriptor to what `select` is given. */
  lemma SweepCollects(kept: seq<Entry>, e: Entry)
    ensures Fds(kept + [e]) == Fds(kept) + {e.fd}
    ensures MaxFd(kept + [e]) == if e.fd > MaxFd(kept) then e.fd else MaxFd(kept)
  {
    assert (kept + [e])[..|kept|] == kept;
  }

  /** What `select` is given: exactly the descriptors of the list, and a bound on them that is one of
      them, or 0. */
  lemma {:induction false} WatchExact(s: seq<Entry>)
    ensures forall fd :: fd in Fds(s) <==> exists k :: 0 <= k < |s| && s[k].fd == fd
    ensures forall fd | fd in Fds(s) :: fd <= MaxFd(s)
    ensures MaxFd(s) in Fds(s) || MaxFd(s) == 0
  {
    if s != [] {
      var t := s[..|s| - 1];
      WatchExact(t);
      forall fd | fd in Fds(s) ensures exists k :: 0 <= k < |s| && s[k].fd == fd {
        if fd in Fds(t) {
          var k :| 0 <= k < |t| && t[k].fd == fd;
          assert s[k].fd == fd;
        }
      }
      forall k | 0 <= k < |s| ensures s[k].fd in Fds(s) {
        if k < |t| { assert t[k].fd in Fds(t); }
      }
    }
  }

  /** Sweeping drops no live descriptor and leaves nothing dirty, so no later deletion is shadowed
      unless a number is reused. */
  lemma {:induction false} SweepKeepsLive(s: seq<Entry>)
    ensures LiveFds(Live(s)) == LiveFds(s)
    ensures forall h :: LiveOf(Live(s), h) == LiveOf(s, h)
    ensures forall fd :: !Shadowed(Live(s), fd)
  {
    if s != [] { SweepKeepsLive(s[1..]); }
  }

  // ----- The list in memory

  class EntryList {
    const entries: LinkedList<Entry>

    ghost predicate Valid()
      reads this, entries, entries.nodes
    {
      entries.Valid()
    }

    ghost function View(): seq<Entry>
      reads this, entries
    {
      entries.items
    }

    constructor ()
      ensures Valid() && fresh(this) && fresh(entries) && View() == [] && entries.nodes == {}
    {
      entries := new LinkedList();
    }

    method Add(fd: int, handler: Handler)
      requires Valid()
      modifies entries, entries.nodes
      ensures Valid() && Grows(old(entries.spine), entries.spine)
      ensures fresh(entries.nodes - old(entries.nodes))
      ensures View() == Added(old(View()), fd, handler)
    {
      if fd < 0 {
        return;
      }
      entries.Append(Entry(fd, handler, false));
    }

    method Delete(fd: int)
      requires Valid()
      modifies entries`items, entries.nodes
      ensures Valid() && entries.spine == old(entries.spine)
      ensures View() == Marked(old(View()), fd)
    {
      var p := entries.head;
      ghost var i := 0;
      entries.AllAt();
      while p != null && p.data.fd != fd
        invariant i <= |entries.spine| && p == entries.NodeAt(i)
        invariant forall k | 0 <= k < i :: View()[k].fd != fd
        decreases |entries.spine| - i
      {
        p := p.next;
        i := i + 1;
      }
      ghost var was := View();
      MarkedAt(was, fd, i);
      if p != null {
        entries.Update(p, i, p.data.(dirty := true));
      }
    }

    /** One round's first half: dirty entries are unlinked and freed while the descriptors of the
        others are collected for `select`, with their maximum, or 0. */
    method Sweep() returns (readfds: set<int>, maxFd: int)
      requires Valid()
      modifies entries, entries.nodes
      ensures Valid() && entries.nodes == old(entries.nodes)
      ensures View() == Live(old(View()))
      ensures readfds == Fds(View()) && maxFd == MaxFd(View())
    {
      readfds, maxFd := {}, 0;
      var ent, prev := entries.head, null;
      ghost var kept, rest: seq<Entry> := [], View();
      while ent != null
        invariant Valid()
        invariant entries.nodes == old(entries.nodes)
        invariant View() == kept + rest && Live(old(View())) == kept + Live(rest)
        invariant ent == entries.NodeAt(|kept|)
        invariant |kept| > 0 ==> |kept| <= |entries.spine| && prev == entries.spine[|kept| - 1]
        invariant readfds == Fds(kept) && maxFd == MaxFd(kept)
        decreases |rest|
      {
        entries.At(|kept|);
        assert ent == entries.spine[|kept|] && ent.data == View()[|kept|] == rest[0];
        var next := ent.next;
        if ent.data.dirty {
          SweepDrops(kept, rest);
          entries.Unlink(prev, ent, |kept|);
          assert next == entries.NodeAt(|kept|) && View() == kept + rest[1..];
        } else {
          if ent.data.fd > maxFd {
            maxFd := ent.data.fd;
          }
          readfds := readfds + {ent.data.fd};
          SweepKeeps(kept, rest);
          SweepCollects(kept, rest[0]);
          prev, kept := ent, kept + [rest[0]];
          assert next == entries.NodeAt(|kept|) && View() == kept + rest[1..];
        }
        ent, rest := next, rest[1..];
      }
      assert View() == kept;
    }
  }
}
