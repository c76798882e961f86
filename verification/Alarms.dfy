/** Alarms (src/alarm/atlas_alarm.c): a list of timer descriptors, each with a scheduler entry.
    The process's descriptor table is part of the state: the kernel may hand out any number that is
    not open, so a closed number can come back while its dirty scheduler entry is still listed. */
module Alarms {
  import opened LinkedLists
  import opened Scheduler
  import opened Sequences
  import opened Wrappers

  /** The functions the client passes to `atlas_alarm_set`. */
  datatype AlarmCallback = RequestTimeout | RegisterRetry | KeepAlive | PolicyRetry | PushAlert
                    | ThresholdAlert | Restart | Shutdown

  datatype Alarm = Alarm(id: int, callback: AlarmCallback, runOnce: bool)

  /** `clean` is a history flag: it turns false when the deletion of an alarm, a request or a replaced
      connection was shadowed (see `Scheduler.Shadowed`), or when a caller broke the rules recorded in
      `CoapClient`. */
  datatype Table = Table(sched: seq<Entry>, alarms: seq<Alarm>, open: set<int>, clean: bool)

  // ----- The table as a value

  /** The kernel's answer to a request for a new descriptor: never one that is open. */
  function Granted(offered: int, open: set<int>): int {
    if offered < 0 || offered in open then -1 else offered
  }

  /** The scheduler's entries aged, and a broken rule stays on record. */
  ghost predicate Older(t: Table, t': Table) {
    Aged(t.sched, t'.sched) && (t'.clean ==> t.clean)
  }

  /** `atlas_sched_del_entry`, remembering whether it was shadowed. */
  function Deleted(t: Table, fd: int): Table {
    t.(sched := Marked(t.sched, fd), clean := t.clean && !Shadowed(t.sched, fd))
  }

  function Closed(t: Table, fd: int): Table {
    t.(open := t.open - {fd})
  }

  function Watched(t: Table, fd: int, handler: Handler): Table {
    t.(sched := Added(t.sched, fd, handler), open := t.open + {fd})
  }

  /** The table after `atlas_alarm_set`, whose result is `Granted(offered, t.open)`. */
  function AlarmSet(t: Table, offered: int, callback: AlarmCallback, runOnce: bool): Table {
    var id := Granted(offered, t.open);
    if id < 0 then t
    else t.(sched := Added(t.sched, id, AlarmTrigger),
            alarms := t.alarms + [Alarm(id, callback, runOnce)],
            open := t.open + {id})
  }

  /** The position of the first alarm with this id, or the length. */
  function FindAlarm(alarms: seq<Alarm>, id: int): (i: nat)
    ensures i <= |alarms|
    ensures i < |alarms| ==> alarms[i].id == id
    ensures forall k | 0 <= k < i :: alarms[k].id != id
  {
    if alarms == [] || alarms[0].id == id then 0 else 1 + FindAlarm(alarms[1..], id)
  }

  function AlarmCanceled(t: Table, id: int): Table {
    var i := FindAlarm(t.alarms, id);
    if i == |t.alarms| then t
    else Closed(Deleted(t.(alarms := Without(t.alarms, i)), id), id)
  }

  function Ids(alarms: seq<Alarm>): seq<int> {
    seq(|alarms|, i requires 0 <= i < |alarms| => alarms[i].id)
  }

  function TimeoutId(a: Alarm): seq<int> {
    if a.callback.RequestTimeout? then [a.id] else []
  }

  /** The ids of the alarms that time requests out, in the order in which they were set. */
  function TimeoutIds(alarms: seq<Alarm>): seq<int> {
    if alarms == [] then []
    else TimeoutId(alarms[0]) + TimeoutIds(alarms[1..])
  }

  // ----- Each armed alarm has one live scheduler entry

  /** The live entries stand for distinct open descriptors, and those of the alarm trigger are the
      alarms, one for one and in the same order. */
  predicate Armed(t: Table) {
    && Distinct(LiveFds(t.sched))
    && (forall fd | fd in LiveFds(t.sched) :: fd in t.open)
    && LiveOf(t.sched, AlarmTrigger) == Ids(t.alarms)
  }

  /** The part of a distinct sequence that belongs to one handler is distinct. */
  lemma {:induction false} LiveOfDistinct(s: seq<Entry>, h: Handler)
    requires Distinct(LiveFds(s))
    ensures Distinct(LiveOf(s, h))
  {
    if s != [] {
      DistinctRest(s);
      LiveOfDistinct(s[1..], h);
      LiveOfMember(s[1..], h);
    }
  }

  lemma {:induction false} TimeoutIdsConcat(a: seq<Alarm>, b: seq<Alarm>)
    ensures TimeoutIds(a + b) == TimeoutIds(a) + TimeoutIds(b)
  {
    if a == [] {
      Empty(b);
      Empty(TimeoutIds(b));
    } else {
      TimeoutIdsConcat(a[1..], b);
      HeadAndTail(a, b);
      Assoc(TimeoutId(a[0]), TimeoutIds(a[1..]), TimeoutIds(b));
    }
  }

  lemma {:induction false} TimeoutIdsMember(alarms: seq<Alarm>)
    ensures forall x :: x in TimeoutIds(alarms) ==>
              exists i :: 0 <= i < |alarms| && alarms[i].id == x && alarms[i].callback.RequestTimeout?
  {
    if alarms != [] {
      TimeoutIdsMember(alarms[1..]);
      forall x | x in TimeoutIds(alarms)
        ensures exists i :: 0 <= i < |alarms| && alarms[i].id == x && alarms[i].callback.RequestTimeout?
      {
        if x in TimeoutIds(alarms[1..]) {
          var i :| 0 <= i < |alarms[1..]| && alarms[1..][i].id == x && alarms[1..][i].callback.RequestTimeout?;
          assert alarms[i + 1].id == x;
        } else {
          assert alarms[0].id == x;
        }
      }
    }
  }

  /** Taking out one alarm takes its id out of the ids, */
  lemma IdsWithout(alarms: seq<Alarm>, i: nat)
    requires Distinct(Ids(alarms)) && i < |alarms|
    ensures Ids(Without(alarms, i)) == Drop(Ids(alarms), alarms[i].id)
  {
    DropIsWithout(Ids(alarms), i);
  }

  /** and, if it times a request out, out of those. */
  lemma TimeoutIdsWithout(alarms: seq<Alarm>, i: nat)
    requires Distinct(Ids(alarms)) && i < |alarms|
    ensures TimeoutIds(Without(alarms, i)) == Drop(TimeoutIds(alarms), alarms[i].id)
    ensures !alarms[i].callback.RequestTimeout? ==> TimeoutIds(Without(alarms, i)) == TimeoutIds(alarms)
  {
    var a, x, b := alarms[..i], alarms[i], alarms[i + 1..];
    Around(alarms, i);
    TimeoutIdsAround(a, x, b);
    NotAmong(alarms, i);
    DropMiddle(TimeoutIds(a), TimeoutId(x), TimeoutIds(b), x.id);
    Empty(TimeoutIds(b));
  }

  lemma NotAmong(alarms: seq<Alarm>, i: nat)
    requires Distinct(Ids(alarms)) && i < |alarms|
    ensures alarms[i].id !in TimeoutIds(alarms[..i]) && alarms[i].id !in TimeoutIds(alarms[i + 1..])
  {
    var a, b := alarms[..i], alarms[i + 1..];
    TimeoutIdsMember(a);
    TimeoutIdsMember(b);
    assert forall k | 0 <= k < |a| :: a[k].id == Ids(alarms)[k] != Ids(alarms)[i];
    assert forall k | 0 <= k < |b| :: b[k].id == Ids(alarms)[i + 1 + k] != Ids(alarms)[i];
  }

  lemma TimeoutIdsAround(a: seq<Alarm>, x: Alarm, b: seq<Alarm>)
    ensures TimeoutIds(a + [x] + b) == TimeoutIds(a) + (TimeoutId(x) + TimeoutIds(b))
    ensures TimeoutIds(a + b) == TimeoutIds(a) + TimeoutIds(b)
  {
    Assoc(a, [x], b);
    TimeoutIdsConcat(a, [x] + b);
    HeadAndTail([x], b);
    One(x);
    Empty(b);
    TimeoutIdsConcat(a, b);
  }

  lemma {:induction false} DropMiddle(a: seq<int>, m: seq<int>, b: seq<int>, x: int)
    requires x !in a && x !in b && (m == [] || m == [x])
    ensures Drop(a + (m + b), x) == a + b
  {
    if a == [] {
      assert a + (m + b) == m + b;
      if m == [] {
        assert m + b == b;
        DropAbsent(b, x);
      } else {
        assert (m + b)[1..] == b;
      }
    } else {
      assert (a + (m + b))[1..] == a[1..] + (m + b);
      DropMiddle(a[1..], m, b, x);
    }
  }

  /** A new alarm gets an id that no live entry has, and is armed. */
  lemma AlarmSetKeeps(t: Table, offered: int, callback: AlarmCallback, runOnce: bool)
    requires Armed(t)
    ensures var id := Granted(offered, t.open);
            var t' := AlarmSet(t, offered, callback, runOnce);
            && Armed(t') && (id >= 0 ==> id !in LiveFds(t.sched) && id !in Ids(t.alarms))
            && Ids(t'.alarms) == Ids(t.alarms) + (if id >= 0 then [id] else [])
            && TimeoutIds(t'.alarms) ==
               TimeoutIds(t.alarms) + (if id >= 0 && callback.RequestTimeout? then [id] else [])
            && LiveFds(t'.sched) == LiveFds(t.sched) + (if id >= 0 then [id] else [])
            && forall h | h != AlarmTrigger :: LiveOf(t'.sched, h) == LiveOf(t.sched, h)
  {
    var id := Granted(offered, t.open);
    if id >= 0 {
      var t' := AlarmSet(t, offered, callback, runOnce);
      AddedLive(t.sched, id, AlarmTrigger);
      LiveOfMember(t.sched, AlarmTrigger);
      TimeoutIdsConcat(t.alarms, [Alarm(id, callback, runOnce)]);
      assert Ids(t'.alarms) == Ids(t.alarms) + [id];
    }
  }

  /** What deleting and closing a descriptor does to the live entries when it is not shadowed. */
  lemma DeletedExact(t: Table, fd: int)
    requires Distinct(LiveFds(t.sched)) && !Shadowed(t.sched, fd)
    requires forall x | x in LiveFds(t.sched) :: x in t.open
    ensures var t' := Closed(Deleted(t, fd), fd);
            && Distinct(LiveFds(t'.sched)) && LiveFds(t'.sched) == Drop(LiveFds(t.sched), fd)
            && (forall x | x in LiveFds(t'.sched) :: x in t'.open)
            && forall h :: LiveOf(t'.sched, h) == Drop(LiveOf(t.sched, h), fd)
  {
    DeleteExact(t.sched, fd);
    DropDistinct(LiveFds(t.sched), fd);
    forall h ensures LiveOf(Marked(t.sched, fd), h) == Drop(LiveOf(t.sched, h), fd) {
      DeletePerHandler(t.sched, fd, h);
    }
  }

  /** Canceling an armed alarm leaves everything else armed exactly when no dirty entry with the same
      descriptor stands before the alarm's own. Otherwise the scheduler is left watching a closed
      descriptor. */
  lemma AlarmCanceledExact(t: Table, id: int)
    requires Armed(t) && id in Ids(t.alarms)
    ensures Armed(AlarmCanceled(t, id)) <==> !Shadowed(t.sched, id)
    ensures Shadowed(t.sched, id) ==>
              var t' := AlarmCanceled(t, id); id in LiveFds(t'.sched) && id !in t'.open
  {
    var i := FindAlarm(t.alarms, id);
    LiveOfDistinct(t.sched, AlarmTrigger);
    assert exists k :: 0 <= k < |t.alarms| && Ids(t.alarms)[k] == id;
    IdsWithout(t.alarms, i);
    DeleteExact(t.sched, id);
    if !Shadowed(t.sched, id) {
      DeletedExact(t.(alarms := Without(t.alarms, i)), id);
    }
  }

  // ----- The table in memory

  class AlarmTable {
    const scheduler: EntryList
    const alarms: LinkedList<Alarm>
    var open: set<int>  // the process's descriptor table
    ghost var clean: bool

    ghost predicate Valid()
      reads this, scheduler, scheduler.entries, scheduler.entries.nodes, alarms, alarms.nodes
    {
      scheduler.Valid() && alarms.Valid()
    }

    ghost function View(): Table
      reads this, scheduler, scheduler.entries, alarms
    {
      Table(scheduler.View(), alarms.items, open, clean)
    }

    constructor ()
      ensures Valid() && fresh(this) && fresh(scheduler.entries) && fresh(alarms)
      ensures scheduler.entries.nodes == {} && alarms.nodes == {}
      ensures View() == Table([], [], {}, true)
    {
      scheduler := new EntryList();
      alarms := new LinkedList();
      open, clean := {}, true;
    }

    /** Nodes were only appended. */
    twostate predicate OnlyGrew()
      reads this, scheduler, scheduler.entries, alarms, alarms.nodes
    {
      && Grows(old(scheduler.entries.spine), scheduler.entries.spine)
      && fresh(scheduler.entries.nodes - old(scheduler.entries.nodes))
      && fresh(alarms.nodes - old(alarms.nodes))
    }

    /** `atlas_alarm_set`; `offered` is what the timer system calls return. */
    method Set(offered: int, callback: AlarmCallback, runOnce: bool) returns (id: int)
      requires Valid()
      modifies this, scheduler.entries, scheduler.entries.nodes, alarms, alarms.nodes
      ensures Valid() && OnlyGrew()
      ensures id == Granted(offered, old(open))
      ensures View() == AlarmSet(old(View()), offered, callback, runOnce)
    {
      id := Granted(offered, open);
      if id < 0 {
        return;
      }
      open := open + {id};
      scheduler.Add(id, AlarmTrigger);
      alarms.Append(Alarm(id, callback, runOnce));
    }

    /** `atlas_sched_del_entry`. */
    method Unschedule(fd: int)
      requires Valid()
      modifies this`clean, scheduler.entries`items, scheduler.entries.nodes
      ensures Valid() && View() == Deleted(old(View()), fd)
    {
      clean := clean && !Shadowed(scheduler.View(), fd);
      scheduler.Delete(fd);
    }

    /** A descriptor that stays open is watched. */
    method Watch(offered: int, handler: Handler) returns (fd: int)
      requires Valid()
      modifies this, scheduler.entries, scheduler.entries.nodes
      ensures Valid() && Grows(old(scheduler.entries.spine), scheduler.entries.spine)
      ensures fresh(scheduler.entries.nodes - old(scheduler.entries.nodes))
      ensures fd == Granted(offered, old(open))
      ensures View() == if fd < 0 then old(View()) else Watched(old(View()), fd, handler)
    {
      fd := Granted(offered, open);
      if fd >= 0 {
        open := open + {fd};
        scheduler.Add(fd, handler);
      }
    }

    /** A watched descriptor is given up. */
    method GiveUp(fd: int)
      requires Valid()
      modifies this, scheduler.entries`items, scheduler.entries.nodes
      ensures Valid() && View() == Closed(Deleted(old(View()), fd), fd)
    {
      Unschedule(fd);
      open := open - {fd};
    }

    /** The first alarm with this id. */
    method Find(id: int) returns (found: Option<Alarm>)
      requires Valid()
      ensures var i := FindAlarm(alarms.items, id);
              found == if i < |alarms.items| then Some(alarms.items[i]) else None
    {
      var p := alarms.head;
      ghost var i := 0;
      alarms.AllAt();
      while p != null && p.data.id != id
        invariant i <= |alarms.spine| && p == alarms.NodeAt(i)
        invariant forall k | 0 <= k < i :: alarms.items[k].id != id
        decreases |alarms.spine| - i
      {
        p := p.next;
        i := i + 1;
      }
      assert p != null ==> alarms.items[i] == p.data;
      assert i == FindAlarm(alarms.items, id);
      found := if p == null then None else Some(p.data);
    }

    method Cancel(id: int)
      requires Valid()
      modifies this, scheduler.entries`items, scheduler.entries.nodes, alarms, alarms.nodes
      ensures Valid()
      ensures View() == AlarmCanceled(old(View()), id)
      ensures alarms.nodes == old(alarms.nodes)
    {
      var p, prev := alarms.head, null;
      ghost var i := 0;
      alarms.AllAt();
      while p != null && p.data.id != id
        invariant i <= |alarms.spine| && p == alarms.NodeAt(i)
        invariant i > 0 ==> prev == alarms.spine[i - 1]
        invariant forall k | 0 <= k < i :: alarms.items[k].id != id
        decreases |alarms.spine| - i
      {
        prev, p := p, p.next;
        i := i + 1;
      }
      assert p != null ==> alarms.items[i] == p.data;
      assert i == FindAlarm(alarms.items, id);
      if p != null {
        Release(prev, p, i);
      }
    }

    /** Unlinks an alarm found by walking, and gives up its scheduler entry and its timer. */
    method Release(prev: Node?<Alarm>, p: Node<Alarm>, ghost i: nat)
      requires Valid() && i < |alarms.spine| && p == alarms.spine[i]
      requires i > 0 ==> prev == alarms.spine[i - 1]
      modifies this, scheduler.entries`items, scheduler.entries.nodes, alarms, alarms.nodes
      ensures Valid()
      ensures View() == Closed(Deleted(old(View()).(alarms := Without(old(alarms.items), i)), old(p.data.id)), old(p.data.id))
      ensures alarms.nodes == old(alarms.nodes)
    {
      ghost var was := View();
      alarms.At(i);
      var id := p.data.id;
      alarms.Unlink(prev, p, i);
      assert scheduler.Valid() && View() == was.(alarms := Without(was.alarms, i));
      Unschedule(id);
      open := open - {id};
    }

    /** What a completed request gives up: its scheduler entry, its alarm and its context's descriptor. */
    method Surrender(fd: int, id: int)
      requires Valid()
      modifies this, scheduler.entries`items, scheduler.entries.nodes, alarms, alarms.nodes
      ensures Valid() && alarms.nodes == old(alarms.nodes)
      ensures View() == Closed(AlarmCanceled(Deleted(old(View()), fd), id), fd)
    {
      Unschedule(fd);
      Cancel(id);
      open := open - {fd};
    }
  }
}
