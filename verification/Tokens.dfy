/** The tokens of pending requests. They are drawn from one counter of 32 bits (src/coap/atlas_coap_client.c, lines
    51-57), so that over every run of the main loop two requests can only have the same token when the counter has
    gone all the way round between them. */
module Tokens {
  import opened LinkedLists
  import opened Bytes
  import Scheduler
  import opened Alarms
  import opened CoapClient
  import opened EventLoop

  /** Which of the tokens drawn so far the pending requests have: the n-th is n modulo 2^32, in memory. */
  datatype Draws = Draws(ns: seq<nat>, drawn: nat)

  ghost predicate Drawn(s: State, d: Draws) {
    && |d.ns| == |s.requests| && s.nextToken == d.drawn % 0x1_0000_0000
    && (forall i, j | 0 <= i < j < |d.ns| :: d.ns[i] < d.ns[j])
    && forall i | 0 <= i < |d.ns| :: d.ns[i] < d.drawn && s.requests[i].token == Store32(s.host, d.ns[i] % 0x1_0000_0000)
  }

  lemma DrawNext(n: nat)
    ensures (n % 0x1_0000_0000 + 1) % 0x1_0000_0000 == (n + 1) % 0x1_0000_0000
  {
  }

  lemma SubmittedDrawn(s: State, q: Submission, d: Draws) returns (d': Draws)
    requires Drawn(s, d)
    ensures Drawn(Submitted(s, q), d') && d.drawn <= d'.drawn
  {
    d' := d;
    if !q.stage.NoSession? {
      DrawNext(d.drawn);
      d' := Draws(if Accepted(s, q) then d.ns + [d.drawn] else d.ns, d.drawn + 1);
    }
  }

  lemma {:induction false} RanDrawn(s: State, script: seq<Action>, firing: int, d: Draws) returns (d': Draws)
    requires Drawn(s, d)
    ensures Drawn(Ran(s, script, firing), d') && d.drawn <= d'.drawn
    decreases |script|
  {
    d' := d;
    if script != [] {
      if script[0].Submit? { d' := SubmittedDrawn(s, script[0].s, d); }
      d' := RanDrawn(Acted(s, script[0], firing), script[1..], firing, d');
    }
  }

  lemma {:induction false} DrainedDrawn(s: State, ctx: nat, ds: seq<Delivery>, d: Draws) returns (d': Draws)
    requires Drawn(s, d)
    ensures Drawn(Drained(s, ctx, ds), d') && d.drawn <= d'.drawn
    decreases |ds|
  {
    d' := d;
    if ds != [] {
      var i := FindRequest(s.requests, ByContext, ctx);
      if i < |s.requests| && TokenMatches(ds[0].m, s.requests[i]) {
        var r, s1 := s.requests[i], Marking(s, i);
        d' := RanDrawn(s1.(log := s1.log + [Completion(r.ctx, r.callback, StatusOf(ds[0].m))]), ds[0].script, -1, d);
      }
      d' := DrainedDrawn(MessageHandled(s, ctx, ds[0]), ctx, ds[1..], d');
    }
  }

  /** A request leaves the list. */
  lemma LeftDrawn(s: State, i: nat, s': State, d: Draws)
    requires Drawn(s, d) && i < |s.requests| && s'.requests == Without(s.requests, i)
    requires s'.nextToken == s.nextToken && s'.host == s.host
    ensures Drawn(s', Draws(Without(d.ns, i), d.drawn))
  {
  }

  lemma AttendedDrawn(s: State, i: nat, ds: seq<Delivery>, d: Draws) returns (d': Draws)
    requires Drawn(s, d) && i < |s.requests|
    ensures Drawn(Attended(s, i, ds), d') && d.drawn <= d'.drawn
  {
    var s1 := Drained(s, s.requests[i].ctx, ds);
    d' := DrainedDrawn(s, s.requests[i].ctx, ds, d);
    if s1.requests[i].dirty {
      LeftDrawn(s1, i, Finished(s1, i), d');
      d' := Draws(Without(d'.ns, i), d'.drawn);
    }
  }

  lemma ExpiredDrawn(s: State, a: Alarm, script: seq<Action>, d: Draws) returns (d': Draws)
    requires Drawn(s, d)
    ensures Drawn(Expired(s, a, script), d') && d.drawn <= d'.drawn
  {
    d' := d;
    if a.callback.RequestTimeout? {
      var i := FindRequest(s.requests, ByAlarm, a.id);
      if i < |s.requests| {
        var s1 := Called(s, i, TimedOut, script, a.id);
        var e := Completion(s.requests[i].ctx, s.requests[i].callback, TimedOut);
        d' := RanDrawn(s.(log := s.log + [e]), script, a.id, d);
        LeftDrawn(s1, i, Retired(s1, i), d');
        d' := Draws(Without(d'.ns, i), d'.drawn);
      }
    } else {
      d' := RanDrawn(s, script, a.id, d);
    }
  }

  lemma HandledDrawn(w: World, e: Scheduler.Entry, r: Reaction, d: Draws) returns (d': Draws)
    requires Drawn(w.c, d)
    ensures Drawn(Handled(w, e, r).c, d') && d.drawn <= d'.drawn
  {
    d' := d;
    match e.handler
    case AlarmTrigger =>
      var k := FindAlarm(w.c.t.alarms, e.fd);
      if k < |w.c.t.alarms| { d' := ExpiredDrawn(w.c, w.c.t.alarms[k], r.script, d); }
    case CoapResponse =>
      var i := FindRequest(w.c.requests, ByFd, e.fd);
      if i < |w.c.requests| { d' := AttendedDrawn(w.c, i, r.deliveries, d); }
    case CoapServer => d' := RanDrawn(w.c, r.script, -1, d);
    case DataPlaneAccept =>
    case DataPlaneRead => if !r.readFails { d' := RanDrawn(w.c, r.script, -1, d); }
  }

  lemma {:induction false} PassDrawn(w: World, i: nat, readfds: set<int>, reactions: seq<Reaction>, n: nat, d: Draws)
    returns (d': Draws)
    requires Drawn(w.c, d)
    ensures Drawn(Pass(w, i, readfds, reactions, n).w.c, d') && d.drawn <= d'.drawn
    decreases |readfds|, |w.c.t.sched| - i
  {
    d' := d;
    if i < |w.c.t.sched| {
      var e := w.c.t.sched[i];
      if !e.dirty && e.fd in readfds {
        d' := HandledDrawn(w, e, ReactionAt(reactions, n), d);
        d' := PassDrawn(Handled(w, e, ReactionAt(reactions, n)), i + 1, readfds - {e.fd}, reactions, n + 1, d');
      } else {
        d' := PassDrawn(w, i + 1, readfds, reactions, n, d);
      }
    }
  }

  lemma {:induction false} RunDrawn(w: World, rounds: seq<Round>, d: Draws) returns (d': Draws)
    requires Drawn(w.c, d)
    ensures Drawn(Run(w, rounds).c, d') && d.drawn <= d'.drawn
    decreases |rounds|
  {
    d' := d;
    if rounds != [] {
      var live := Scheduler.Live(w.c.t.sched);
      assert Drawn(Swept(w).c, d);
      d' := PassDrawn(Swept(w), 0, rounds[0].readable * Scheduler.Fds(live), rounds[0].reactions, 0, d);
      d' := RunDrawn(RoundDone(w, rounds[0]), rounds[1..], d');
    }
  }

  lemma SameModulo(a: nat, b: nat)
    ensures a % 0x1_0000_0000 == b % 0x1_0000_0000 <==> (b - a) % 0x1_0000_0000 == 0
  {
    var p, q := a / 0x1_0000_0000, b / 0x1_0000_0000;
    assert b - a == 0x1_0000_0000 * (q - p) + (b % 0x1_0000_0000 - a % 0x1_0000_0000);
  }

  /** Two pending requests have the same token exactly when a multiple of 2^32 tokens were drawn from the one to the
      other. */
  lemma SameToken(s: State, d: Draws, i: nat, j: nat)
    requires Drawn(s, d) && i < j < |s.requests|
    ensures s.requests[i].token == s.requests[j].token <==> (d.ns[j] - d.ns[i]) % 0x1_0000_0000 == 0
  {
    SameModulo(d.ns[i], d.ns[j]);
    Store32Exact(d.ns[i] % 0x1_0000_0000, d.ns[j] % 0x1_0000_0000, s.host);
  }

  ghost predicate AllDiffer(requests: seq<Request>) {
    forall i, j | 0 <= i < j < |requests| :: requests[i].token != requests[j].token
  }

  /** At most 2^32 tokens were drawn since that of the oldest pending request. */
  predicate Within(d: Draws) {
    d.ns == [] || d.drawn - d.ns[0] <= 0x1_0000_0000
  }

  lemma WithinDiffer(s: State, d: Draws)
    requires Drawn(s, d) && Within(d)
    ensures AllDiffer(s.requests)
  {
    forall i, j | 0 <= i < j < |s.requests| ensures s.requests[i].token != s.requests[j].token {
      SameToken(s, d, i, j);
    }
  }

  lemma StartedDrawn(host: Endian, register: Submission, server: int, listener: int) returns (d: Draws)
    ensures Drawn(Started(host, register, server, listener).c, d)
  {
    d := SubmittedDrawn(Blank(host).c, register, Draws([], 0));
  }

  /** From `main`'s start, over every run: the pending requests' tokens were drawn one after the other, and they are
      all different as long as the counter has not gone round since the oldest of them. */
  lemma TokensDiffer(host: Endian, register: Submission, server: int, listener: int, rounds: seq<Round>) returns (d: Draws)
    ensures var s := Run(Started(host, register, server, listener), rounds).c;
            Drawn(s, d) && (Within(d) ==> AllDiffer(s.requests))
  {
    var w := Started(host, register, server, listener);
    d := StartedDrawn(host, register, server, listener);
    d := RunDrawn(w, rounds, d);
    if Within(d) { WithinDiffer(Run(w, rounds).c, d); }
  }

  /** A submission that fails leaves nothing behind but, once it has a session, a token that is not used again. */
  lemma RefusedExact(s: State, q: Submission)
    requires q.stage.NoSession? || q.stage.NoToken? || q.coapFd < 0 || q.timerFd < 0
             || q.coapFd in s.t.open || q.timerFd in s.t.open || q.coapFd == q.timerFd
    ensures var s' := Submitted(s, q);
            && s' == s.(nextToken := s'.nextToken)
            && s'.nextToken == if q.stage.NoSession? then s.nextToken
                               else if s.nextToken == 0xffff_ffff then 0 else s.nextToken + 1
  {
  }

  /** One that succeeds is the last in the list, waiting, with the token and the numbers it was given. */
  lemma AcceptedExact(s: State, q: Submission)
    requires q.stage.Chained? && q.coapFd >= 0 && q.timerFd >= 0 && q.coapFd != q.timerFd
    requires q.coapFd !in s.t.open && q.timerFd !in s.t.open
    ensures var s' := Submitted(s, q);
            && s'.requests == s.requests +
                 [Request(q.coapFd, q.timerFd, s.issued, Store32(s.host, s.nextToken), q.callback, false)]
            && s'.t.alarms == s.t.alarms + [Alarm(q.timerFd, RequestTimeout, true)]
            && s'.t.open == s.t.open + {q.coapFd, q.timerFd} && s'.issued == s.issued + 1
            && s'.nextToken == (if s.nextToken == 0xffff_ffff then 0 else s.nextToken + 1) && s'.log == s.log
  {
    assert s.t.open + {q.coapFd} + {q.timerFd} == s.t.open + {q.coapFd, q.timerFd};
  }
}
