/** Whole calls on a template, put together from their steps and compared with the naive run. */
module TemplateCalls {
  import opened Wrappers
  import opened Runtime
  import opened SessionPools
  import opened Commands
  import opened TemplateState
  import opened TemplateRuns
  import opened TemplateSteps

  /** A call matches the naive one; if it succeeds, sessions that were out are untouched and
      every pool holds what was needed at once. */
  ghost predicate CallDone(t0: Template, w0: World, t1: Template, w1: World,
                           cmd: Command, handed: Option<Handed>, k: nat, ok: bool) {
    && Matches(t0, w0, t1, w1, Naive(cmd, handed, View(t0), k), ok)
    && (ok ==> Keeps(t0, w0, t1, w1, {}) && PeakOf(cmd, t0.config, t0, t1))
  }

  ghost predicate BodyDone(t0: Template, w0: World, t1: Template, w1: World,
                           cmds: seq<Command>, handed: Option<Handed>, k: nat, ok: bool) {
    && Matches(t0, w0, t1, w1, NaiveAll(cmds, handed, View(t0), k), ok)
    && (ok ==> Keeps(t0, w0, t1, w1, {}) && PeakOfAll(cmds, t0.config, t0, t1))
  }

  /** The same for the part of a call that runs inside session `s`. */
  ghost predicate InsideDone(t0: Template, w0: World, t1: Template, w1: World,
                             cmd: Command, s: Id, k: nat, ok: bool)
    requires NeedsSession(cmd)
  {
    && Matches(t0, w0, t1, w1, Inside(cmd, View(t0), k), ok)
    && (ok ==> Keeps(t0, w0, t1, w1, {s}) && IsOut(t1, w1, s) && PeakInside(cmd, t0.config, t0, t1))
  }

  // ---- Composing matches ----

  lemma SilentMatches(t0: Template, w0: World, t1: Template, w1: World, t2: Template, w2: World, o: Outcome, ok: bool)
    requires Unseen(t0, w0, t1, w1) && AsksFor(w0, w1, {}) && Matches(t1, w1, t2, w2, o, ok)
    ensures Matches(t0, w0, t2, w2, o, ok)
  {
  }

  /** After a silent step that asked for what `p` wants, and with it alone, `o` goes on. */
  lemma PreparedMatches(t0: Template, w0: World, t1: Template, w1: World, t2: Template, w2: World,
                        p: Outcome, o: Outcome, ok: bool)
    requires Unseen(t0, w0, t1, w1) && AsksFor(w0, w1, p.wants) && p.events == []
    requires Matches(t1, w1, t2, w2, o, ok)
    ensures Matches(t0, w0, t2, w2, Then(p, o), ok)
  {
    assert [] + o.events == o.events;
  }

  /** Destroying after a failure changes only what a failure forgets anyway. */
  lemma GuardMatches(t0: Template, w0: World, t1: Template, w1: World, t2: Template, w2: World, o: Outcome)
    requires Matches(t0, w0, t1, w1, o, false) && Collapsed(t1, w1, t2, w2, {}) && w2.faults == w1.faults
    ensures Matches(t0, w0, t2, w2, Guard(o), false)
  {
    assert w2.events[|w0.events|..] == w1.events[|w0.events|..];
  }

  lemma EventsJoin(w0: World, w1: World, w2: World, e1: seq<Event>, e2: seq<Event>)
    requires w0.events <= w1.events <= w2.events
    requires ServesAll(w1.events[|w0.events|..], e1) && ServesAll(w2.events[|w1.events|..], e2)
    ensures ServesAll(w2.events[|w0.events|..], e1 + e2)
  {
    assert w2.events[|w0.events|..] == w1.events[|w0.events|..] + w2.events[|w1.events|..];
  }

  // ---- Callback bodies ----

  lemma BodyEmpty(t: Template, w: World, handed: Option<Handed>)
    requires Inv(t, w)
    ensures BodyDone(t, w, t, w, [], handed, 0, true)
  {
    assert w.events[|w.events|..] == [];
    AddedKeeps(t, w, t, w, {});
    forall m: PoolMode ensures Reached(t, t, m, DemandAll([], t.config, m)) {
      SameLeasesReached(t, t, m);
    }
  }

  lemma BodyStops(t0: Template, w0: World, t1: Template, w1: World, cmds: seq<Command>, handed: Option<Handed>, k: nat)
    requires cmds != [] && CallDone(t0, w0, t1, w1, cmds[0], handed, k, false)
    ensures BodyDone(t0, w0, t1, w1, cmds, handed, k, false)
  {
  }

  lemma BodyContinues(t0: Template, w0: World, t1: Template, w1: World, t2: Template, w2: World,
                      cmds: seq<Command>, handed: Option<Handed>, k0: nat, k1: nat, ok: bool)
    requires cmds != [] && CallDone(t0, w0, t1, w1, cmds[0], handed, k0, true)
    requires BodyDone(t1, w1, t2, w2, cmds[1..], handed, k1, ok)
    ensures BodyDone(t0, w0, t2, w2, cmds, handed, k0 + k1, ok)
  {
    var first := Naive(cmds[0], handed, View(t0), k0);
    var rest := NaiveAll(cmds[1..], handed, View(t1), k1);
    MoreFuel(cmds[0], handed, View(t0), k0, k1);
    EventsJoin(w0, w1, w2, first.events, rest.events);
    if ok {
      NaiveConfig(cmds[0], handed, View(t0), k0);
      KeepsTrans(t0, w0, t1, w1, t2, w2, {});
      forall m: PoolMode ensures Reached(t0, t2, m, DemandAll(cmds, t0.config, m)) {
        ReachedTrans(t0, t1, t2, m, Demand(cmds[0], t0.config, m), DemandAll(cmds[1..], t1.config, m));
      }
    }
  }

  // ---- Calls that need no session ----

  lemma ConfigureDone(t: Template, w: World, x: Setting, handed: Option<Handed>)
    requires Inv(t, w)
    ensures Inv(AfterSetting(t, x), w)
    ensures CallDone(t, w, AfterSetting(t, x), w, Configure(x), handed, 0, true)
  {
    SettingInv(t, w, x);
    SettingKeeps(t, w, x);
    assert w.events[|w.events|..] == [];
    forall m: PoolMode ensures Reached(t, AfterSetting(t, x), m, Demand(Configure(x), t.config, m)) {
      SameLeasesReached(t, AfterSetting(t, x), m);
    }
  }

  lemma NothingDone(t: Template, w: World, cmd: Command, handed: Option<Handed>)
    requires cmd.Throw? || (cmd.UseProducer? && handed.None?)
    ensures CallDone(t, w, t, w, cmd, handed, 0, false)
  {
    assert w.events[|w.events|..] == [];
  }

  lemma UseDone(t: Template, w: World, t1: Template, w1: World, payload: int, h: Handed, ok: bool)
    requires Did(t, w, t1, w1, Sent(h.dest, payload, None, h.flags, h.mode), ok)
    ensures CallDone(t, w, t1, w1, UseProducer(payload), Some(h), if ok then 1 else 0, ok)
  {
    if ok {
      assert w1.events[|w.events|..] == [w1.events[|w.events|]];
      forall m: PoolMode ensures Reached(t, t1, m, Demand(UseProducer(payload), t.config, m)) {
        SameLeasesReached(t, t1, m);
      }
    } else {
      assert w1.events[|w.events|..] == [];
    }
  }

  // ---- Inside a session ----

  /** The producer or consumer could not be had. */
  lemma PrepareFailed(t0: Template, w0: World, t1: Template, w1: World, cmd: Command, s: Id)
    requires NeedsTarget(cmd) && Collapsed(t0, w0, t1, w1, Wants(cmd, View(t0)))
    requires w1.faults == w0.faults + Blame(Resolve(TargetOf(cmd), View(t0)).None?)
    ensures InsideDone(t0, w0, t1, w1, cmd, s, 0, false)
  {
    assert w1.events[|w0.events|..] == [];
  }

  /** The provider call of a receive. */
  lemma ReceiveDone(t0: Template, w0: World, t1: Template, w1: World, t2: Template, w2: World, cmd: Command, s: Id)
    requires cmd.Receive? && Resolve(cmd.target, View(t0)).Some?
    requires WithinLease(t0, w0, t1, w1, s, Wants(cmd, View(t0)))
    requires Did(t1, w1, t2, w2, ReceiveEvent(Resolve(cmd.target, View(t0)).value, cmd.selector, View(t0)), true)
    ensures InsideDone(t0, w0, t2, w2, cmd, s, 2, true)
  {
    assert w2.events[|w0.events|..] == [w2.events[|w1.events|]];
    assert w0.events <= w2.events;
    KeepsTrans(t0, w0, t1, w1, t2, w2, {s});
    forall m: PoolMode ensures Reached(t0, t2, m, InnerDemand(cmd, t0.config, m)) {
      SameLeasesReached(t0, t2, m);
    }
  }

  lemma ReceiveFailed(t0: Template, w0: World, t1: Template, w1: World, t2: Template, w2: World, t3: Template, w3: World,
                      cmd: Command, s: Id)
    requires cmd.Receive? && Resolve(cmd.target, View(t0)).Some?
    requires WithinLease(t0, w0, t1, w1, s, Wants(cmd, View(t0)))
    requires Did(t1, w1, t2, w2, ReceiveEvent(Resolve(cmd.target, View(t0)).value, cmd.selector, View(t0)), false)
    requires Collapsed(t2, w2, t3, w3, {}) && w3.faults == w2.faults
    ensures InsideDone(t0, w0, t3, w3, cmd, s, 1, false)
  {
    assert w3.events[|w0.events|..] == [];
  }

  /** What a call hands on once its producer is there. */
  function HandedBy(cmd: Command, v: Settings): Handed
    requires (cmd.ExecuteProducer? || cmd.Send?) && Resolve(TargetOf(cmd), v).Some?
  {
    HandedFor(Resolve(TargetOf(cmd), v).value, v)
  }

  /** The message creator ran, and the send that follows it is the whole of the rest. */
  lemma CreatedThenSent(t1: Template, w1: World, t2: Template, w2: World, t3: Template, w3: World,
                        creator: seq<Command>, k: nat, h: Handed, payload: int, ok: bool)
    requires BodyDone(t1, w1, t2, w2, creator, None, k, true)
    requires Did(t2, w2, t3, w3, SendEvent(h, payload, t2.config), ok)
    ensures var extra := if ok then 1 else 0;
            var q := NaiveAll(creator, None, View(t1), k + extra);
            && q.ok && q.left == extra && q.settings == View(t2)
            && w1.events <= w3.events && w3.faults == w1.faults + (if ok then 0 else 1) && AsksFor(w1, w3, q.wants)
            && ServesAll(w3.events[|w1.events|..], q.events + (if ok then [SendEvent(h, payload, t2.config)] else []))
  {
    var q := NaiveAll(creator, None, View(t1), k);
    MoreFuelAll(creator, None, View(t1), k, if ok then 1 else 0);
    assert Grew(w2, w3);
    if ok {
      assert w3.events[|w2.events|..] == [w3.events[|w2.events|]];
      EventsJoin(w1, w2, w3, q.events, [SendEvent(h, payload, t2.config)]);
    } else {
      assert w3.events[|w2.events|..] == [];
      EventsJoin(w1, w2, w3, q.events, []);
    }
  }

  /** A message was created and sent. */
  lemma SendDone(t0: Template, w0: World, t1: Template, w1: World, t2: Template, w2: World, t3: Template, w3: World,
                 cmd: Command, s: Id, k: nat)
    requires cmd.Send? && Resolve(cmd.target, View(t0)).Some?
    requires WithinLease(t0, w0, t1, w1, s, Wants(cmd, View(t0)))
    requires BodyDone(t1, w1, t2, w2, cmd.creator, None, k, true)
    requires Did(t2, w2, t3, w3, SendEvent(HandedBy(cmd, View(t0)), cmd.payload, t2.config), true)
    ensures InsideDone(t0, w0, t3, w3, cmd, s, k + 2, true)
  {
    CreatedThenSent(t1, w1, t2, w2, t3, w3, cmd.creator, k, HandedBy(cmd, View(t0)), cmd.payload, true);
    KeepsTrans(t0, w0, t1, w1, t2, w2, {s});
    KeepsTrans(t0, w0, t2, w2, t3, w3, {s});
    SendMatches(t0, w0, t1, w1, t2, t3, w3, cmd, k);
    forall m: PoolMode ensures Reached(t0, t3, m, InnerDemand(cmd, t0.config, m)) {
      SameLeasesReached(t0, t1, m);
      ReachedTrans(t0, t1, t2, m, 0, DemandAll(cmd.creator, t1.config, m));
    }
  }

  lemma SendMatches(t0: Template, w0: World, t1: Template, w1: World, t2: Template, t3: Template, w3: World,
                    cmd: Command, k: nat)
    requires cmd.Send? && Resolve(cmd.target, View(t0)).Some?
    requires Unseen(t0, w0, t1, w1) && AsksFor(w0, w1, Wants(cmd, View(t0)))
    requires View(t3) == View(t2)
    requires var q := NaiveAll(cmd.creator, None, View(t1), k + 1);
             && q.ok && q.left == 1 && q.settings == View(t2)
             && w1.events <= w3.events && w3.faults == w1.faults && AsksFor(w1, w3, q.wants)
             && ServesAll(w3.events[|w1.events|..], q.events + [SendEvent(HandedBy(cmd, View(t0)), cmd.payload, t2.config)])
    ensures Matches(t0, w0, t3, w3, Inside(cmd, View(t0), k + 2), true)
  {
    var q := NaiveAll(cmd.creator, None, View(t1), k + 1);
    var e := SendEvent(HandedBy(cmd, View(t0)), cmd.payload, t2.config);
    var p := Prepare(cmd, View(t0), k + 2);
    var rest := Then(q, Emit(e, q.settings, q.left));
    assert Matches(t1, w1, t3, w3, rest, true);
    PreparedMatches(t0, w0, t1, w1, t3, w3, p, rest, true);
    assert Inside(cmd, View(t0), k + 2) == Then(p, rest);
  }

  /** The creator failed, or the send after it did, and the template was destroyed. */
  lemma CreatorFailed(t0: Template, w0: World, t1: Template, w1: World, t2: Template, w2: World, t3: Template, w3: World,
                      cmd: Command, s: Id, k: nat)
    requires cmd.Send? && Resolve(cmd.target, View(t0)).Some?
    requires WithinLease(t0, w0, t1, w1, s, Wants(cmd, View(t0))) && Collapsed(t2, w2, t3, w3, {}) && w3.faults == w2.faults
    requires BodyDone(t1, w1, t2, w2, cmd.creator, None, k, false)
    ensures InsideDone(t0, w0, t3, w3, cmd, s, k + 1, false)
  {
    var o := NaiveAll(cmd.creator, None, View(t1), k);
    GuardMatches(t1, w1, t2, w2, t3, w3, o);
    PreparedMatches(t0, w0, t1, w1, t3, w3, Prepare(cmd, View(t0), k + 1), Guard(o), false);
  }

  lemma SendFailed(t0: Template, w0: World, t1: Template, w1: World, t2: Template, w2: World, t3: Template, w3: World,
                   t4: Template, w4: World, cmd: Command, s: Id, k: nat)
    requires cmd.Send? && Resolve(cmd.target, View(t0)).Some?
    requires WithinLease(t0, w0, t1, w1, s, Wants(cmd, View(t0))) && Collapsed(t3, w3, t4, w4, {}) && w4.faults == w3.faults
    requires BodyDone(t1, w1, t2, w2, cmd.creator, None, k, true)
    requires Did(t2, w2, t3, w3, SendEvent(HandedBy(cmd, View(t0)), cmd.payload, t2.config), false)
    ensures InsideDone(t0, w0, t4, w4, cmd, s, k + 1, false)
  {
    CreatedThenSent(t1, w1, t2, w2, t3, w3, cmd.creator, k, HandedBy(cmd, View(t0)), cmd.payload, false);
    var q := NaiveAll(cmd.creator, None, View(t1), k);
    var e := SendEvent(HandedBy(cmd, View(t0)), cmd.payload, t2.config);
    var rest := Then(q, Emit(e, q.settings, q.left));
    assert q.events + [] == q.events;
    assert w4.events == w3.events && w4.faults == w1.faults + 1;
    assert View(t4) == Forget(View(t2));
    assert Matches(t1, w1, t4, w4, rest, false);
    PreparedMatches(t0, w0, t1, w1, t4, w4, Prepare(cmd, View(t0), k + 1), rest, false);
  }

  /** A producer callback ran to its end. */
  lemma ProducerBodyDone(t0: Template, w0: World, t1: Template, w1: World, t2: Template, w2: World,
                         cmd: Command, s: Id, k: nat)
    requires cmd.ExecuteProducer? && Resolve(cmd.target, View(t0)).Some?
    requires WithinLease(t0, w0, t1, w1, s, Wants(cmd, View(t0)))
    requires BodyDone(t1, w1, t2, w2, cmd.body, Some(HandedBy(cmd, View(t0))), k, true)
    ensures InsideDone(t0, w0, t2, w2, cmd, s, k + 1, true)
  {
    PreparedMatches(t0, w0, t1, w1, t2, w2, Prepare(cmd, View(t0), k + 1),
                    NaiveAll(cmd.body, Some(HandedBy(cmd, View(t0))), View(t0), k), true);
    KeepsTrans(t0, w0, t1, w1, t2, w2, {s});
    forall m: PoolMode ensures Reached(t0, t2, m, InnerDemand(cmd, t0.config, m)) {
      SameLeasesReached(t0, t1, m);
      ReachedTrans(t0, t1, t2, m, 0, DemandAll(cmd.body, t1.config, m));
    }
  }

  lemma ProducerBodyFailed(t0: Template, w0: World, t1: Template, w1: World, t2: Template, w2: World, t3: Template, w3: World,
                           cmd: Command, s: Id, k: nat)
    requires cmd.ExecuteProducer? && Resolve(cmd.target, View(t0)).Some?
    requires WithinLease(t0, w0, t1, w1, s, Wants(cmd, View(t0))) && Collapsed(t2, w2, t3, w3, {}) && w3.faults == w2.faults
    requires BodyDone(t1, w1, t2, w2, cmd.body, Some(HandedBy(cmd, View(t0))), k, false)
    ensures InsideDone(t0, w0, t3, w3, cmd, s, k + 1, false)
  {
    var o := NaiveAll(cmd.body, Some(HandedBy(cmd, View(t0))), View(t0), k);
    GuardMatches(t1, w1, t2, w2, t3, w3, o);
    PreparedMatches(t0, w0, t1, w1, t3, w3, Prepare(cmd, View(t0), k + 1), Guard(o), false);
  }

  lemma SessionBodyDone(t0: Template, w0: World, t1: Template, w1: World, cmd: Command, s: Id, k: nat, ok: bool)
    requires cmd.ExecuteSession? && IsOut(t0, w0, s)
    requires BodyDone(t0, w0, t1, w1, cmd.body, None, k, ok)
    ensures InsideDone(t0, w0, t1, w1, cmd, s, k, ok)
  {
    if ok {
      forall m: PoolMode ensures Reached(t0, t1, m, InnerDemand(cmd, t0.config, m)) {
        assert Reached(t0, t1, m, DemandAll(cmd.body, t0.config, m));
      }
    }
  }

  // ---- A whole call ----

  /** No session could be had. */
  lemma AcquireFailed(t0: Template, w0: World, t1: Template, w1: World, cmd: Command, handed: Option<Handed>)
    requires NeedsSession(cmd) && Collapsed(t0, w0, t1, w1, {})
    requires w1.faults == w0.faults + Blame(!t0.config.hasFactory)
    ensures CallDone(t0, w0, t1, w1, cmd, handed, 0, false)
  {
    assert w1.events[|w0.events|..] == [];
  }

  /** The session is taken, used and returned. */
  lemma CallSucceeds(t0: Template, w0: World, t1: Template, w1: World, t2: Template, w2: World,
                     cmd: Command, handed: Option<Handed>, s: Id, k: nat)
    requires NeedsSession(cmd) && t0.config.hasFactory && t1.config == t0.config
    requires TookSession(t0, w0, t1, w1, s, t0.config.acknowledgeMode)
    requires InsideDone(t1, w1, t2, w2, cmd, s, k, true) && Inv(t2, w2)
    ensures w2.heap[s].mode == t0.config.acknowledgeMode
    ensures var t3 := SetPool(t2, w2.heap[s].mode, Return(t2.pools[w2.heap[s].mode].value.pool, s));
            Inv(t3, w2) && CallDone(t0, w0, t3, w2, cmd, handed, k + 1, true)
  {
    hide Inv, AsksFor;
    var m := t0.config.acknowledgeMode;
    assert w2.heap[s] == w2.heap[..|w1.heap|][s];
    var t3 := SetPool(t2, m, Return(t2.pools[m].value.pool, s));
    ReturnedRel(t2, w2, m, s);
    LeaseKeeps(t0, w0, t1, w1, t2, w2, t3, s);
    SilentMatches(t0, w0, t1, w1, t2, w2, Inside(cmd, View(t0), k), true);
    assert View(t3) == View(t2);
    forall j: PoolMode ensures Reached(t0, t3, j, Demand(cmd, t0.config, j)) {
      assert Reached(t1, t2, j, InnerDemand(cmd, t0.config, j));
    }
  }

  lemma LeaseKeeps(t0: Template, w0: World, t1: Template, w1: World, t2: Template, w2: World, t3: Template, s: Id)
    requires Keeps(t0, w0, t1, w1, {}) && Keeps(t1, w1, t2, w2, {s}) && Keeps(t2, w2, t3, w2, {s})
    requires !IsOut(t0, w0, s)
    ensures Keeps(t0, w0, t3, w2, {})
  {
    KeepsTrans(t1, w1, t2, w2, t3, w2, {s});
    KeepsTrans(t0, w0, t1, w1, t3, w2, {s});
    KeepsDrop(t0, w0, t3, w2, s);
  }

  /** Something failed while the session was out. */
  lemma CallFails(t0: Template, w0: World, t1: Template, w1: World, t2: Template, w2: World, t3: Template, w3: World,
                  cmd: Command, handed: Option<Handed>, s: Id, k: nat)
    requires NeedsSession(cmd) && t0.config.hasFactory && t1.config == t0.config
    requires TookSession(t0, w0, t1, w1, s, t0.config.acknowledgeMode)
    requires InsideDone(t1, w1, t2, w2, cmd, s, k, false) && Collapsed(t2, w2, t3, w3, {}) && w3.faults == w2.faults
    ensures CallDone(t0, w0, t3, w3, cmd, handed, k + 1, false)
  {
    SilentMatches(t0, w0, t1, w1, t2, w2, Inside(cmd, View(t0), k), false);
    GuardMatches(t0, w0, t2, w2, t3, w3, Inside(cmd, View(t0), k));
  }
}
