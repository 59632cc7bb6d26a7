// What the locks are for: in every state the threads of LockSystem can reach, radios are
// opened, tuned and closed only by the thread in the hardware section, and a teardown
// touches consumers, ports and slots only under the locks that guard them.
module LockGuards {
  import opened Basics
  import opened LockOrder
  import opened LockSystem

  // While l is held, so is `under`.
  datatype Guard = Guard(l: Lock, under: Lock)

  predicate Respects(g: Guard, held: set<Lock>)
  {
    g.l in held ==> g.under in held
  }

  // Throughout the operations, to the end.
  predicate Always(g: Guard, held: set<Lock>, ops: seq<Op>)
    decreases ops
  {
    Respects(g, held) && (ops == [] || Always(g, HeldAfter(held, ops[0]), ops[1..]))
  }

  function HeldAtEnd(held: set<Lock>, ops: seq<Op>): set<Lock>
    decreases ops
  {
    if ops == [] then held else HeldAtEnd(HeldAfter(held, ops[0]), ops[1..])
  }

  // The same of nested blocks, which take no lock a second time.
  predicate Guarded(g: Guard, held: set<Lock>, bs: seq<Block>)
    decreases bs
  {
    if bs == [] then true
    else
      && (match bs[0]
          case Locked(l, body) =>
            l !in held && (l == g.l ==> g.under in held) && Guarded(g, held + {l}, body)
          case Joins(_) => true)
      && Guarded(g, held, bs[1..])
  }

  lemma {:induction false} AlwaysConcat(g: Guard, held: set<Lock>, p: seq<Op>, q: seq<Op>)
    requires Always(g, held, p) && Always(g, HeldAtEnd(held, p), q)
    ensures Always(g, held, p + q) && HeldAtEnd(held, p + q) == HeldAtEnd(HeldAtEnd(held, p), q)
    decreases p
  {
    if p == [] {
      assert p + q == q;
    } else {
      AlwaysConcat(g, HeldAfter(held, p[0]), p[1..], q);
      assert (p + q)[1..] == p[1..] + q;
    }
  }

  lemma LockedAlways(g: Guard, held: set<Lock>, l: Lock, body: seq<Op>)
    requires Respects(g, held) && l !in held && (l == g.l ==> g.under in held)
    requires Always(g, held + {l}, body) && HeldAtEnd(held + {l}, body) == held + {l}
    ensures var ops := [Acquire(l)] + body + [Release(l)];
            Always(g, held, ops) && HeldAtEnd(held, ops) == held
  {
    assert (held + {l}) - {l} == held;
    assert [Release(l)][1..] == [];
    assert Always(g, held + {l}, [Release(l)]) && HeldAtEnd(held + {l}, [Release(l)]) == held by {
      assert Always(g, held, []);
    }
    AlwaysConcat(g, held + {l}, body, [Release(l)]);
    var ops := [Acquire(l)] + body + [Release(l)];
    assert ops[1..] == body + [Release(l)];
  }

  lemma {:induction false} GuardedAlways(g: Guard, held: set<Lock>, bs: seq<Block>)
    requires Respects(g, held) && Guarded(g, held, bs)
    ensures Always(g, held, Flat(bs)) && HeldAtEnd(held, Flat(bs)) == held
    decreases bs
  {
    if bs == [] {
    } else {
      GuardedAlways(g, held, bs[1..]);
      match bs[0] {
        case Locked(l, body) =>
          GuardedAlways(g, held + {l}, body);
          LockedAlways(g, held, l, Flat(body));
          AlwaysConcat(g, held, [Acquire(l)] + Flat(body) + [Release(l)], Flat(bs[1..]));
        case Joins(t) =>
          assert [Join(t)][1..] == [] && Always(g, held, []);
          AlwaysConcat(g, held, [Join(t)], Flat(bs[1..]));
      }
    }
  }

  lemma {:induction false} GuardedConcat(g: Guard, held: set<Lock>, a: seq<Block>, b: seq<Block>)
    requires Guarded(g, held, a) && Guarded(g, held, b)
    ensures Guarded(g, held, a + b)
    decreases a
  {
    if a == [] {
      assert a + b == b;
    } else {
      GuardedConcat(g, held, a[1..], b);
      assert (a + b)[0] == a[0] && (a + b)[1..] == a[1..] + b;
    }
  }

  lemma {:induction false} SectionsGuarded(g: Guard, held: set<Lock>, ls: seq<Lock>)
    requires (forall l :: l in ls ==> l !in held) && (g.l in ls ==> g.under in held)
    ensures Guarded(g, held, Sections(ls))
  {
    if ls == [] {
    } else {
      assert ls[0] in ls && forall l :: l in ls[1..] ==> l in ls;
      SectionsGuarded(g, held, ls[1..]);
      assert Sections(ls)[1..] == Sections(ls[1..]);
    }
  }

  lemma {:induction false} JoinsGuarded(g: Guard, held: set<Lock>, ts: seq<ThreadId>)
    ensures Guarded(g, held, JoinsOf(ts))
  {
    if ts == [] {
    } else {
      JoinsGuarded(g, held, ts[1..]);
      assert JoinsOf(ts)[1..] == JoinsOf(ts[1..]);
    }
  }

  lemma LockedGuarded(g: Guard, held: set<Lock>, l: Lock, body: seq<Block>)
    requires l !in held && (l == g.l ==> g.under in held) && Guarded(g, held + {l}, body)
    ensures Guarded(g, held, [Locked(l, body)])
  {
    assert [Locked(l, body)][1..] == [];
  }

  // ---- deactivateTask ----

  // What each of these locks is taken under.
  const GUARDS := {Guard(Radio, Hw), Guard(Dests, Rt), Guard(Pool, Reg), Guard(Timeline, Reg)}

  lemma {:induction false} CloseStreamsGuarded(g: Guard, streams: seq<Option<ThreadId>>)
    requires g in GUARDS
    ensures Guarded(g, {Hw, Rt}, CloseStreams(streams))
  {
    if streams == [] {
    } else {
      var held := {Hw, Rt};
      SectionsGuarded(g, held, [Dests, Dests]);
      SectionsGuarded(g, held, [Dests, Radio, Radio]);
      var close := match streams[0] case None => [] case Some(w) => [Joins(w)] + Sections([Dests, Radio, Radio]);
      assert streams[0].Some? ==> close[1..] == Sections([Dests, Radio, Radio]);
      GuardedConcat(g, held, Sections([Dests, Dests]), close);
      CloseStreamsGuarded(g, streams[1..]);
      GuardedConcat(g, held, Sections([Dests, Dests]) + close, CloseStreams(streams[1..]));
    }
  }

  lemma {:induction false} ReleasesGuarded(g: Guard, n: nat)
    requires g in GUARDS
    ensures Guarded(g, {Reg}, Releases(n))
  {
    if n == 0 {
    } else {
      SectionsGuarded(g, {Reg}, [Timeline, Pool]);
      ReleasesGuarded(g, n - 1);
      GuardedConcat(g, {Reg}, Sections([Timeline, Pool]), Releases(n - 1));
    }
  }

  lemma NotifyGuarded(g: Guard)
    requires g in GUARDS
    ensures Guarded(g, {}, Notify())
  {
    LockedGuarded(g, {} + {Reg}, Queue, []);
    LockedGuarded(g, {}, Reg, [Locked(Queue, [])]);
  }

  // Whoever calls it: streams are closed under the hardware lock, consumers taken off under
  // the runtime lock, ports and slots released under the registry lock.
  lemma DeactivateGuarded(g: Guard, roles: seq<Role>, self: ThreadId, call: Call)
    requires g in GUARDS
    ensures Guarded(g, {}, Deactivate(roles, self, call))
  {
    match call
    case Brief(tested) =>
      SectionsGuarded(g, {}, if tested then [Reg, Rt] else [Reg]);
    case Whole(claimed, streams, _, _, releases) =>
      var claim := Sections(if claimed then [Reg] else [Reg, Rt]);
      SectionsGuarded(g, {}, if claimed then [Reg] else [Reg, Rt]);
      TeardownGuarded(g, streams);
      var teardown := [Locked(Hw, [Locked(Rt, CloseStreams(streams))])];
      GuardedConcat(g, {}, claim, teardown);
      JoinsGuarded(g, {}, Stolen(roles, self, call));
      GuardedConcat(g, {}, claim + teardown, JoinsOf(Stolen(roles, self, call)));
      EndGuarded(g, claimed, releases);
      var free := if claimed then [Locked(Reg, Releases(releases))] else [];
      GuardedConcat(g, {}, claim + teardown + JoinsOf(Stolen(roles, self, call)), free);
      GuardedConcat(g, {}, claim + teardown + JoinsOf(Stolen(roles, self, call)) + free, Notify());
  }

  lemma TeardownGuarded(g: Guard, streams: seq<Option<ThreadId>>)
    requires g in GUARDS
    ensures Guarded(g, {}, [Locked(Hw, [Locked(Rt, CloseStreams(streams))])])
  {
    CloseStreamsGuarded(g, streams);
    assert {} + {Hw} == {Hw} && {Hw} + {Rt} == {Hw, Rt};
    LockedGuarded(g, {Hw}, Rt, CloseStreams(streams));
    LockedGuarded(g, {}, Hw, [Locked(Rt, CloseStreams(streams))]);
  }

  lemma EndGuarded(g: Guard, claimed: bool, releases: nat)
    requires g in GUARDS
    ensures Guarded(g, {}, if claimed then [Locked(Reg, Releases(releases))] else [])
    ensures Guarded(g, {}, Notify())
  {
    ReleasesGuarded(g, releases);
    assert {} + {Reg} == {Reg};
    LockedGuarded(g, {}, Reg, Releases(releases));
    NotifyGuarded(g);
  }

  // ---- The hardware section ----

  const HARDWARE := Guard(Radio, Hw)

  lemma {:induction false} OpensGuarded(devices: nat)
    ensures Guarded(HARDWARE, {Hw}, Opens(devices))
  {
    if devices == 0 {
    } else {
      LockedGuarded(HARDWARE, {Hw} + {Radio}, ClaimSet, []);
      LockedGuarded(HARDWARE, {Hw}, Radio, [Locked(ClaimSet, [])]);
      OpensGuarded(devices - 1);
      GuardedConcat(HARDWARE, {Hw}, [Locked(Radio, [Locked(ClaimSet, [])])], Opens(devices - 1));
    }
  }

  lemma {:induction false} SetsUpGuarded(steps: seq<SetUp>)
    ensures Guarded(HARDWARE, {Hw}, SetsUp(steps))
  {
    if steps == [] {
    } else {
      var first := match steps[0]
                   case LookUp => Sections([Rt])
                   case Tune => Sections([Radio])
                   case Subscribe => Sections([Dests])
                   case Reopen => Sections([Radio]) + Opens(2);
      SectionsGuarded(HARDWARE, {Hw}, [Rt]);
      SectionsGuarded(HARDWARE, {Hw}, [Radio]);
      SectionsGuarded(HARDWARE, {Hw}, [Dests]);
      OpensGuarded(2);
      GuardedConcat(HARDWARE, {Hw}, Sections([Radio]), Opens(2));
      SetsUpGuarded(steps[1..]);
      GuardedConcat(HARDWARE, {Hw}, first, SetsUp(steps[1..]));
    }
  }

  lemma HardwareSection(setUp: seq<SetUp>)
    ensures Guarded(HARDWARE, {}, Sections([Reg]) + [Locked(Hw, Sections([Reg]) + SetsUp(setUp))])
    ensures Guarded(HARDWARE, {}, [Locked(Hw, SetsUp(setUp))])
  {
    assert {} + {Hw} == {Hw};
    SectionsGuarded(HARDWARE, {}, [Reg]);
    SectionsGuarded(HARDWARE, {Hw}, [Reg]);
    SetsUpGuarded(setUp);
    LockedGuarded(HARDWARE, {}, Hw, SetsUp(setUp));
    GuardedConcat(HARDWARE, {Hw}, Sections([Reg]), SetsUp(setUp));
    LockedGuarded(HARDWARE, {}, Hw, Sections([Reg]) + SetsUp(setUp));
    GuardedConcat(HARDWARE, {}, Sections([Reg]), [Locked(Hw, Sections([Reg]) + SetsUp(setUp))]);
  }

  // Threads that open, tune and close streams: activations, tryAccept, snapshots, stops and
  // cancels.
  predicate AtHardware(r: Role)
  {
    r.Activating? || r.Accepting? || r.Snapshot? || r.Stopping?
  }

  lemma ActivatingGuarded(roles: seq<Role>, i: ThreadId, a: Activation)
    ensures Guarded(HARDWARE, {}, Activate(roles, i, a))
  {
    SectionsGuarded(HARDWARE, {}, [Reg]);
    match a
    case Refused =>
    case Cancelled(setUp) => HardwareSection(setUp);
    case Fails(setUp, call) =>
      HardwareSection(setUp);
      DeactivateGuarded(HARDWARE, roles, i, call);
      GuardedConcat(HARDWARE, {}, Sections([Reg]) + [Locked(Hw, Sections([Reg]) + SetsUp(setUp))],
                    Deactivate(roles, i, call));
    case Runs(setUp) =>
      HardwareSection(setUp);
      var first := Sections([Reg]) + [Locked(Hw, Sections([Reg]) + SetsUp(setUp))];
      SectionsGuarded(HARDWARE, {}, [Rt, Reg]);
      NotifyGuarded(HARDWARE);
      GuardedConcat(HARDWARE, {}, first, Sections([Rt, Reg]));
      GuardedConcat(HARDWARE, {}, first + Sections([Rt, Reg]), Notify());
  }

  lemma PartGuarded(roles: seq<Role>, i: ThreadId, part: Part)
    ensures Guarded(HARDWARE, {}, PartOf(roles, i, part))
  {
    match part
    case Section(l) => SectionsGuarded(HARDWARE, {}, [l]);
    case Cancel(call) => DeactivateGuarded(HARDWARE, roles, i, call);
    case Retune(tuned) =>
      var locks := if tuned then [Radio, Timeline] else [Radio];
      SectionsGuarded(HARDWARE, {} + {Hw}, locks);
      LockedGuarded(HARDWARE, {}, Hw, Sections(locks));
    case Announce => NotifyGuarded(HARDWARE);
  }

  lemma {:induction false} PartsGuarded(roles: seq<Role>, i: ThreadId, parts: seq<Part>)
    ensures Guarded(HARDWARE, {}, PartsOf(roles, i, parts))
    decreases parts
  {
    if parts == [] {
    } else {
      PartGuarded(roles, i, parts[0]);
      PartsGuarded(roles, i, parts[1..]);
      GuardedConcat(HARDWARE, {}, PartOf(roles, i, parts[0]), PartsOf(roles, i, parts[1..]));
    }
  }

  lemma SnapshotGuarded(before: seq<Quick>, setUp: seq<SetUp>)
    ensures Guarded(HARDWARE, {}, Sections(before)
                                  + [Locked(Hw, SetsUp(setUp)), Locked(Hw, Sections([Radio, Radio]))] + Sections([Fft]))
  {
    var hw := [Locked(Hw, SetsUp(setUp)), Locked(Hw, Sections([Radio, Radio]))];
    SectionsGuarded(HARDWARE, {}, before);
    HardwareSection(setUp);
    SectionsGuarded(HARDWARE, {} + {Hw}, [Radio, Radio]);
    LockedGuarded(HARDWARE, {}, Hw, Sections([Radio, Radio]));
    assert hw == [Locked(Hw, SetsUp(setUp))] + [Locked(Hw, Sections([Radio, Radio]))];
    GuardedConcat(HARDWARE, {}, [Locked(Hw, SetsUp(setUp))], [Locked(Hw, Sections([Radio, Radio]))]);
    SectionsGuarded(HARDWARE, {}, [Fft]);
    GuardedConcat(HARDWARE, {}, Sections(before), hw);
    GuardedConcat(HARDWARE, {}, Sections(before) + hw, Sections([Fft]));
  }

  lemma StoppingGuarded(roles: seq<Role>, i: ThreadId, call: Call)
    ensures Guarded(HARDWARE, {}, Sections([Reg]) + Deactivate(roles, i, call))
  {
    SectionsGuarded(HARDWARE, {}, [Reg]);
    DeactivateGuarded(HARDWARE, roles, i, call);
    GuardedConcat(HARDWARE, {}, Sections([Reg]), Deactivate(roles, i, call));
  }

  lemma RoleGuarded(roles: seq<Role>, i: ThreadId)
    requires i < |roles| && AtHardware(roles[i])
    ensures Guarded(HARDWARE, {}, Blocks(roles, i, roles[i]))
  {
    match roles[i]
    case Activating(a) => ActivatingGuarded(roles, i, a);
    case Accepting(parts) => PartsGuarded(roles, i, parts);
    case Snapshot(before, setUp) => SnapshotGuarded(before, setUp);
    case Stopping(call) => StoppingGuarded(roles, i, call);
  }

  lemma {:induction false} ReachKeeps(g: Guard, ts: seq<Thread>, picks: seq<Pick>, ts': seq<Thread>, i: nat)
    requires Reaches(ts, picks, ts') && i < |ts| && Always(g, ts[i].held, ts[i].rest)
    ensures |ts'| == |ts| && Respects(g, ts'[i].held)
    decreases picks
  {
    if picks == [] {
    } else {
      ReachKeeps(g, Next(ts, picks[0]), picks[1..], ts', i);
    }
  }

  lemma {:induction false} ReachDisciplined(posts: seq<Post>, ts: seq<Thread>, picks: seq<Pick>, ts': seq<Thread>)
    requires Disciplined(posts, ts) && Reaches(ts, picks, ts')
    ensures Disciplined(posts, ts')
    decreases picks
  {
    if picks == [] {
    } else {
      StepKeepsDiscipline(posts, ts, picks[0]);
      ReachDisciplined(posts, Next(ts, picks[0]), picks[1..], ts');
    }
  }

  // In every state that any number of threads can reach, a thread of these kinds that is at
  // a radio is in the hardware section, and no other thread is.
  lemma OneAtHardware(roles: seq<Role>, picks: seq<Pick>, ts: seq<Thread>, i: nat)
    requires WellNamed(roles) && Reaches(Threads(roles), picks, ts)
    requires i < |roles| && AtHardware(roles[i])
    ensures |ts| == |roles|
    ensures Radio in ts[i].held ==> Hw in ts[i].held && forall j :: 0 <= j < |ts| && j != i ==> Hw !in ts[j].held
  {
    SystemIsDisciplined(roles);
    ReachDisciplined(Posts(roles), Threads(roles), picks, ts);
    RoleGuarded(roles, i);
    GuardedAlways(HARDWARE, {}, Blocks(roles, i, roles[i]));
    ReachKeeps(HARDWARE, Threads(roles), picks, ts, i);
  }
}
