/** Deadlock and termination. The fixed lock order (agent, then order) excludes deadlocks among
    requests without a key; a key adds a share lock on the agent row, taken by its foreign key
    before the order starts, and that is the one way left to deadlock. */
module Progress {
  import opened Locking
  import opened Protocol
  import opened Sums

  predicate Waits(s: State, a: SessionId, b: SessionId) {
    a in s.sessions && b in s.sessions && a != b && WaitsFor(s.db, s.sessions[a], s.sessions[b])
  }

  /** Both hold the share lock on one agent row, and both want to lock that row for update. */
  predicate MutualUpgrade(s: State, a: SessionId, b: SessionId) {
    && a in s.sessions && b in s.sessions && a != b
    && s.sessions[a].pc.LockingAgent? && s.sessions[b].pc.LockingAgent?
    && s.sessions[a].req.agent == s.sessions[b].req.agent
    && s.sessions[a].sharesAgent && s.sessions[b].sharesAgent
  }

  /** A cycle of the wait-for graph, its first session repeated at the end. */
  ghost predicate WaitCycle(s: State, cycle: seq<SessionId>) {
    && |cycle| >= 2 && cycle[0] == cycle[|cycle| - 1]
    && forall i :: 0 <= i < |cycle| - 1 ==> Waits(s, cycle[i], cycle[i + 1])
  }

  /** The position in the global lock order. */
  function Rank(pc: Pc): nat {
    match pc
    case Authenticating => 0
    case Claiming => 0
    case ReadingKey => 0
    case Reclaiming(_, _) => 0
    case Completing(_) => 0
    case MarkingFailed(_) => 0
    case LockingAgent => 1
    case LoadingOffer => 2
    case Committing => 2
    case LockingOrder => 3
    case Repeating(_) => 4
    case Unwinding(_, _) => 4
    case Finished(_) => 4
  }

  /** A committing issue waits for nobody and comes last; a committing booking can still wait for its agent. */
  function SessionRank(me: Session): nat {
    if me.pc.Committing? && me.req.op.Issue? then 4 else Rank(me.pc)
  }

  /** Every wait goes up the lock order, except between sessions that upgrade the same agent row. */
  lemma WaitsGoUp(s: State, a: SessionId, b: SessionId)
    requires LockInv(s) && Waits(s, a, b)
    ensures || SessionRank(s.sessions[a]) < SessionRank(s.sessions[b])
            || (&& s.sessions[a].pc.LockingAgent? && s.sessions[b].pc.LockingAgent?
                && s.sessions[a].req.agent == s.sessions[b].req.agent && s.sessions[b].sharesAgent)
  {
    assert Sound(s.db, s.sessions[a]) && Sound(s.db, s.sessions[b]);
  }

  lemma {:induction false} RanksGrow(s: State, path: seq<SessionId>, i: nat)
    requires LockInv(s) && i < |path| && path[0] in s.sessions
    requires forall k :: 0 <= k < |path| - 1 ==> Waits(s, path[k], path[k + 1])
    ensures path[i] in s.sessions && SessionRank(s.sessions[path[0]]) <= SessionRank(s.sessions[path[i]])
  {
    if i == 0 {
    } else {
      RanksGrow(s, path, i - 1);
      WaitsGoUp(s, path[i - 1], path[i]);
    }
  }

  /** The wait-for graph of a reachable state has a cycle if and only if two keyed issues of one
      agent have both claimed their keys and both want the agent row. */
  lemma DeadlockIffMutualUpgrade(s: State)
    requires LockInv(s)
    ensures (exists cycle :: WaitCycle(s, cycle)) <==> (exists a, b :: MutualUpgrade(s, a, b))
  {
    if cycle :| WaitCycle(s, cycle) {
      var n := |cycle|;
      assert Waits(s, cycle[0], cycle[1]) && Waits(s, cycle[n - 2], cycle[n - 1]);
      var tail := cycle[1..];
      forall k | 0 <= k < |tail| - 1 ensures Waits(s, tail[k], tail[k + 1]) {
        assert Waits(s, cycle[k + 1], cycle[k + 2]);
      }
      RanksGrow(s, cycle, n - 2);
      RanksGrow(s, tail, n - 2);
      WaitsGoUp(s, cycle[0], cycle[1]);
      WaitsGoUp(s, cycle[n - 2], cycle[0]);
      assert MutualUpgrade(s, cycle[0], cycle[1]);
    }
    if a, b :| MutualUpgrade(s, a, b) {
      assert WaitCycle(s, [a, b, a]);
    }
  }

  ghost predicate Stuck(s: State) {
    forall sid :: Live(s, sid) ==> Blocked(s, sid)
  }

  /** Whoever has locked an order has nothing left to wait for. */
  lemma OrderHolderMoves(s: State, sid: SessionId)
    requires LockInv(s) && sid in s.sessions && s.sessions[sid].locksOrder
    ensures Live(s, sid) && !Blocked(s, sid)
  {
    assert Sound(s.db, s.sessions[sid]);
  }

  lemma NoOrderLocksWhenStuck(s: State)
    requires LockInv(s) && Stuck(s)
    ensures forall sid :: sid in s.sessions ==> !s.sessions[sid].locksOrder
  {
    forall sid | sid in s.sessions ensures !s.sessions[sid].locksOrder {
      if s.sessions[sid].locksOrder { OrderHolderMoves(s, sid); }
    }
  }

  lemma NoAgentLocksWhenStuck(s: State, sid: SessionId)
    requires LockInv(s) && Stuck(s) && sid in s.sessions
    ensures !s.sessions[sid].locksAgent
  {
    NoOrderLocksWhenStuck(s);
    assert Sound(s.db, s.sessions[sid]);
    assert Live(s, sid) ==> Blocked(s, sid);
  }

  /** In a stuck state the sessions that hold a key row or share an agent row all want to lock their agent. */
  lemma HoldersWhenStuck(s: State, sid: SessionId)
    requires LockInv(s) && Stuck(s) && sid in s.sessions
    ensures s.sessions[sid].holdsSlot || s.sessions[sid].sharesAgent ==> s.sessions[sid].pc.LockingAgent?
  {
    forall other | other in s.sessions ensures !s.sessions[other].locksAgent {
      NoAgentLocksWhenStuck(s, other);
    }
    NoOrderLocksWhenStuck(s);
    assert Sound(s.db, s.sessions[sid]);
    assert Live(s, sid) ==> Blocked(s, sid);
  }

  /** In a stuck state a session that wants its agent row waits for one that shares it. */
  lemma WaitsForSharer(s: State, a: SessionId) returns (b: SessionId)
    requires LockInv(s) && Stuck(s) && a in s.sessions && s.sessions[a].pc.LockingAgent?
    ensures b in s.sessions && b != a && s.sessions[b].pc.LockingAgent?
    ensures s.sessions[b].sharesAgent && s.sessions[b].req.agent == s.sessions[a].req.agent
  {
    assert Live(s, a) && Blocked(s, a);
    b :| b in s.sessions && b != a && WaitsFor(s.db, s.sessions[a], s.sessions[b]);
    NoAgentLocksWhenStuck(s, b);
    HoldersWhenStuck(s, b);
  }

  /** When every live session waits, two of them upgrade the same agent row. */
  lemma StuckMeansMutualUpgrade(s: State, some: SessionId)
    requires LockInv(s) && Stuck(s) && Live(s, some)
    ensures exists a, b :: MutualUpgrade(s, a, b)
  {
    var a := some;
    if !s.sessions[some].pc.LockingAgent? {
      assert Blocked(s, some);
      a :| a in s.sessions && a != some && WaitsFor(s.db, s.sessions[some], s.sessions[a]);
      NoAgentLocksWhenStuck(s, a);
      NoOrderLocksWhenStuck(s);
      HoldersWhenStuck(s, a);
    }
    var b := WaitsForSharer(s, a);
    var c := WaitsForSharer(s, b);
    assert MutualUpgrade(s, b, c);
  }

  ghost predicate Keyless(s: State) {
    forall sid :: sid in s.sessions ==> !Keyed(s.sessions[sid].req)
  }

  /** Requests without a key never deadlock: no cycle, and somebody can always move. */
  lemma KeylessNeverDeadlocks(s: State, some: SessionId)
    requires LockInv(s) && Keyless(s) && Live(s, some)
    ensures !exists cycle :: WaitCycle(s, cycle)
    ensures exists sid :: Live(s, sid) && forall env :: Enabled(s, sid, Run(env))
  {
    forall a, b ensures !MutualUpgrade(s, a, b) {
      if a in s.sessions { assert Sound(s.db, s.sessions[a]); }
    }
    DeadlockIffMutualUpgrade(s);
    if Stuck(s) {
      StuckMeansMutualUpgrade(s, some);
    }
    var sid :| Live(s, sid) && !Blocked(s, sid);
    LiveIsRunnable(s, sid);
    assert forall env :: Enabled(s, sid, Run(env));
  }

  // ---------------------------------------------------------------- termination

  /** An upper bound on the statements a session still sends. */
  function Remaining(pc: Pc): nat {
    match pc
    case Authenticating => 10
    case Claiming => 9
    case ReadingKey => 8
    case Reclaiming(_, _) => 7
    case LockingAgent => 6
    case LoadingOffer => 6
    case LockingOrder => 5
    case Committing => 4
    case Repeating(_) => 4
    case Completing(_) => 2
    case Unwinding(_, markFailed) => if markFailed then 3 else 1
    case MarkingFailed(_) => 2
    case Finished(_) => 0
  }

  function RemainingOf(sessions: map<SessionId, Session>): map<SessionId, int> {
    map sid | sid in sessions :: Remaining(sessions[sid].pc)
  }

  ghost function Measure(s: State): int {
    Total(RemainingOf(s.sessions))
  }

  predicate NoStarts(trace: Trace) {
    forall i :: 0 <= i < |trace| ==> !trace[i].event.Start?
  }

  lemma FollowsCounts(req: Request, from: Pc, to: Pc)
    requires Follows(req, from, to)
    ensures Remaining(to) < Remaining(from)
  {
  }

  lemma EveryStepCounts(s: State, sid: SessionId, event: Event)
    requires LockInv(s) && Enabled(s, sid, event) && !event.Start?
    ensures Measure(Take(s, sid, event)) < Measure(s)
  {
    var after := Take(s, sid, event).sessions;
    if event.Run? {
      AdvanceFollows(s.db, s.nextRow, s.sessions[sid], event.env);
      FollowsCounts(s.sessions[sid].req, s.sessions[sid].pc, after[sid].pc);
    }
    RemainingReplaced(s.sessions, sid, after[sid]);
  }

  lemma RemainingReplaced(sessions: map<SessionId, Session>, sid: SessionId, me': Session)
    requires sid in sessions && Remaining(me'.pc) < Remaining(sessions[sid].pc)
    ensures Total(RemainingOf(sessions[sid := me'])) < Total(RemainingOf(sessions))
  {
    var after := sessions[sid := me'];
    TotalUpdate(RemainingOf(sessions), sid, Remaining(me'.pc));
    assert RemainingOf(after) == RemainingOf(sessions)[sid := Remaining(me'.pc)];
  }

  /** Whatever the schedule, the aborts and the crashes, a finite set of requests, keyed or not,
      sends at most Measure statements. */
  lemma {:induction false} RunsTerminate(s: State, trace: Trace)
    requires LockInv(s) && Feasible(s, trace) && NoStarts(trace)
    ensures |trace| <= Measure(s)
    decreases |trace|
  {
    if trace == [] {
      TotalNonNegative(RemainingOf(s.sessions));
    } else {
      var next := Take(s, trace[0].sid, trace[0].event);
      EveryStepCounts(s, trace[0].sid, trace[0].event);
      LockInvStep(s, trace[0].sid, trace[0].event);
      RunsTerminate(next, trace[1..]);
    }
  }

  lemma AdvanceKeepsRequest(s: State, sid: SessionId, event: Event)
    requires LockInv(s) && Keyless(s) && Enabled(s, sid, event) && !event.Start?
    ensures Keyless(Take(s, sid, event))
  {
    if event.Run? {
      AdvanceSound(s.db, s.nextRow, s.sessions[sid], event.env);
    }
  }

  ghost predicate CannotGoOn(s: State) {
    forall sid, env :: !Enabled(s, sid, Run(env))
  }

  lemma KeylessCanGoOn(s: State, some: SessionId)
    requires LockInv(s) && Keyless(s) && Live(s, some)
    ensures !CannotGoOn(s)
  {
    KeylessNeverDeadlocks(s, some);
    var free :| Live(s, free) && forall env :: Enabled(s, free, Run(env));
    assert Enabled(s, free, Run(Env(0, 0, Missing)));
  }

  /** A run of key-less requests that cannot go on has answered all of them. */
  lemma {:induction false} KeylessRunsFinish(s: State, trace: Trace)
    requires LockInv(s) && Keyless(s) && Feasible(s, trace) && NoStarts(trace)
    requires CannotGoOn(Exec(s, trace))
    ensures forall sid :: sid in Exec(s, trace).sessions ==> Exec(s, trace).sessions[sid].pc.Finished?
    decreases |trace|
  {
    if trace == [] {
      forall sid | sid in s.sessions ensures s.sessions[sid].pc.Finished? {
        if Live(s, sid) { KeylessCanGoOn(s, sid); }
      }
    } else {
      LockInvStep(s, trace[0].sid, trace[0].event);
      AdvanceKeepsRequest(s, trace[0].sid, trace[0].event);
      KeylessRunsFinish(Take(s, trace[0].sid, trace[0].event), trace[1..]);
    }
  }

  // ---------------------------------------------------------------- the deadlock that remains

  /** A new keyed issue of the agent gets as far as wanting the agent row, holding its share. */
  lemma ClaimsAndShares(s: State, t: State, sid: SessionId, req: Request) returns (u: State)
    requires Reaches(s, t) && sid !in t.sessions && Keyed(req) && req.op.Issue?
    requires req.agent in t.db.agents && t.db.agents[req.agent].active && SlotOf(req) !in t.db.keys
    requires forall other :: other in t.sessions ==>
               !t.sessions[other].locksAgent && SlotOf(t.sessions[other].req) != SlotOf(req)
    ensures Reaches(s, u) && u.db == t.db && u.sessions.Keys == t.sessions.Keys + {sid}
    ensures forall other :: other in t.sessions ==> u.sessions[other] == t.sessions[other]
    ensures u.sessions[sid].req == req && u.sessions[sid].pc.LockingAgent? && u.sessions[sid].sharesAgent
    ensures !u.sessions[sid].locksAgent
  {
    var env := Env(0, 0, Missing);
    ReachesStep(s, t, sid, Start(req));
    u := Take(t, sid, Start(req));
    ReachesStep(s, u, sid, Run(env));
    u := Take(u, sid, Run(env));
    ReachesStep(s, u, sid, Run(env));
    u := Take(u, sid, Run(env));
  }

  /** Two issues of one agent under two unused keys can deadlock, whatever orders they are for. */
  lemma KeyedIssuesCanDeadlock(s: State, first: Request, second: Request) returns (u: State)
    requires s.sessions == map[] && first.agent == second.agent
    requires first.agent in s.db.agents && s.db.agents[first.agent].active
    requires Keyed(first) && Keyed(second) && first.op.Issue? && second.op.Issue? && first.key != second.key
    requires SlotOf(first) !in s.db.keys && SlotOf(second) !in s.db.keys
    ensures Reaches(s, u) && MutualUpgrade(u, 0, 1)
    ensures u.sessions.Keys == {0, 1} && u.sessions[0].req == first && u.sessions[1].req == second
    ensures Waits(u, 0, 1) && Waits(u, 1, 0) && forall sid :: Live(u, sid) ==> Blocked(u, sid)
  {
    ReachesSelf(s);
    u := ClaimsAndShares(s, s, 0, first);
    u := ClaimsAndShares(s, u, 1, second);
  }
}
