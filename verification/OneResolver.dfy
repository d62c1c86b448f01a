/** One resolver per parked row at a time is enough for no commit to overwrite a terminal row. */
module OneResolver {
  import opened Prelude
  import opened Tables
  import opened Protocol
  import opened Integrity
  import opened Calls
  import opened CoreSteps
  import opened CoreCommits
  import opened CoreTheorem
  import opened Histories
  import opened OwnSteps
  import opened Readings
  import opened SettledTheorem
  import opened Standing

  /** A resolver that may still write its row. */
  predicate Resolving(k: Client) {
    k.origin.Resolver? && k.pc != ReadBalance && k.pc != Schedule && k.pc != Done && k.pc != Dead
  }

  /** No two resolvers are driving the same row. */
  predicate Exclusive(s: State) {
    forall a, b ::
      (a in s.clients && b in s.clients && Resolving(s.clients[a]) && Resolving(s.clients[b])
       && s.clients[a].tx.id == s.clients[b].tx.id) ==> a == b
  }

  /** At every moment of the schedule no row has two resolvers. */
  ghost predicate ExclusiveRun(schedule: seq<Label>) {
    forall n :: 0 <= n <= |schedule| ==> Exclusive(Run(schedule[..n]))
  }

  /** Every row that is being resolved is waiting. */
  predicate DrivenRowsWait(s: State) {
    forall c :: c in s.clients && Resolving(s.clients[c]) ==> StillOpen(s.db, s.clients[c])
  }

  // ----- a call's own step -----

  predicate NotResolving(later: State, c: Id) {
    c in later.clients && !Resolving(later.clients[c])
  }

  /** A resolver is done with its row once it has committed, or given up for this time. */
  lemma DoneResolving(s: State, call: Id, k: Client)
    requires At(s, call, k, k.pc) && k.origin.Resolver? && (!Resolving(k) || k.pc == Commit)
    ensures NotResolving(Advance(s, call), call)
  {
    hide AtPc, InboxHeld, StepInsertInbox, StepPreCheck, StepReadReference, StepReadLossWallet, StepLockWallet,
      StepCheckReversal, StepDecide, StepSave, StepCompleteInbox, StepCommit, StepLookup, StepReplayEntry,
      StepReplayWallet, StepDelete, Apply, FreshAnswer, Release;
    if k.pc == Commit {
      CommittedClient(s, call, k);
    }
  }

  // ----- every step -----

  /** Whose row it is: a resolver's own, or a submission's that is not there yet. */
  lemma CommittersRow(s: State, call: Id, k: Client)
    requires At(s, call, k, Commit) && k.decision.Some?
    ensures k.origin.Resolver? || k.tx.id !in s.db.txs
  {
    hide WellFormed, Decided, HoldsWallet, Unreversed, Grounded;
  }

  lemma ResolvedRowExists(s: State, c: Id, k: Client)
    requires At(s, c, k, k.pc) && Resolving(k)
    ensures k.tx.id in s.db.txs
  {
    hide WellFormed, Decided, HoldsWallet, Unreversed, Grounded;
  }

  /** Another call's step leaves the row of this resolver waiting: only a resolver would decide about
      it, and there is no other. */
  lemma OthersLeaveItWaiting(s: State, l: Label, c: Id, k: Client)
    requires Core(s) && Exclusive(s) && DrivenRowsWait(s) && At(s, c, k, k.pc) && Resolving(k)
    requires Actor(l) != Some(c)
    ensures StillOpen(Next(s, l).db, k)
  {
    hide Core, Next, ClientOk;
    ResolvedRowExists(s, c, k);
    StepWritesAsDecided(s, l, k.tx.id);
    if DecidesAbout(s, l, k.tx.id) {
      AtItsPoint(s, l.call);
      OnlyReversalsAgain(s, l.call, s.clients[l.call]);
    }
  }

  predicate WaitsIfResolving(later: State, c: Id) {
    c in later.clients && (Resolving(later.clients[c]) ==> StillOpen(later.db, later.clients[c]))
  }

  lemma OwnStepLeavesItWaiting(s: State, call: Id, k: Client)
    requires Core(s) && At(s, call, k, k.pc) && (Resolving(k) ==> StillOpen(s.db, k))
    ensures WaitsIfResolving(Advance(s, call), call)
  {
    hide Core, ClientOk, Advance, Resolving;
    AdvanceTraced(s, call, k);
    SameRowAsBefore(s, Advance(s, call), call, k);
    OnlyResolversResolve(k);
    OnlyResolversResolve(Advance(s, call).clients[call]);
    if k.origin.Resolver? {
      if !Resolving(k) || k.pc == Commit {
        DoneResolving(s, call, k);
      } else {
        QuietAdvance(s, call);
      }
    }
  }

  lemma SameRowAsBefore(s: State, later: State, call: Id, k: Client)
    requires Traced(s, later, call, k)
    ensures call in later.clients && SameRow(k, later.clients[call])
  {
    hide LooksUpNext, LookedInVainNow, Replayed;
  }

  lemma OnlyResolversResolve(k: Client)
    ensures Resolving(k) ==> k.origin.Resolver?
  {
  }

  lemma BegunResolverWaits(s: State, l: Label, c: Id)
    requires Core(s) && NewHere(s, Next(s, l), c)
    ensures WaitsIfResolving(Next(s, l), c)
  {
    hide Core, Next, NotReplaying;
    CallsBegin(s, l, c);
  }

  lemma NextKeepsWaiting(s: State, l: Label)
    requires Core(s) && Exclusive(s) && DrivenRowsWait(s)
    ensures DrivenRowsWait(Next(s, l))
  {
    hide Core, Next, StillOpen, Resolving, Exclusive;
    var later := Next(s, l);
    forall c | c in later.clients && Resolving(later.clients[c])
      ensures StillOpen(later.db, later.clients[c])
    {
      if c !in s.clients {
        BegunResolverWaits(s, l, c);
      } else if Actor(l) != Some(c) {
        OthersUntouched(s, l, c);
        AtItsPoint(s, c);
        OthersLeaveItWaiting(s, l, c, s.clients[c]);
      } else {
        OwnLabel(s, l, c);
      }
    }
  }

  lemma CrashedNoLongerResolves(s: State, call: Id)
    requires call in s.clients
    ensures NotResolving(Crash(s, call), call)
  {
    hide Release;
  }

  lemma OwnLabel(s: State, l: Label, c: Id)
    requires Core(s) && DrivenRowsWait(s) && c in s.clients && Actor(l) == Some(c)
    ensures WaitsIfResolving(Next(s, l), c)
  {
    hide Core, At, Advance, Crash, Next, Resolving, StillOpen;
    var k := s.clients[c];
    AtItsPoint(s, c);
    if l.AdvanceCall? {
      AdvanceIsNext(s, c);
      OwnStepLeavesItWaiting(s, c, k);
    } else if l.CrashCall? {
      CrashIsNext(s, c);
      CrashedNoLongerResolves(s, c);
    } else {
      BegunCallsOnlyAdvance(s, l, c);
    }
  }

  lemma {:induction false} ExclusiveRowsWait(schedule: seq<Label>)
    requires ExclusiveRun(schedule)
    ensures DrivenRowsWait(Run(schedule))
  {
    if schedule != [] {
      hide Core, Next, DrivenRowsWait, Exclusive;
      var n := |schedule| - 1;
      ExclusivePrefix(schedule, n);
      ExclusiveRowsWait(schedule[..n]);
      ReachableIsCore(schedule[..n]);
      NextKeepsWaiting(Run(schedule[..n]), schedule[n]);
    }
  }

  lemma {:induction false} ExclusivePrefix(schedule: seq<Label>, n: nat)
    requires ExclusiveRun(schedule) && n <= |schedule|
    ensures ExclusiveRun(schedule[..n]) && Exclusive(Run(schedule[..n]))
  {
    hide Run, Exclusive;
    var init := schedule[..n];
    forall m | 0 <= m <= n
      ensures Exclusive(Run(init[..m]))
    {
      assert init[..m] == schedule[..m];
    }
  }

  // ----- main result -----

  /** With one resolver per parked row at a time, and any number of submitters, no commit overwrites
      a terminal row. */
  lemma {:induction false} ExclusiveRunsAreGuarded(schedule: seq<Label>)
    requires ExclusiveRun(schedule)
    ensures GuardedRun(schedule)
  {
    hide Run, Next, Core, Exclusive, StillOpen;
    forall n | 0 <= n < |schedule|
      ensures !Overwrites(Run(schedule[..n]), schedule[n])
    {
      ExclusivePrefix(schedule, n);
      ExclusiveRowsWait(schedule[..n]);
      ReachableIsCore(schedule[..n]);
      NothingOverwritten(Run(schedule[..n]), schedule[n]);
    }
  }

  lemma NothingOverwritten(s: State, l: Label)
    requires Core(s) && DrivenRowsWait(s)
    ensures !Overwrites(s, l)
  {
    hide Core, Next;
    if Commits(s, l) && s.clients[l.call].decision.Some? {
      AtItsPoint(s, l.call);
      CommittersRow(s, l.call, s.clients[l.call]);
    }
  }
}
