/**
Runs over a watched work tree, one after another, while the environment moves.
*/
module WatchRuns {
  import opened Options
  import opened Sightings
  import opened Kernels
  import opened Kqueue
  import opened Watches
  import opened Watching

  /**
  What one run looks at: an index to compare, unless it only walks; and the
  directories its walk does not find clean.
  */
  datatype Plan = Changes(index: Index, dirs: seq<Path>) | All(dirs: seq<Path>)

  function IndexOf(plan: Plan): Index {
    if plan.Changes? then plan.index else Index(None, [])
  }

  /**
  What one run came to: what was in doubt and what counted as clean at its
  drain, what was registered then, after the comparison and at the end, and
  every state of the file system up to the comparison (`past`).
  */
  datatype Account = Account(index: Index, suspects: seq<nat>, looks: map<nat, nat>, drain: nat, past: seq<Fs>,
                             doubt: set<Path>, clean: map<Path, Sighting>,
                             drained: Registry, compared: Registry, settled: Registry)

  /** The suspects of a run are right, entry by entry, at a moment of that run: all but those of paths in doubt that it did not look at. */
  ghost predicate Right(matches: Matches, a: Account) {
    a.index.key.Some? && Faithful(matches, a.index.key.value, a.index.entries, a.suspects, a.looks, a.doubt, a.drain, a.past)
  }

  /** A run that compares does so rightly for its own index, if that names a key. */
  ghost predicate RightFor(matches: Matches, plan: Plan, o: Outcome, a: Account) {
    match o
    case Compared(suspects) => plan.Changes? && a.index == plan.index && a.suspects == suspects && Right(matches, a)
    case Everything => plan.Changes? && plan.index.key.None?
    case Walked => plan.All?
    case Stopped => false
  }

  /** Each directory that counted as clean was what had been seen of it. */
  ghost predicate CleanIsTrue(stamps: Stamps, a: Account) {
    a.drain < |a.past| && AllAsSeen(stamps, a.clean, a.past[a.drain])
  }

  /** In this run, a directory was registered above something that was registered before it. */
  ghost predicate Completed(a: Account) {
    Completes(a.drained, a.compared) || Completes(a.compared, a.settled)
  }

  ghost predicate NoneCompleted(accounts: seq<Account>) {
    forall i :: 0 <= i < |accounts| ==> !Completed(accounts[i])
  }

  /** Every directory above a registered path was registered too. */
  ghost predicate IsRooted(a: Account) {
    Rooted(a.compared) && Rooted(a.settled)
  }

  ghost predicate AllRooted(accounts: seq<Account>) {
    forall i :: 0 <= i < |accounts| ==> IsRooted(accounts[i])
  }

  /** One more moment passes. */
  method Wait(watch: Watch)
    requires watch.Inv() && Present(watch.start) && watch.start.past <= watch.watcher.kernel.past
    modifies watch.watcher`kernel, watch.watcher`time
    ensures watch.Inv() && Present(watch.watcher.kernel)
    ensures watch.watcher == old(watch.watcher) && old(watch.watcher.kernel.past) < watch.watcher.kernel.past
  {
    hide Ready, Grounded, BaselineStands, CleanKept, Keeps, DoubtStays;
    ghost var all, r, k := watch.watcher.paths, watch.part, watch.watcher.kernel;
    watch.watcher.Pause(r);
    StepKeepsHeld(all, k, watch.watcher.kernel);
    SameDoubt(all, r, watch.touched);
    watch.StandingStill(all, r, k, all, r, watch.watcher.kernel, watch.watcher.run);
  }

  /** What a walk sees of the directories it looks at, each and its `.gitignore` at a moment of its own. */
  method SeeDirs(watch: Watch, dirs: seq<Path>) returns (seen: seq<(Path, Sighting)>, ghost when: seq<(nat, nat)>)
    requires watch.Inv() && Present(watch.start) && watch.start.past <= watch.watcher.kernel.past
    modifies watch.watcher`kernel, watch.watcher`time
    ensures watch.Inv() && old(watch.watcher.kernel.past) <= watch.watcher.kernel.past
    ensures AllSeenSince(watch.stamps, seen, when, |watch.start.past| - 1, watch.watcher.kernel.past)
  {
    hide Watch.Inv;
    seen, when := [], [];
    for i := 0 to |dirs|
      invariant watch.Inv() && old(watch.watcher.kernel.past) <= watch.watcher.kernel.past
      invariant AllSeenSince(watch.stamps, seen, when, |watch.start.past| - 1, watch.watcher.kernel.past)
    {
      ghost var before := watch.watcher.kernel.past;
      Wait(watch);
      var stamp := StampOf(watch.stamps, Look(watch.watcher.kernel.fs, dirs[i]));
      ghost var first := |watch.watcher.kernel.past| - 1;
      Wait(watch);
      var rules := StampOf(watch.stamps, Look(watch.watcher.kernel.fs, RulesOf(dirs[i])));
      if stamp.Some? {
        seen := seen + [(dirs[i], Sighting(stamp.value, rules))];
        when := when + [(first, |watch.watcher.kernel.past| - 1)];
      }
    }
  }

  /** `Everything`: the index names no key, so a run looks at everything itself; `Walked`: there was nothing to compare. */
  datatype Outcome = Compared(suspects: seq<nat>) | Everything | Walked | Stopped

  /** One run: take the reports, compare the index, walk, and settle what was seen. */
  method RunOnce(watch: Watch, plan: Plan) returns (outcome: Outcome, ghost account: Account)
    requires watch.Inv() && !watch.failure
    requires IndexOf(plan).key.Some? ==> IndexOf(plan).entries == watch.contents(IndexOf(plan).key.value)
    modifies watch, watch.watcher
    ensures watch.watcher == old(watch.watcher) || fresh(watch.watcher)
    ensures !outcome.Stopped? ==> watch.Inv() && !watch.failure && old(watch.watcher.kernel.past) <= account.past <= watch.watcher.kernel.past
    ensures !outcome.Stopped? ==> RightFor(watch.matches, plan, outcome, account)
    ensures !outcome.Stopped? ==> |old(watch.watcher.kernel.past)| - 1 <= account.drain
    ensures !outcome.Stopped? && old(watch.IsCertain()) ==> account.doubt == {} && (!Completed(account) ==> watch.IsCertain())
    ensures !outcome.Stopped? && old(watch.Whole()) ==>
      CleanIsTrue(watch.stamps, account) && (IsRooted(account) ==> watch.Whole())
  {
    hide Watch.Inv, Watch.Drained, Faithful, Rooted, AllSeenSince, FromSeen, Watch.Whole, Watch.IsCertain, CleanIsTrue, Completes;
    outcome, account := Stopped, Account(IndexOf(plan), [], map[], 0, [], {}, map[], map[], map[], map[]);
    var ok := watch.Begin(true);
    if !ok {
      return;
    }
    DrainIsPresent(watch);
    ghost var start, doubt, clean, drained := watch.start, watch.doubt, watch.clean, watch.watcher.paths;
    ghost var drain := |start.past| - 1;
    var suspects := None;
    ghost var looks := map[];
    if plan.Changes? {
      suspects, looks := watch.WatchedSuspects(plan.index);
      if watch.failure {
        return;
      }
    }
    ghost var past, compared := watch.watcher.kernel.past, watch.watcher.paths;
    var seen;
    ghost var when;
    seen, when := SeeDirs(watch, plan.dirs);
    watch.Settle(seen, when);
    if watch.failure {
      return;
    }
    var chosen := if suspects.Some? then suspects.value else [];
    account := Account(IndexOf(plan), chosen, looks, drain, past, doubt, clean, drained, compared, watch.watcher.paths);
    if old(watch.Whole()) {
      CleanAtDrain(watch.stamps, start, account);
    }
    outcome := if plan.All? then Walked else if suspects.Some? then Compared(chosen) else Everything;
  }

  /** At the drain, all that counts as clean is what had been seen of it. */
  lemma DrainIsPresent(watch: Watch)
    requires watch.Drained()
    ensures Present(watch.start)
    ensures watch.Whole() ==> AllAsSeen(watch.stamps, watch.clean, watch.start.fs)
  {
  }

  lemma CleanAtDrain(stamps: Stamps, start: Kernel, a: Account)
    requires Present(start) && AllAsSeen(stamps, a.clean, start.fs) && a.drain == |start.past| - 1 && start.past <= a.past
    ensures CleanIsTrue(stamps, a)
  {
    assert a.past[a.drain] == start.past[a.drain];
  }

  /** Each comparison is right, for its own index. */
  ghost predicate AllRight(matches: Matches, plans: seq<Plan>, outcomes: seq<Outcome>, accounts: seq<Account>) {
    && |outcomes| == |accounts| <= |plans|
    && forall i :: 0 <= i < |outcomes| ==> RightFor(matches, plans[i], outcomes[i], accounts[i])
  }

  /** Nothing is in doubt before a run has registered a directory above something registered earlier. */
  ghost predicate DoubtHasCause(accounts: seq<Account>) {
    forall i :: 0 <= i < |accounts| && accounts[i].doubt != {} ==> exists j :: 0 <= j < i && Completed(accounts[j])
  }

  /** What counts as clean is what was seen, as long as everything above what is registered could be registered. */
  ghost predicate CleanWhileRooted(stamps: Stamps, accounts: seq<Account>) {
    forall i :: 0 <= i < |accounts| && !CleanIsTrue(stamps, accounts[i]) ==> exists j :: 0 <= j < i && !IsRooted(accounts[j])
  }

  /** Each drain comes after everything the runs before have seen. */
  ghost predicate OneAfterAnother(accounts: seq<Account>) {
    forall i, k :: 0 <= i < k < |accounts| ==> accounts[i].past <= accounts[k].past && |accounts[i].past| - 1 <= accounts[k].drain
  }

  lemma OneMoreRight(matches: Matches, plans: seq<Plan>, outcomes: seq<Outcome>, accounts: seq<Account>, o: Outcome, a: Account)
    requires AllRight(matches, plans, outcomes, accounts) && |outcomes| < |plans| && RightFor(matches, plans[|outcomes|], o, a)
    ensures AllRight(matches, plans, outcomes + [o], accounts + [a])
  {
    hide RightFor;
  }

  lemma OneMoreDoubt(accounts: seq<Account>, a: Account)
    requires DoubtHasCause(accounts) && (NoneCompleted(accounts) ==> a.doubt == {})
    ensures DoubtHasCause(accounts + [a])
    ensures NoneCompleted(accounts + [a]) ==> NoneCompleted(accounts) && !Completed(a)
  {
    hide Completed;
    var more := accounts + [a];
    assert more[|accounts|] == a && forall i :: 0 <= i < |accounts| ==> more[i] == accounts[i];
  }

  lemma OneMoreClean(stamps: Stamps, accounts: seq<Account>, a: Account)
    requires CleanWhileRooted(stamps, accounts) && (AllRooted(accounts) ==> CleanIsTrue(stamps, a))
    ensures CleanWhileRooted(stamps, accounts + [a])
    ensures AllRooted(accounts + [a]) ==> AllRooted(accounts) && IsRooted(a)
  {
    hide IsRooted, CleanIsTrue;
    var more := accounts + [a];
    assert more[|accounts|] == a && forall i :: 0 <= i < |accounts| ==> more[i] == accounts[i];
  }

  lemma OneMoreLater(accounts: seq<Account>, a: Account, past: seq<Fs>)
    requires OneAfterAnother(accounts) && past <= a.past && |past| - 1 <= a.drain
    requires forall k :: 0 <= k < |accounts| ==> accounts[k].past <= past
    ensures OneAfterAnother(accounts + [a])
  {
  }

  lemma NoRunsYet(matches: Matches, stamps: Stamps, plans: seq<Plan>)
    ensures AllRight(matches, plans, [], []) && DoubtHasCause([]) && CleanWhileRooted(stamps, []) && OneAfterAnother([])
  {
  }

  /**
  Any number of runs, some that compare the index and some that only walk, until
  watching stops: each compares rightly, looking only at what it must. Nothing is in doubt until a run registers a directory above
  something registered earlier; and what counts as clean is what was seen as
  long as every directory above what is registered could be registered.
  */
  method Session(watch: Watch, plans: seq<Plan>) returns (outcomes: seq<Outcome>, ghost accounts: seq<Account>)
    requires watch.Inv() && watch.IsCertain() && watch.Whole() && !watch.failure
    requires forall i :: 0 <= i < |plans| && IndexOf(plans[i]).key.Some? ==> IndexOf(plans[i]).entries == watch.contents(IndexOf(plans[i]).key.value)
    modifies watch, watch.watcher
    ensures AllRight(watch.matches, plans, outcomes, accounts)
    ensures DoubtHasCause(accounts) && CleanWhileRooted(watch.stamps, accounts) && OneAfterAnother(accounts)
  {
    hide *;
    outcomes, accounts := [], [];
    NoRunsYet(watch.matches, watch.stamps, plans);
    for i := 0 to |plans|
      invariant watch.Inv() && !watch.failure && (watch.watcher == old(watch.watcher) || fresh(watch.watcher))
      invariant |outcomes| == |accounts| == i && AllRight(watch.matches, plans, outcomes, accounts)
      invariant DoubtHasCause(accounts) && CleanWhileRooted(watch.stamps, accounts) && OneAfterAnother(accounts)
      invariant NoneCompleted(accounts) ==> watch.IsCertain()
      invariant AllRooted(accounts) ==> watch.Whole()
      invariant forall k :: 0 <= k < |accounts| ==> accounts[k].past <= watch.watcher.kernel.past
    {
      var outcome;
      ghost var account;
      ghost var past := watch.watcher.kernel.past;
      outcome, account := RunOnce(watch, plans[i]);
      if outcome.Stopped? {
        return;
      }
      OneMoreLater(accounts, account, past);
      OneMoreRight(watch.matches, plans, outcomes, accounts, outcome, account);
      OneMoreDoubt(accounts, account);
      OneMoreClean(watch.stamps, accounts, account);
      outcomes, accounts := outcomes + [outcome], accounts + [account];
    }
  }
}
