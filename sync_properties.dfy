/**
 * What the tag memory and the synchronisation engine guarantee: the shift of
 * the two slots, the gating of a push on a changed name and a fresh fork,
 * how a pass and the polling loop proceed, and that polls which keep seeing
 * the same tag name push it at most once.
 */
module SyncProperties {
  import opened Wrappers
  import opened TagMemory
  import opened Sync

  // ---------------------------------------------------------------------
  // Tag memory

  /** Recording the same name twice leaves it in both slots. */
  lemma SwapTwiceSameName(p: TagPair, name: string)
    ensures Shifted(Shifted(p, name), name) == TagPair(Some(name), Some(name))
  {
  }

  /**
   * Writing the memory of one key: that key reads back what was written,
   * every other key reads as before, and no key disappears.
   */
  lemma PutTouchesOnlyItsKey(v: View, owner: string, repo: string, p: TagPair, o: string, r: string)
    ensures Get(Put(v, owner, repo, p), owner, repo) == p
    ensures o != owner || r != repo ==> Get(Put(v, owner, repo, p), o, r) == Get(v, o, r)
    ensures Has(Put(v, owner, repo, p), o, r) <==> Has(v, o, r) || (o == owner && r == repo)
  {
  }

  // ---------------------------------------------------------------------
  // One poll

  /** The key of an entry is (owner, repo). */
  predicate HasKey(e: Entry, owner: string, repo: string)
  {
    KeyOwner(e) == owner && KeyRepo(e) == repo
  }

  /**
   * The state after a poll depends only on the tag listing: a failed or empty
   * listing leaves it alone, otherwise the fetched name is shifted in, whatever
   * the freshness check and the push answered.
   */
  lemma PollStateIgnoresLaterAnswers(v: View, e: Entry, r1: Remote, r2: Remote)
    requires r1.tags == r2.tags
    ensures PollView(v, e, r1).view == PollView(v, e, r2).view
    ensures FirstTag(r1.tags).None? ==> PollView(v, e, r1).view == v && PollView(v, e, r1).decision == Panicked
    ensures FirstTag(r1.tags).Some? ==>
      PollView(v, e, r1).view
      == Put(v, KeyOwner(e), KeyRepo(e), TagPair(FirstTag(r1.tags), Get(v, KeyOwner(e), KeyRepo(e)).latest))
  {
  }

  /**
   * The first poll of a repository that has no entry yet: the entry is
   * created from the default record, so it holds the fetched name with an
   * empty previous slot, the poll decides `FirstSight`, and no other
   * repository's memory changes.
   */
  lemma FirstPollOfNewRepository(v: View, e: Entry, r: Remote, name: string, o: string, rp: string)
    requires !Has(v, KeyOwner(e), KeyRepo(e))
    requires FirstTag(r.tags) == Some(name)
    ensures PollView(v, e, r).decision == FirstSight
    ensures Has(PollView(v, e, r).view, KeyOwner(e), KeyRepo(e))
    ensures Get(PollView(v, e, r).view, KeyOwner(e), KeyRepo(e)) == TagPair(Some(name), None)
    ensures o != KeyOwner(e) || rp != KeyRepo(e) ==>
      Has(PollView(v, e, r).view, o, rp) == Has(v, o, rp) && Get(PollView(v, e, r).view, o, rp) == Get(v, o, rp)
  {
  }

  /** The first poll of a pair records the tag and neither compares nor pushes, fresh fork or not. */
  lemma NoPushOnFirstSight(v: View, e: Entry, r: Remote)
    requires Get(v, KeyOwner(e), KeyRepo(e)).latest.None?
    requires FirstTag(r.tags).Some?
    ensures PollView(v, e, r).decision == FirstSight
    ensures Get(PollView(v, e, r).view, KeyOwner(e), KeyRepo(e)) == TagPair(FirstTag(r.tags), None)
  {
  }

  /** Fetching the name seen last time changes nothing on the fork and asks nothing more of the service. */
  lemma UnchangedNameDoesNothing(v: View, e: Entry, r: Remote)
    requires FirstTag(r.tags).Some?
    requires Get(v, KeyOwner(e), KeyRepo(e)).latest == FirstTag(r.tags)
    ensures PollView(v, e, r).decision == NoChange
    ensures forall r': Remote | r'.tags == r.tags :: PollView(v, e, r').decision == NoChange
  {
  }

  /**
   * A changed name after an earlier one: a failed comparison aborts, a fork
   * behind upstream gets no push, and a fork not behind gets exactly one
   * push attempt, of the new name, at the sha of the object the fork branch
   * points at.
   */
  lemma PushGatedOnChangeAndFreshness(v: View, e: Entry, r: Remote, name: string, last: string)
    requires FirstTag(r.tags) == Some(name)
    requires Get(v, KeyOwner(e), KeyRepo(e)).latest == Some(last) && last != name
    ensures var d := PollView(v, e, r).decision;
      && (r.behindBy.None? ==> d == Panicked)
      && (r.behindBy.Some? && r.behindBy.value != 0 ==> d == NotFresh)
      && (IsAttempt(d) <==> r.behindBy == Some(0) && r.forkRef != Some(Other))
      && (IsAttempt(d) ==> d.name == name)
      && (d.Pushed? <==> r.behindBy == Some(0) && r.forkRef.Some? && !r.forkRef.value.Other? && r.created)
      && (d.Pushed? ==> d.sha == r.forkRef.value.sha)
  {
  }

  /**
   * A name is acted on at most once in a row: once a poll has fetched a name,
   * the next poll that fetches the same name decides `NoChange`, whatever the
   * first poll decided and whatever the comparison answers now. In particular
   * a tag skipped because the fork was behind (`NotFresh`) is not pushed when
   * the fork later catches up, and a push that failed (`PushFailed`) is not
   * tried again.
   */
  lemma NoRetryOfSameName(v: View, e: Entry, r: Remote, next: Remote, name: string)
    requires FirstTag(r.tags) == Some(name)
    requires FirstTag(next.tags) == Some(name)
    ensures PollView(PollView(v, e, r).view, e, next).decision == NoChange
  {
  }

  /** A skip for staleness is final: the fork catching up does not bring the push back. */
  lemma StaleForkNeverGetsTag(v: View, e: Entry, r: Remote, next: Remote, name: string)
    requires PollView(v, e, r).decision == NotFresh
    requires FirstTag(r.tags) == Some(name) && FirstTag(next.tags) == Some(name)
    requires next.behindBy == Some(0)
    ensures !IsAttempt(PollView(PollView(v, e, r).view, e, next).decision)
  {
    NoRetryOfSameName(v, e, r, next, name);
  }

  /**
   * The sha a push uses is that of the object the fork branch points at: a
   * commit's own sha, or an annotated tag object's own sha (not the commit it
   * tags); any other object kind aborts.
   */
  lemma PushUsesBranchObjectSha(remote: Remote, tagName: string)
    requires remote.forkRef.Some?
    ensures remote.forkRef.value.Commit? && remote.created ==> PushTagToFork(remote, tagName) == Created(tagName, remote.forkRef.value.sha)
    ensures remote.forkRef.value.Tag? && remote.created ==> PushTagToFork(remote, tagName) == Created(tagName, remote.forkRef.value.sha)
    ensures remote.forkRef.value.Other? ==> PushTagToFork(remote, tagName) == Crashed
  {
  }

  // ---------------------------------------------------------------------
  // How a pass and the polling loop proceed

  /**
   * A pass gives one decision per entry, in configuration order, and stops
   * early only at a panic: failed pushes, stale forks and unchanged tags let
   * it go on to the next entry.
   */
  lemma {:induction false} PassShape(v: View, entries: seq<Entry>, remotes: seq<Remote>)
    requires |remotes| == |entries|
    ensures var ds := Pass(v, entries, remotes).decisions;
      && |ds| <= |entries|
      && (forall i | 0 <= i < |ds| - 1 :: ds[i] != Panicked)
      && (|ds| < |entries| ==> ds != [] && ds[|ds| - 1] == Panicked)
      && (Panicked !in ds ==> |ds| == |entries|)
    decreases |entries|
  {
    if entries != [] {
      var step := PollView(v, entries[0], remotes[0]);
      if step.decision != Panicked {
        PassShape(step.view, entries[1..], remotes[1..]);
        var rest := Pass(step.view, entries[1..], remotes[1..]).decisions;
        assert Pass(v, entries, remotes).decisions == [step.decision] + rest;
      }
    }
  }

  /** A pass over two lists of entries is the pass over the first, then, unless it panicked, over the second. */
  lemma {:induction false} PassInOrder(v: View, e1: seq<Entry>, r1: seq<Remote>, e2: seq<Entry>, r2: seq<Remote>)
    requires |r1| == |e1| && |r2| == |e2|
    ensures var first := Pass(v, e1, r1);
      Pass(v, e1 + e2, r1 + r2)
      == if Panicked in first.decisions then first
         else After(first.decisions, Pass(first.view, e2, r2))
    decreases |e1|
  {
    if e1 == [] {
      assert e1 + e2 == e2 && r1 + r2 == r2;
    } else {
      var step := PollView(v, e1[0], r1[0]);
      ConsSplit(e1, r1, e2, r2);
      PassUnfold(v, e1 + e2, r1 + r2);
      PassUnfold(v, e1, r1);
      if step.decision != Panicked {
        PassInOrder(step.view, e1[1..], r1[1..], e2, r2);
        PrefixCommutesWithContinue(step.decision, Pass(step.view, e1[1..], r1[1..]), Pass(Pass(step.view, e1[1..], r1[1..]).view, e2, r2));
      }
    }
  }

  /** The head and the tail of two concatenated lists of entries and answers. */
  lemma ConsSplit(e1: seq<Entry>, r1: seq<Remote>, e2: seq<Entry>, r2: seq<Remote>)
    requires |r1| == |e1| > 0
    ensures (e1 + e2)[0] == e1[0] && (r1 + r2)[0] == r1[0]
    ensures (e1 + e2)[1..] == e1[1..] + e2 && (r1 + r2)[1..] == r1[1..] + r2
  {
  }

  /** Prefixing a decision that is not a panic commutes with continuing a pass. */
  lemma PrefixCommutesWithContinue(d: Decision, rest: PassResult, tail: PassResult)
    requires d != Panicked
    ensures var whole := After([d], rest);
      After([d], if Panicked in rest.decisions then rest else After(rest.decisions, tail))
      == if Panicked in whole.decisions then whole else After(whole.decisions, tail)
  {
    assert Panicked in rest.decisions <==> Panicked in [d] + rest.decisions;
    assert [d] + (rest.decisions + tail.decisions) == ([d] + rest.decisions) + tail.decisions;
  }

  /**
   * The polling loop saves the state once after every finished pass, and
   * runs every tick unless a panic ends it; the last save holds the final
   * state.
   */
  lemma {:induction false} RunShape(v: View, entries: seq<Entry>, ticks: seq<seq<Remote>>)
    requires WellShaped(entries, ticks)
    ensures var res := RunSpec(v, entries, ticks);
      && |res.passes| <= |ticks|
      && |res.saves| == (if res.crashed then |res.passes| - 1 else |res.passes|)
      && (!res.crashed ==> |res.passes| == |ticks|)
      && (res.crashed ==> res.passes != [] && Panicked in res.passes[|res.passes| - 1])
      && (forall t | 0 <= t < |res.saves| :: Panicked !in res.passes[t])
      && (!res.crashed && res.saves != [] ==> res.saves[|res.saves| - 1] == res.view)
    decreases |ticks|
  {
    if ticks != [] {
      var pass := Pass(v, entries, ticks[0]);
      if Panicked !in pass.decisions {
        RunShape(pass.view, entries, ticks[1..]);
      }
    }
  }

  // ---------------------------------------------------------------------
  // No duplicate push

  /** Every listing answered for the key fetches `name` (or fails). */
  predicate FetchesOnly(r: Remote, name: string)
  {
    FirstTag(r.tags).Some? ==> FirstTag(r.tags).value == name
  }

  /** Pushes still possible for `name` at a key: none once it is the latest name there. */
  function Budget(v: View, owner: string, repo: string, name: string): nat
  {
    if Get(v, owner, repo).latest == Some(name) then 0 else 1
  }

  /** How many of the decisions are push attempts for entries with key (owner, repo). */
  function KeyAttempts(entries: seq<Entry>, ds: seq<Decision>, owner: string, repo: string): nat
    decreases |ds|
  {
    if ds == [] || entries == [] then 0
    else (if HasKey(entries[0], owner, repo) && IsAttempt(ds[0]) then 1 else 0)
         + KeyAttempts(entries[1..], ds[1..], owner, repo)
  }

  /** Push attempts for key (owner, repo) over all passes of a run. */
  function RunAttempts(entries: seq<Entry>, passes: seq<seq<Decision>>, owner: string, repo: string): nat
    decreases |passes|
  {
    if passes == [] then 0
    else KeyAttempts(entries, passes[0], owner, repo) + RunAttempts(entries, passes[1..], owner, repo)
  }

  /** The hypothesis of the theorem: every poll of key (owner, repo) fetches `name` or fails. */
  predicate KeySeesOnly(entries: seq<Entry>, ticks: seq<seq<Remote>>, owner: string, repo: string, name: string)
    requires WellShaped(entries, ticks)
  {
    forall t, i | 0 <= t < |ticks| && 0 <= i < |entries| && HasKey(entries[i], owner, repo) :: FetchesOnly(ticks[t][i], name)
  }

  /** One poll spends at most the budget of its own key and leaves every other key alone. */
  lemma PollBudget(v: View, e: Entry, r: Remote, owner: string, repo: string, name: string)
    requires HasKey(e, owner, repo) ==> FetchesOnly(r, name)
    ensures var step := PollView(v, e, r);
      (if HasKey(e, owner, repo) && IsAttempt(step.decision) then 1 else 0) + Budget(step.view, owner, repo, name)
      <= Budget(v, owner, repo, name)
  {
    var step := PollView(v, e, r);
    if FirstTag(r.tags).Some? {
      PutTouchesOnlyItsKey(v, KeyOwner(e), KeyRepo(e), Shifted(Get(v, KeyOwner(e), KeyRepo(e)), FirstTag(r.tags).value), owner, repo);
    }
  }

  /** Over one pass, attempts for the key plus the budget left never exceed the budget before. */
  lemma {:induction false} PassBudget(v: View, entries: seq<Entry>, remotes: seq<Remote>, owner: string, repo: string, name: string)
    requires |remotes| == |entries|
    requires forall i | 0 <= i < |entries| && HasKey(entries[i], owner, repo) :: FetchesOnly(remotes[i], name)
    ensures var res := Pass(v, entries, remotes);
      KeyAttempts(entries, res.decisions, owner, repo) + Budget(res.view, owner, repo, name) <= Budget(v, owner, repo, name)
    decreases |entries|
  {
    if entries != [] {
      var step := PollView(v, entries[0], remotes[0]);
      PollBudget(v, entries[0], remotes[0], owner, repo, name);
      if step.decision != Panicked {
        PassBudget(step.view, entries[1..], remotes[1..], owner, repo, name);
        var rest := Pass(step.view, entries[1..], remotes[1..]);
        assert ([step.decision] + rest.decisions)[1..] == rest.decisions;
      }
    }
  }

  /** Over a whole run, attempts for the key plus the budget left never exceed the budget before. */
  lemma {:induction false} RunBudget(v: View, entries: seq<Entry>, ticks: seq<seq<Remote>>, owner: string, repo: string, name: string)
    requires WellShaped(entries, ticks) && KeySeesOnly(entries, ticks, owner, repo, name)
    ensures var res := RunSpec(v, entries, ticks);
      RunAttempts(entries, res.passes, owner, repo) + Budget(res.view, owner, repo, name) <= Budget(v, owner, repo, name)
    decreases |ticks|
  {
    if ticks != [] {
      var pass := Pass(v, entries, ticks[0]);
      PassBudget(v, entries, ticks[0], owner, repo, name);
      if Panicked !in pass.decisions {
        assert KeySeesOnly(entries, ticks[1..], owner, repo, name) by {
          forall t, i | 0 <= t < |ticks[1..]| && 0 <= i < |entries| && HasKey(entries[i], owner, repo)
            ensures FetchesOnly(ticks[1..][t][i], name)
          {
            assert ticks[1..][t] == ticks[t + 1];
          }
        }
        RunBudget(pass.view, entries, ticks[1..], owner, repo, name);
        var rest := RunSpec(pass.view, entries, ticks[1..]);
        assert ([pass.decisions] + rest.passes)[1..] == rest.passes;
      }
    }
  }

  /**
   * No duplicate push: however many passes keep fetching the same newest tag
   * name for a repository, at most one push of it is attempted, and none when
   * that name was already the latest one remembered. Entries that share the
   * upstream repository share this single attempt. The bound holds within one
   * run of the process: a panic later in the same pass loses that pass's save,
   * and a restart from the last save may attempt the tag again.
   */
  lemma AtMostOnePush(v: View, entries: seq<Entry>, ticks: seq<seq<Remote>>, owner: string, repo: string, name: string)
    requires WellShaped(entries, ticks) && KeySeesOnly(entries, ticks, owner, repo, name)
    ensures RunAttempts(entries, RunSpec(v, entries, ticks).passes, owner, repo) <= 1
    ensures Get(v, owner, repo).latest == Some(name) ==> RunAttempts(entries, RunSpec(v, entries, ticks).passes, owner, repo) == 0
  {
    RunBudget(v, entries, ticks, owner, repo, name);
  }

  // ---------------------------------------------------------------------
  // The documented scenario

  /**
   * Memory {latest v1.0, previous v0.9}: fetching v1.0 again does nothing;
   * fetching v1.1 next pushes v1.1 when the fork is not behind and skips it
   * when it is two commits behind, and both leave {latest v1.1, previous v1.0}.
   */
  lemma DocumentedScenario(sha: string)
    ensures var e := Entry("up", "lib", "main", "me", "lib", "main");
      var v0 := map["up" := map["lib" := TagPair(Some("v1.0"), Some("v0.9"))]];
      var again := PollView(v0, e, Remote(Some(["v1.0"]), None, None, false));
      var upToDate := PollView(again.view, e, Remote(Some(["v1.1"]), Some(0), Some(Commit(sha)), true));
      var stale := PollView(again.view, e, Remote(Some(["v1.1"]), Some(2), Some(Commit(sha)), true));
      && again.decision == NoChange
      && upToDate.decision == Pushed("v1.1", sha)
      && stale.decision == NotFresh
      && Get(upToDate.view, "up", "lib") == TagPair(Some("v1.1"), Some("v1.0"))
      && Get(stale.view, "up", "lib") == TagPair(Some("v1.1"), Some("v1.0"))
  {
  }

  /**
   * Two entries that follow one upstream repository with different forks:
   * a tag published during a pass, after the first entry was polled, is
   * pushed only to the second entry's fork. The next pass finds the name
   * already recorded, so the first entry's fork never receives it, though
   * that fork is up to date.
   */
  lemma SharedUpstreamScenario(sha: string)
    ensures var a := Entry("up", "lib", "main", "a", "lib", "main");
      var b := Entry("up", "lib", "main", "b", "lib", "main");
      var v0 := map["up" := map["lib" := TagPair(Some("v1.0"), Some("v0.9"))]];
      var old10 := Remote(Some(["v1.0"]), Some(0), Some(Commit(sha)), true);
      var new11 := Remote(Some(["v1.1"]), Some(0), Some(Commit(sha)), true);
      var first := Pass(v0, [a, b], [old10, new11]);
      var second := Pass(first.view, [a, b], [new11, new11]);
      && first.decisions == [NoChange, Pushed("v1.1", sha)]
      && second.decisions == [NoChange, NoChange]
  {
    var a := Entry("up", "lib", "main", "a", "lib", "main");
    var b := Entry("up", "lib", "main", "b", "lib", "main");
    var v0 := map["up" := map["lib" := TagPair(Some("v1.0"), Some("v0.9"))]];
    var old10 := Remote(Some(["v1.0"]), Some(0), Some(Commit(sha)), true);
    var new11 := Remote(Some(["v1.1"]), Some(0), Some(Commit(sha)), true);
    var first := Pass(v0, [a, b], [old10, new11]);
    var p1 := PollView(v0, a, old10);
    assert p1.decision == NoChange;
    var p2 := PollView(p1.view, b, new11);
    assert p2.decision == Pushed("v1.1", sha);
    PassUnfold(v0, [a, b], [old10, new11]);
    PassUnfold(p1.view, [b], [new11]);
    assert first == PassResult(p2.view, [NoChange, Pushed("v1.1", sha)]);
    var p3 := PollView(p2.view, a, new11);
    assert p3.decision == NoChange;
    var p4 := PollView(p3.view, b, new11);
    assert p4.decision == NoChange;
    PassUnfold(p2.view, [a, b], [new11, new11]);
    PassUnfold(p3.view, [b], [new11]);
  }
}
