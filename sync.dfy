/**
 * The synchronisation engine: one poll of one configured pair (fetch the
 * newest upstream tag, record it, decide, push), a pass over all configured
 * pairs, and the polling loop over passes.
 *
 * Every call to the hosting service is replaced by the answer it gave, held
 * in a `Remote` value per poll; a call the engine does not make leaves its
 * answer unread. Where the service's code panics (an `unwrap` on a failed
 * call, an empty tag list, a fork branch that points at neither a commit nor
 * an annotated tag) the poll ends with the decision `Panicked`, and the
 * process, and with it the polling loop, stops before the state is saved.
 */
module Sync {
  import opened Wrappers
  import opened TagMemory

  /** One configured pair: an upstream repository and the fork that follows it. */
  datatype Entry = Entry(upstreamOwner: string, upstreamRepo: string, upstreamBranch: string,
                         forkOwner: string, forkRepo: string, forkBranch: string)

  /** The object a fork branch ref points at. */
  datatype RefObject = Commit(sha: string) | Tag(sha: string) | Other

  /** The answers of the hosting service during one poll of one entry. */
  datatype Remote = Remote(
    tags: Option<seq<string>>,   // list_tags, newest first; None when the request failed
    behindBy: Option<nat>,       // compare upstream branch against the fork; None when it failed
    forkRef: Option<RefObject>,  // get_ref of the fork branch; None when it failed
    created: bool)               // whether create_ref accepted the new tag ref

  /** What one poll of one entry did. */
  datatype Decision =
    | FirstSight                      // no earlier tag to compare with
    | NoChange                        // the newest tag is the one seen last time
    | NotFresh                        // the fork is behind upstream; no push
    | Pushed(name: string, sha: string)  // tag `name` created on the fork at `sha`
    | PushFailed(name: string)        // the push of `name` was tried and returned an error
    | Panicked                        // the process aborted

  /** What push_tag_to_fork ended with. */
  datatype PushResult = Created(tag: string, sha: string) | Failed | Crashed

  /** A push was tried in this poll. */
  predicate IsAttempt(d: Decision)
  {
    d.Pushed? || d.PushFailed?
  }

  /** The key under which the state remembers an entry: its upstream repository. */
  function KeyOwner(e: Entry): string { e.upstreamOwner }
  function KeyRepo(e: Entry): string { e.upstreamRepo }

  /** The newest upstream tag name: the first of a successful listing, none when it failed or was empty. */
  function FirstTag(tags: Option<seq<string>>): (r: Option<string>)
    ensures r.Some? <==> tags.Some? && tags.value != []
    ensures r.Some? ==> r.value == tags.value[0]
  {
    match tags
    case Some(names) => if names == [] then None else Some(names[0])
    case None => None
  }

  /** The sha of the object a fork branch ref points at: commits and annotated tags give their own sha, anything else none. */
  function ShaOf(obj: RefObject): (r: Option<string>)
    ensures r.Some? <==> obj.Commit? || obj.Tag?
    ensures r.Some? ==> r.value == obj.sha
  {
    match obj
    case Commit(sha) => Some(sha)
    case Tag(sha) => Some(sha)
    case Other => None
  }

  /**
   * Pushing tag `tagName` to the fork: read the fork branch ref, take the sha
   * of the object it points at, create the tag ref there. A failed read or create is an error;
   * a ref to another kind of object aborts.
   */
  function PushTagToFork(remote: Remote, tagName: string): (r: PushResult)
    ensures r.Created? <==> remote.forkRef.Some? && ShaOf(remote.forkRef.value).Some? && remote.created
    ensures r.Created? ==> r.tag == tagName && r.sha == ShaOf(remote.forkRef.value).value
    ensures r.Crashed? <==> remote.forkRef == Some(Other)
  {
    match remote.forkRef
    case None => Failed
    case Some(obj) =>
      match ShaOf(obj)
      case None => Crashed
      case Some(sha) => if remote.created then Created(tagName, sha) else Failed
  }

  /** The fork has everything upstream has: nothing behind, whatever is ahead. */
  predicate IsFresh(behindBy: nat)
  {
    behindBy == 0
  }

  /** The decision of one poll, taken on the tag memory after the new name was recorded. */
  function Decide(q: TagPair, remote: Remote): Decision
  {
    if q.latest.None? || q.previous.None? then FirstSight
    else if q.latest.value == q.previous.value then NoChange
    else
      match remote.behindBy
      case None => Panicked
      case Some(behind) =>
        if !IsFresh(behind) then NotFresh
        else
          match PushTagToFork(remote, q.latest.value)
          case Created(tag, sha) => Pushed(tag, sha)
          case Failed => PushFailed(q.latest.value)
          case Crashed => Panicked
  }

  /** The store and the decision after one poll. */
  datatype PollResult = PollResult(view: View, decision: Decision)

  /** One poll of one entry on values: fetch, shift-then-set, decide. */
  function PollView(v: View, e: Entry, remote: Remote): PollResult
  {
    match FirstTag(remote.tags)
    case None => PollResult(v, Panicked)
    case Some(name) =>
      var q := Shifted(Get(v, KeyOwner(e), KeyRepo(e)), name);
      PollResult(Put(v, KeyOwner(e), KeyRepo(e), q), Decide(q, remote))
  }

  /** The store and the decisions after one pass over the configured entries. */
  datatype PassResult = PassResult(view: View, decisions: seq<Decision>)

  /**
   * One pass on values: the entries in configuration order, one decision
   * each, cut short only by a panic. A failed push does not end the pass.
   */
  function Pass(v: View, entries: seq<Entry>, remotes: seq<Remote>): PassResult
    requires |remotes| == |entries|
    decreases |entries|
  {
    if entries == [] then PassResult(v, [])
    else
      var step := PollView(v, entries[0], remotes[0]);
      if step.decision == Panicked then PassResult(step.view, [Panicked])
      else
        var rest := Pass(step.view, entries[1..], remotes[1..]);
        PassResult(rest.view, [step.decision] + rest.decisions)
  }

  /** The outcome of a run of polling passes. */
  datatype RunResult = RunResult(view: View, passes: seq<seq<Decision>>, saves: seq<View>, crashed: bool)

  /** The run `head` followed by the run `tail`, when `head` did not crash. */
  function Then(head: RunResult, tail: RunResult): RunResult
  {
    RunResult(tail.view, head.passes + tail.passes, head.saves + tail.saves, tail.crashed)
  }

  /** The oracle gives one answer per entry in every pass. */
  predicate WellShaped(entries: seq<Entry>, ticks: seq<seq<Remote>>)
  {
    forall t | 0 <= t < |ticks| :: |ticks[t]| == |entries|
  }

  /**
   * The polling loop on values: a pass per tick, the store saved after every
   * pass that finished, and the loop over at the first panic.
   */
  function RunSpec(v: View, entries: seq<Entry>, ticks: seq<seq<Remote>>): RunResult
    requires WellShaped(entries, ticks)
    decreases |ticks|
  {
    if ticks == [] then RunResult(v, [], [], false)
    else
      var pass := Pass(v, entries, ticks[0]);
      if Panicked in pass.decisions then RunResult(pass.view, [pass.decisions], [], true)
      else
        var rest := RunSpec(pass.view, entries, ticks[1..]);
        Then(RunResult(pass.view, [pass.decisions], [pass.view], false), rest)
  }

  /** The pass `res` with the decisions `done` taken before it. */
  function After(done: seq<Decision>, res: PassResult): PassResult
  {
    PassResult(res.view, done + res.decisions)
  }

  /** One step of a pass: the first entry's poll, then the rest unless it panicked. */
  lemma PassUnfold(v: View, entries: seq<Entry>, remotes: seq<Remote>)
    requires |remotes| == |entries| > 0
    ensures var step := PollView(v, entries[0], remotes[0]);
      Pass(v, entries, remotes)
      == if step.decision == Panicked then PassResult(step.view, [Panicked])
         else After([step.decision], Pass(step.view, entries[1..], remotes[1..]))
  {
  }

  /** Appending one finished pass to the record and then the rest of the run. */
  lemma ThenAssoc(passes: seq<seq<Decision>>, saves: seq<View>, rest: RunResult)
    requires passes != [] && saves != []
    ensures Then(RunResult(rest.view, passes[..|passes| - 1], saves[..|saves| - 1], false),
                 Then(RunResult(rest.view, [passes[|passes| - 1]], [saves[|saves| - 1]], false), rest))
         == Then(RunResult(rest.view, passes, saves, false), rest)
  {
    assert passes[..|passes| - 1] + [passes[|passes| - 1]] == passes;
    assert saves[..|saves| - 1] + [saves[|saves| - 1]] == saves;
  }

  /** One step of the polling loop: the first tick's pass, then the rest unless it panicked. */
  lemma RunUnfold(v: View, entries: seq<Entry>, ticks: seq<seq<Remote>>)
    requires WellShaped(entries, ticks) && ticks != []
    ensures var pass := Pass(v, entries, ticks[0]);
      RunSpec(v, entries, ticks)
      == if Panicked in pass.decisions then RunResult(pass.view, [pass.decisions], [], true)
         else Then(RunResult(pass.view, [pass.decisions], [pass.view], false), RunSpec(pass.view, entries, ticks[1..]))
  {
  }

  /**
   * One poll of one configured pair: fetch the newest upstream tag, record
   * it in the pair's tag memory, and when the name changed from an earlier
   * one and the fork is not behind, push it to the fork.
   */
  method ForRepo(state: State, entry: Entry, remote: Remote) returns (d: Decision)
    requires state.Valid()
    modifies state, state.Slots()
    ensures state.Valid() && fresh(state.Slots() - old(state.Slots()))
    ensures PollResult(state.View(), d) == PollView(old(state.View()), entry, remote)
  {
    var upstreamTag := FirstTag(remote.tags);
    if upstreamTag.None? {
      return Panicked;
    }
    var owner, repo := KeyOwner(entry), KeyRepo(entry);
    var tagState := state.RepoMut(owner, repo);
    ghost var p0 := tagState.Pair();
    ghost var rest := Without(state.repos, owner, repo);
    ghost var restView := ViewOf(rest);
    ViewOfSplit(state.repos, owner, repo);
    DistinctSlot(state.repos, owner, repo);
    tagState.SwapWithNew(upstreamTag.value);
    ViewOfSplit(state.repos, owner, repo);
    assert ViewOf(rest) == restView;
    PutTwice(old(state.View()), owner, repo, p0, tagState.Pair());
    PutTwice(restView, owner, repo, p0, tagState.Pair());
    if tagState.latestTag.Some? && tagState.previousTag.Some? {
      var latestName, previousName := tagState.latestTag.value, tagState.previousTag.value;
      if latestName == previousName {
        return NoChange;
      }
      if remote.behindBy.None? {
        return Panicked;
      }
      if remote.behindBy.value != 0 {
        return NotFresh;
      }
      var pushed := PushTagToFork(remote, latestName);
      match pushed
      case Created(tag, sha) =>
        d := Pushed(tag, sha);
      case Failed =>
        d := PushFailed(latestName);
      case Crashed =>
        d := Panicked;
    } else {
      d := FirstSight;
    }
  }

  /** One pass over the configured entries, in order, stopping only when a poll panics. */
  method RunPass(state: State, entries: seq<Entry>, remotes: seq<Remote>) returns (decisions: seq<Decision>)
    requires state.Valid() && |remotes| == |entries|
    modifies state, state.Slots()
    ensures state.Valid() && fresh(state.Slots() - old(state.Slots()))
    ensures PassResult(state.View(), decisions) == Pass(old(state.View()), entries, remotes)
  {
    ghost var start := Pass(state.View(), entries, remotes);
    decisions := [];
    var i := 0;
    while i < |entries|
      invariant 0 <= i <= |entries|
      invariant state.Valid() && fresh(state.Slots() - old(state.Slots()))
      invariant start == After(decisions, Pass(state.View(), entries[i..], remotes[i..]))
    {
      ghost var here := state.View();
      PassUnfold(here, entries[i..], remotes[i..]);
      var d := ForRepo(state, entries[i], remotes[i]);
      assert entries[i..][1..] == entries[i + 1..] && remotes[i..][1..] == remotes[i + 1..];
      decisions := decisions + [d];
      if d == Panicked {
        return;
      }
      i := i + 1;
    }
  }

  /**
   * The polling loop, one pass per tick: after each pass the store is saved
   * (its value is appended to `saves`); a panic ends the loop unsaved.
   */
  method Run(state: State, entries: seq<Entry>, ticks: seq<seq<Remote>>)
    returns (passes: seq<seq<Decision>>, saves: seq<View>, crashed: bool)
    requires state.Valid() && WellShaped(entries, ticks)
    modifies state, state.Slots()
    ensures state.Valid()
    ensures RunResult(state.View(), passes, saves, crashed) == RunSpec(old(state.View()), entries, ticks)
  {
    ghost var start := RunSpec(state.View(), entries, ticks);
    passes, saves, crashed := [], [], false;
    var t := 0;
    while t < |ticks|
      invariant 0 <= t <= |ticks|
      invariant state.Valid() && fresh(state.Slots() - old(state.Slots()))
      invariant start == Then(RunResult(state.View(), passes, saves, false), RunSpec(state.View(), entries, ticks[t..]))
    {
      ghost var here := state.View();
      RunUnfold(here, entries, ticks[t..]);
      assert ticks[t..][0] == ticks[t] && ticks[t..][1..] == ticks[t + 1..];
      var decisions := RunPass(state, entries, ticks[t]);
      ghost var there := state.View();
      passes := passes + [decisions];
      if Panicked in decisions {
        crashed := true;
        return;
      }
      saves := saves + [state.View()];
      ThenAssoc(passes, saves, RunSpec(there, entries, ticks[t + 1..]));
      t := t + 1;
    }
  }
}
