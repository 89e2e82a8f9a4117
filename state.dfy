/**
 * The per-repository tag memory: a two-slot record per upstream repository
 * (the latest and the previous tag name seen) kept in a map owner -> repo.
 *
 * `TagState` and `State` are classes because the service updates them in
 * place through mutable references. `TagPair` and `View` are their values,
 * which is also what is written to and read back from the state file.
 */
module TagMemory {
  import opened Wrappers

  /** The value of one repository's tag memory. */
  datatype TagPair = TagPair(latest: Option<string>, previous: Option<string>)

  /** The slots of a repository that was never observed. */
  const Unseen := TagPair(None, None)

  /** The value of the whole store: owner -> repository -> tag memory. */
  type View = map<string, map<string, TagPair>>

  /** The memory of (owner, repo), or the unseen default when there is none. */
  function Get(v: View, owner: string, repo: string): TagPair
  {
    if owner in v && repo in v[owner] then v[owner][repo] else Unseen
  }

  /** True when (owner, repo) has an entry of its own. */
  predicate Has(v: View, owner: string, repo: string)
  {
    owner in v && repo in v[owner]
  }

  /** `v` with the memory of (owner, repo) replaced or inserted. */
  function Put(v: View, owner: string, repo: string, p: TagPair): View
  {
    v[owner := (if owner in v then v[owner] else map[])[repo := p]]
  }

  /** The shift-then-set of one observation, on values. */
  function Shifted(p: TagPair, name: string): TagPair
  {
    TagPair(Some(name), p.latest)
  }

  /** The repositories of one owner, or none. */
  function InnerOf(m: map<string, map<string, TagState>>, owner: string): map<string, TagState>
  {
    if owner in m then m[owner] else map[]
  }

  /** Two views are equal when they have the same keys and the same memory at every key. */
  lemma ViewExt(a: View, b: View)
    requires a.Keys == b.Keys
    requires forall o | o in a :: a[o].Keys == b[o].Keys
    requires forall o, r | o in a && r in a[o] :: a[o][r] == b[o][r]
    ensures a == b
  {
    forall o | o in a ensures a[o] == b[o] {
    }
  }

  /** The tag memory objects held in a nested map. */
  ghost function SlotsOf(m: map<string, map<string, TagState>>): set<TagState>
  {
    set o, r | o in m && r in m[o] :: m[o][r]
  }

  /** No two keys of a nested map share one object. */
  ghost predicate Distinct(m: map<string, map<string, TagState>>)
  {
    forall o1, r1, o2, r2 |
      o1 in m && r1 in m[o1] && o2 in m && r2 in m[o2] && m[o1][r1] == m[o2][r2]
      :: o1 == o2 && r1 == r2
  }

  /** Inserting an object at a new key adds exactly that object, and keeps keys distinct when it is new. */
  lemma InsertSlot(m: map<string, map<string, TagState>>, m': map<string, map<string, TagState>>,
                   owner: string, repo: string, ts: TagState)
    requires !(owner in m && repo in m[owner])
    requires m' == m[owner := InnerOf(m, owner)[repo := ts]]
    ensures SlotsOf(m') == SlotsOf(m) + {ts}
    ensures Distinct(m) && ts !in SlotsOf(m) ==> Distinct(m')
  {
    forall x | x in SlotsOf(m') ensures x in SlotsOf(m) + {ts} {
      var o, r :| o in m' && r in m'[o] && m'[o][r] == x;
      if o != owner || r != repo {
        assert x == m[o][r];
      }
    }
    forall x | x in SlotsOf(m) ensures x in SlotsOf(m') {
      var o, r :| o in m && r in m[o] && m[o][r] == x;
      assert m'[o][r] == x;
    }
    assert m'[owner][repo] == ts;
  }

  /** The values held by a nested map of tag memory objects. */
  function ViewOf(m: map<string, map<string, TagState>>): View
    reads SlotsOf(m)
  {
    map o | o in m :: map r | r in m[o] :: m[o][r].Pair()
  }

  /** The nested map without the key (owner, repo); the owner itself stays. */
  function Without(m: map<string, map<string, TagState>>, owner: string, repo: string): map<string, map<string, TagState>>
  {
    if owner in m then m[owner := m[owner] - {repo}] else m
  }

  /** Inserting an object at a new key adds exactly that key to the view. */
  lemma ViewOfInsert(m: map<string, map<string, TagState>>, owner: string, repo: string, ts: TagState)
    requires !(owner in m && repo in m[owner])
    ensures ViewOf(m[owner := InnerOf(m, owner)[repo := ts]]) == Put(ViewOf(m), owner, repo, ts.Pair())
  {
    var m' := m[owner := InnerOf(m, owner)[repo := ts]];
    var v, w := ViewOf(m'), Put(ViewOf(m), owner, repo, ts.Pair());
    forall o, r | o in v && r in v[o] ensures v[o][r] == w[o][r] {
      if o != owner || r != repo {
        assert m'[o][r] == m[o][r];
      }
    }
    ViewExt(v, w);
  }

  /**
   * The view of a map is the view of the map without one key, with that key's
   * memory put back.
   */
  lemma ViewOfSplit(m: map<string, map<string, TagState>>, owner: string, repo: string)
    requires owner in m && repo in m[owner]
    ensures ViewOf(m) == Put(ViewOf(Without(m, owner, repo)), owner, repo, m[owner][repo].Pair())
  {
    var rest := Without(m, owner, repo);
    var v, w := ViewOf(m), Put(ViewOf(rest), owner, repo, m[owner][repo].Pair());
    forall o, r | o in v && r in v[o] ensures v[o][r] == w[o][r] {
      if o != owner || r != repo {
        assert rest[o][r] == m[o][r];
      }
    }
    ViewExt(v, w);
  }

  /** When the objects are distinct, the object at a key is not among those of the other keys. */
  lemma DistinctSlot(m: map<string, map<string, TagState>>, owner: string, repo: string)
    requires owner in m && repo in m[owner] && Distinct(m)
    ensures m[owner][repo] !in SlotsOf(Without(m, owner, repo))
  {
  }

  /** A second Put at the same key overrides the first. */
  lemma PutTwice(v: View, owner: string, repo: string, p1: TagPair, p2: TagPair)
    ensures Put(Put(v, owner, repo, p1), owner, repo, p2) == Put(v, owner, repo, p2)
  {
    var inner := if owner in v then v[owner] else map[];
    assert inner[repo := p1][repo := p2] == inner[repo := p2];
  }

  /** One repository's tag memory, updated in place. */
  class TagState {
    var latestTag: Option<string>
    var previousTag: Option<string>

    /** The default record: nothing observed yet. */
    constructor ()
      ensures latestTag == None && previousTag == None
    {
      latestTag := None;
      previousTag := None;
    }

    function Pair(): TagPair
      reads this
    {
      TagPair(latestTag, previousTag)
    }

    /** Records a newly fetched tag name: latest moves to previous, then the name becomes latest. */
    method SwapWithNew(name: string)
      modifies this
      ensures previousTag == old(latestTag)
      ensures latestTag == Some(name)
      ensures Pair() == Shifted(old(Pair()), name)
    {
      previousTag := latestTag;
      latestTag := Some(name);
    }
  }

  /** The store: owner -> repository -> tag memory. */
  class State {
    var repos: map<string, map<string, TagState>>

    /** Every tag memory object held by the store. */
    ghost function Slots(): set<TagState>
      reads this
    {
      SlotsOf(repos)
    }

    /**
     * No two keys share one tag memory object: in the service each entry is
     * a value of its own, so writing one never changes another.
     */
    ghost predicate Valid()
      reads this
    {
      Distinct(repos)
    }

    /** The contents of the store as values; this is what gets saved. */
    function View(): View
      reads this, Slots()
    {
      ViewOf(repos)
    }

    /** The default store: no repositories at all. */
    constructor ()
      ensures Valid() && repos == map[] && View() == map[]
    {
      repos := map[];
    }

    /**
     * The store as loaded at start-up: the decoded state file when it could be
     * read and parsed, and the default store on either failure.
     */
    static method Load(read: FileRead) returns (s: State)
      ensures read == Read(Some(s)) || (fresh(s) && s.Valid() && s.View() == map[])
      ensures read.Read? && read.parsed.Some? ==> s == read.parsed.value
    {
      match read
      case Read(Some(decoded)) =>
        s := decoded;
      case Read(None) =>
        s := new State();
      case ReadFailed =>
        s := new State();
    }

    /**
     * The tag memory of (owner, repo), inserted with both slots empty when
     * missing; no other entry changes and no key is removed.
     */
    method RepoMut(owner: string, repo: string) returns (ts: TagState)
      requires Valid()
      modifies this
      ensures Valid()
      ensures owner in repos && repo in repos[owner] && repos[owner][repo] == ts
      ensures Slots() == old(Slots()) + {ts}
      ensures ts in old(Slots()) || fresh(ts)
      ensures old(owner in repos && repo in repos[owner]) ==> ts == old(repos[owner][repo])
      ensures !old(owner in repos && repo in repos[owner]) ==> fresh(ts) && ts.Pair() == Unseen
      ensures ts.Pair() == Get(old(View()), owner, repo)
      ensures View() == Put(old(View()), owner, repo, ts.Pair())
    {
      var inner := InnerOf(repos, owner);
      if repo in inner {
        ts := inner[repo];
        ViewPutPresent(owner, repo);
      } else {
        ts := InsertDefault(owner, repo);
      }
    }

    /** The missing-key half of RepoMut: a default record is inserted at (owner, repo). */
    method InsertDefault(owner: string, repo: string) returns (ts: TagState)
      requires Valid() && !(owner in repos && repo in repos[owner])
      modifies this
      ensures Valid() && fresh(ts) && ts.Pair() == Unseen
      ensures owner in repos && repo in repos[owner] && repos[owner][repo] == ts
      ensures Slots() == old(Slots()) + {ts}
      ensures View() == Put(old(View()), owner, repo, Unseen)
    {
      var inner := InnerOf(repos, owner);
      ts := new TagState();
      InsertSlot(repos, repos[owner := inner[repo := ts]], owner, repo, ts);
      ViewOfInsert(repos, owner, repo, ts);
      repos := repos[owner := inner[repo := ts]];
    }

    /** Looking up an existing key through Put leaves the view as it was. */
    lemma ViewPutPresent(owner: string, repo: string)
      requires owner in repos && repo in repos[owner]
      ensures View() == Put(View(), owner, repo, repos[owner][repo].Pair())
    {
      ViewOfSplit(repos, owner, repo);
      PutTwice(ViewOf(Without(repos, owner, repo)), owner, repo, repos[owner][repo].Pair(), repos[owner][repo].Pair());
    }
  }

  /** What reading the state file gave: a failure, or contents that decoded or not. */
  datatype FileRead = ReadFailed | Read(parsed: Option<State>)
}
