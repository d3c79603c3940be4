/** Regular files and directories at canonical paths. Symbolic links are not modelled. */
module FileSystem {
  type Path = seq<string>
  type Content = string

  datatype FS = FS(files: map<Path, Content>, dirs: set<Path>)

  /** d is a directory position strictly above p. */
  predicate Above(d: Path, p: Path) { |d| < |p| && p[..|d|] == d }

  function Ancestors(p: Path): (r: set<Path>)
    ensures forall d :: d in r <==> Above(d, p)
  {
    var r := set i | 0 <= i < |p| :: p[..i];
    assert forall d | Above(d, p) :: d == p[..|d|] && d in r;
    r
  }

  predicate Exists(fs: FS, p: Path) { p in fs.files || p in fs.dirs }

  predicate WellFormed(fs: FS) {
    && fs.files.Keys !! fs.dirs
    && (forall p | p in fs.files :: Ancestors(p) <= fs.dirs)
    && (forall p | p in fs.dirs :: Ancestors(p) <= fs.dirs)
  }

  // ----- writing a file

  /** Path.mkdir(parents=True, exist_ok=True) on the parent, unlink, copy: possible when nothing on the way
      is a regular file and the target is not a directory. */
  predicate Writable(fs: FS, p: Path) {
    p != [] && p !in fs.dirs && forall d | d in Ancestors(p) :: d !in fs.files
  }

  /** A file can be written exactly when the disk is then still one: no file where a directory is, nor above a path. */
  lemma WritableIff(fs: FS, p: Path, c: Content)
    requires WellFormed(fs) && p != []
    ensures Writable(fs, p) <==> WellFormed(Written(fs, p, c))
  {
    var w := Written(fs, p, c);
    assert p !in Ancestors(p);
    if Writable(fs, p) {
      forall d, e | d in Ancestors(p) && e in Ancestors(d) ensures e in w.dirs {
        assert e in Ancestors(p);
      }
    }
  }

  function Written(fs: FS, p: Path, c: Content): FS {
    FS(fs.files[p := c], fs.dirs + Ancestors(p))
  }

  function AllAncestors(ps: set<Path>): (r: set<Path>)
    ensures forall d :: d in r <==> exists p | p in ps :: d in Ancestors(p)
  {
    set p, d | p in ps && d in Ancestors(p) :: d
  }

  function WrittenAll(fs: FS, writes: map<Path, Content>): FS {
    FS(fs.files + writes, fs.dirs + AllAncestors(writes.Keys))
  }

  lemma WrittenAllStep(fs: FS, writes: map<Path, Content>, p: Path, c: Content)
    requires p !in writes
    ensures Written(WrittenAll(fs, writes), p, c) == WrittenAll(fs, writes[p := c])
  {
    assert AllAncestors(writes.Keys) + Ancestors(p) == AllAncestors(writes[p := c].Keys);
  }

  lemma WrittenAllNothing(fs: FS)
    ensures WrittenAll(fs, map[]) == fs
  {
    assert AllAncestors({}) == {};
  }

  /** No path lies above another: true of the regular files of one source tree. */
  predicate PrefixFree(ps: set<Path>) {
    forall p, q | p in ps && q in ps :: !Above(p, q)
  }

  /** Writing some of a prefix-free family does not get in the way of writing the others. */
  lemma StillWritable(fs: FS, writes: map<Path, Content>, p: Path)
    requires PrefixFree(writes.Keys + {p}) && p !in writes
    ensures Writable(WrittenAll(fs, writes), p) <==> Writable(fs, p)
  {}

  lemma WrittenAllWellFormed(fs: FS, writes: map<Path, Content>)
    requires WellFormed(fs) && PrefixFree(writes.Keys) && forall p | p in writes :: Writable(fs, p)
    ensures WellFormed(WrittenAll(fs, writes))
  {
    var w := WrittenAll(fs, writes);
    forall p, d | p in writes && d in Ancestors(p) ensures Ancestors(d) <= w.dirs && d !in w.files {
      assert forall e | e in Ancestors(d) :: e in Ancestors(p);
    }
    assert forall p | p in writes :: p !in fs.dirs;
  }

  // ----- pruning directories

  predicate IsChild(d: Path, p: Path) { |p| == |d| + 1 && Above(d, p) }

  /** rmdir succeeds: the directory exists and nothing is in it. */
  predicate CanRemove(fs: FS, d: Path) {
    d in fs.dirs && forall p | p in fs.files.Keys + fs.dirs :: !IsChild(d, p)
  }

  /** What one deepest-first pass over the candidates ends with: a candidate goes if and only if no file is
      left below it and every directory below it is a candidate too. */
  predicate Prunable(fs: FS, candidates: set<Path>, d: Path) {
    && d in candidates
    && (forall p | p in fs.files :: !Above(d, p))
    && (forall e | e in fs.dirs :: Above(d, e) ==> e in candidates)
  }

  function Pruned(fs: FS, candidates: set<Path>): FS {
    FS(fs.files, set d | d in fs.dirs && !Prunable(fs, candidates, d))
  }

  /** The pass half-way. */
  function PrunedSoFar(fs: FS, candidates: set<Path>, todo: set<Path>): FS {
    FS(fs.files, set d | d in fs.dirs && (d in todo || !Prunable(fs, candidates, d)))
  }

  lemma ChildOnTheWay(d: Path, p: Path) returns (c: Path)
    requires Above(d, p)
    ensures IsChild(d, c) && (c == p || Above(c, p))
  {
    c := p[..|d| + 1];
    assert c[..|d|] == d;
    assert c != p ==> Above(c, p);
  }

  /** Below a prunable directory every directory is prunable. */
  lemma PrunableBelow(fs: FS, candidates: set<Path>, a: Path, d: Path)
    requires Prunable(fs, candidates, a) && d in fs.dirs && Above(a, d)
    ensures Prunable(fs, candidates, d)
  {
    forall p | Above(d, p) ensures Above(a, p) {}
  }

  /** At a deepest remaining candidate, being empty now and being prunable at all are the same. */
  lemma RemovableIffPrunable(fs: FS, candidates: set<Path>, todo: set<Path>, d: Path)
    requires WellFormed(fs) && todo <= candidates && d in todo && d in fs.dirs
    requires forall t | t in todo :: |t| <= |d|
    ensures CanRemove(PrunedSoFar(fs, candidates, todo), d) <==> Prunable(fs, candidates, d)
  {
    var now := PrunedSoFar(fs, candidates, todo);
    if Prunable(fs, candidates, d) {
      forall p | p in fs.dirs && Above(d, p) ensures p !in now.dirs { PrunableBelow(fs, candidates, d, p); }
    } else {
      if p :| p in fs.files && Above(d, p) {
        var c := ChildOnTheWay(d, p);
        if c != p {
          assert c in fs.dirs && !Prunable(fs, candidates, c);
          assert c in now.dirs;
        }
      } else {
        var e :| e in fs.dirs && Above(d, e) && e !in candidates;
        var c := ChildOnTheWay(d, e);
        assert c in fs.dirs && !Prunable(fs, candidates, c);
        assert c in now.dirs;
      }
    }
  }

  /** One pass is enough: afterwards no candidate can be removed. */
  lemma PruneReachesFixpoint(fs: FS, candidates: set<Path>, d: Path)
    requires WellFormed(fs) && d in candidates
    ensures !CanRemove(Pruned(fs, candidates), d)
  {
    if d in fs.dirs && !Prunable(fs, candidates, d) {
      RemovableIffPrunable(fs, candidates, {d}, d);
      assert PrunedSoFar(fs, candidates, {d}) == Pruned(fs, candidates);
    }
  }

  predicate IsDeepest(d: Path, ps: set<Path>) {
    d in ps && forall p | p in ps :: |p| <= |d|
  }

  lemma {:induction false} DeepestExists(ps: set<Path>)
    requires ps != {}
    ensures exists d :: IsDeepest(d, ps)
  {
    var d :| d in ps;
    if ps == {d} {
      assert IsDeepest(d, ps);
    } else {
      DeepestExists(ps - {d});
      var e :| IsDeepest(e, ps - {d});
      assert IsDeepest(if |d| < |e| then e else d, ps);
    }
  }

  lemma PrunedWellFormed(fs: FS, candidates: set<Path>)
    requires WellFormed(fs)
    ensures WellFormed(Pruned(fs, candidates))
  {
    forall d, a | d in fs.dirs && Above(a, d) && Prunable(fs, candidates, a) ensures Prunable(fs, candidates, d) {
      PrunableBelow(fs, candidates, a, d);
    }
    assert forall p | p in fs.files :: forall a | a in Ancestors(p) :: a in fs.dirs && !Prunable(fs, candidates, a);
  }

  /** sorted(dirs, key=depth, reverse=True), rmdir each, ignoring failures. Ties are in no fixed order. */
  method PruneDeepestFirst(fs: FS, candidates: set<Path>) returns (r: FS)
    requires WellFormed(fs)
    ensures r == Pruned(fs, candidates)
  {
    r := fs;
    var todo := candidates;
    assert r == PrunedSoFar(fs, candidates, todo);
    while todo != {}
      invariant todo <= candidates
      invariant r == PrunedSoFar(fs, candidates, todo)
      decreases todo
    {
      DeepestExists(todo);
      var d :| d in todo && IsDeepest(d, todo);
      if d in fs.dirs {
        RemovableIffPrunable(fs, candidates, todo, d);
      }
      if CanRemove(r, d) {
        r := r.(dirs := r.dirs - {d});
      }
      todo := todo - {d};
      assert r == PrunedSoFar(fs, candidates, todo);
    }
  }
}
