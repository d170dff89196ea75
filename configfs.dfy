/**
 * An abstract model of the part of the file system the gadget manager edits:
 * the kernel configuration file system (configfs) seen through Python's os and
 * shutil calls.  A tree maps every path that exists, other than the root "/",
 * to what is there: a directory, a text file (a configfs attribute) or a
 * symbolic link.  Each system call used by USBGadget.py is given as a guard
 * ("the call succeeds") and the tree it leaves behind when it does.
 */
module Configfs {

  /** "/" or a named entry inside a directory. */
  datatype Path = Root | Child(parent: Path, name: string)

  datatype Node = Dir | File(text: string) | Link(target: Path)

  type Tree = map<Path, Node>

  /** Number of components of a path. */
  function Depth(p: Path): nat {
    if p.Root? then 0 else 1 + Depth(p.parent)
  }

  /** q is p or lies somewhere below p. */
  predicate Within(p: Path, q: Path)
    decreases q
  {
    q == p || (q.Child? && Within(p, q.parent))
  }

  /** Every entry sits in a directory that exists; "/" itself is implicit. */
  ghost predicate WellFormed(t: Tree) {
    Root !in t && forall p, x :: Child(p, x) in t ==> IsDir(t, p)
  }

  // ---- queries --------------------------------------------------------------

  /** os.path.isdir, without following a link. */
  predicate IsDir(t: Tree, p: Path) {
    p.Root? || (p in t && t[p].Dir?)
  }

  /** os.path.islink */
  predicate IsLink(t: Tree, p: Path) {
    p in t && t[p].Link?
  }

  predicate Present(t: Tree, p: Path) {
    p.Root? || p in t
  }

  /** os.path.exists: follows a final link one step, so a dangling link does not exist. */
  predicate Exists(t: Tree, p: Path) {
    Present(t, p) && (IsLink(t, p) ==> Present(t, t[p].target))
  }

  /** os.listdir(p) as a set of names. */
  function Children(t: Tree, p: Path): set<string> {
    set q | q in t && q.Child? && q.parent == p :: q.name
  }

  /** A name is listed in p exactly when p has a child of that name. */
  lemma ChildrenMember(t: Tree, p: Path, n: string)
    ensures n in Children(t, p) <==> Child(p, n) in t
  {
    if Child(p, n) in t {
      assert Child(p, n).name == n;
    }
  }

  /**
   * `names` is an order in which os.listdir(d) can return d's entries: each
   * entry once; empty when d is not a directory (the listing raises and
   * nothing is visited).
   */
  ghost predicate Lists(t: Tree, d: Path, names: seq<string>) {
    && (forall i, j :: 0 <= i < j < |names| ==> names[i] != names[j])
    && (forall n :: n in names <==> IsDir(t, d) && n in Children(t, d))
  }

  /** `names` lists, each once, the names of `all` that are no longer `pending`. */
  ghost predicate Visited(names: seq<string>, all: set<string>, pending: set<string>) {
    && (forall i, j :: 0 <= i < j < |names| ==> names[i] != names[j])
    && (forall n :: n in names <==> n in all && n !in pending)
  }

  lemma VisitedStart(all: set<string>)
    ensures Visited([], all, all)
  {
  }

  lemma VisitedStep(names: seq<string>, all: set<string>, pending: set<string>, name: string)
    requires Visited(names, all, pending) && name in pending && name in all
    ensures Visited(names + [name], all, pending - {name})
  {
    assert name !in names;
  }

  /** A loop over the whole listing of a directory visits it in a listing order. */
  lemma VisitedLists(t: Tree, d: Path, names: seq<string>)
    requires IsDir(t, d) && Visited(names, Children(t, d), {})
    ensures Lists(t, d, names)
  {
  }

  /** A directory that cannot be listed is visited in no order at all. */
  lemma ListsNone(t: Tree, d: Path)
    requires !IsDir(t, d)
    ensures Lists(t, d, [])
  {
  }

  /** Two trees that agree on d and on every child of d list d alike. */
  lemma ListsAgree(t0: Tree, t1: Tree, d: Path, names: seq<string>)
    requires Agree(t0, t1, d) && forall n :: Agree(t0, t1, Child(d, n))
    ensures Lists(t0, d, names) <==> Lists(t1, d, names)
  {
    forall n
      ensures n in Children(t0, d) <==> n in Children(t1, d)
    {
      ChildrenMember(t0, d, n);
      ChildrenMember(t1, d, n);
    }
  }

  /** The symbolic links directly inside p. */
  function LinkChildren(t: Tree, p: Path): set<Path> {
    set q | q in t && q.Child? && q.parent == p && t[q].Link?
  }

  // ---- os.makedirs(p, exist_ok=True) ----------------------------------------

  /** makedirs fails when some component of p exists and is not a directory. */
  predicate CanMakeDirs(t: Tree, p: Path)
    decreases p
  {
    p.Root? || ((p in t ==> t[p].Dir?) && CanMakeDirs(t, p.parent))
  }

  /** Every component of p becomes a directory. */
  function MakeDirs(t: Tree, p: Path): Tree
    decreases p
  {
    if p.Root? then t else MakeDirs(t, p.parent)[p := Dir]
  }

  // ---- open(p, "w").write(s) --------------------------------------------------

  /** The parent must be a directory and p must not be a directory or a link. */
  predicate CanWrite(t: Tree, p: Path) {
    p.Child? && IsDir(t, p.parent) && (p in t ==> t[p].File?)
  }

  function Write(t: Tree, p: Path, s: string): Tree {
    t[p := File(s)]
  }

  // ---- os.symlink(target, p) ------------------------------------------------

  /** Fails when anything, even a dangling link, is already at p. */
  predicate CanSymlink(t: Tree, p: Path) {
    p.Child? && p !in t && IsDir(t, p.parent)
  }

  function Symlink(t: Tree, target: Path, p: Path): Tree {
    t[p := Link(target)]
  }

  // ---- os.unlink(p) ---------------------------------------------------------

  predicate CanUnlink(t: Tree, p: Path) {
    p in t && !t[p].Dir?
  }

  function Unlink(t: Tree, p: Path): Tree {
    t - {p}
  }

  // ---- shutil.rmtree(p) and os.rmdir(p) -------------------------------------

  /** rmtree refuses a link (and fails on a file or a missing path). */
  predicate CanRmtree(t: Tree, p: Path) {
    p in t && t[p].Dir?
  }

  /** The tree without p and everything below it. */
  function Prune(t: Tree, p: Path): Tree {
    map q | q in t && !Within(p, q) :: t[q]
  }

  predicate CanRmdir(t: Tree, p: Path) {
    p in t && t[p].Dir? && Children(t, p) == {}
  }

  function Rmdir(t: Tree, p: Path): Tree {
    t - {p}
  }

  // ---- the "only adds" relation -----------------------------------------------

  /**
   * t1 keeps every entry of t0 and its kind; only the text of files may
   * differ.  makedirs, writes and symlinks move along this relation.
   */
  ghost predicate Extends(t0: Tree, t1: Tree) {
    forall q :: q in t0 ==> q in t1 && (t1[q] == t0[q] || (t0[q].File? && t1[q].File?))
  }

  lemma ExtendsTrans(t0: Tree, t1: Tree, t2: Tree)
    requires Extends(t0, t1) && Extends(t1, t2)
    ensures Extends(t0, t2)
  {
  }

  /** Merging in one more entry is updating with it. */
  lemma MergeUpdate(t: Tree, m: Tree, p: Path, n: Node)
    ensures t + m[p := n] == (t + m)[p := n]
  {
  }

  // ---- lemmas about paths -------------------------------------------------------

  lemma {:induction false} WithinDepth(p: Path, q: Path)
    requires Within(p, q)
    ensures Depth(p) <= Depth(q)
    ensures Depth(p) == Depth(q) ==> p == q
    decreases q
  {
    if q != p {
      WithinDepth(p, q.parent);
    }
  }

  // ---- lemmas about trees -------------------------------------------------------

  /** In a well-formed tree nothing lies below a path that is missing. */
  lemma NoDescendants(t: Tree, p: Path)
    requires WellFormed(t) && p.Child? && p !in t
    ensures forall q :: q in t ==> !Within(p, q)
  {
    forall q | q in t
      ensures !Within(p, q)
    {
      NotBelow(t, p, q);
    }
  }

  lemma {:induction false} NotBelow(t: Tree, p: Path, q: Path)
    requires WellFormed(t) && p.Child? && p !in t && Present(t, q)
    ensures !Within(p, q)
    decreases q
  {
    if q.Child? {
      assert IsDir(t, q.parent);
      NotBelow(t, p, q.parent);
    }
  }

  /** makedirs on an existing directory changes nothing. */
  lemma {:induction false} MakeDirsNoop(t: Tree, p: Path)
    requires WellFormed(t) && IsDir(t, p)
    ensures CanMakeDirs(t, p) && MakeDirs(t, p) == t
    decreases p
  {
    if p.Child? {
      MakeDirsNoop(t, p.parent);
    }
  }

  /** makedirs keeps every entry and adds p and its ancestors, as directories. */
  lemma {:induction false} MakeDirsDomain(t: Tree, p: Path, q: Path)
    ensures q in MakeDirs(t, p) <==> q in t || (q.Child? && Within(q, p))
    ensures q.Child? && Within(q, p) ==> MakeDirs(t, p)[q] == Dir
    ensures q in t && !Within(q, p) ==> MakeDirs(t, p)[q] == t[q]
    decreases p
  {
    if p.Child? {
      MakeDirsDomain(t, p.parent, q);
    }
  }

  /** makedirs of a missing entry in an existing directory adds just that directory. */
  lemma MakeDirsFresh(t: Tree, p: Path, x: string)
    requires WellFormed(t) && IsDir(t, p) && Child(p, x) !in t
    ensures CanMakeDirs(t, Child(p, x)) && MakeDirs(t, Child(p, x)) == t[Child(p, x) := Dir]
    ensures WellFormed(t[Child(p, x) := Dir])
  {
    MakeDirsNoop(t, p);
  }

  /** makedirs two levels below an existing directory, where the first level is missing. */
  lemma MakeDirsFresh2(t: Tree, p: Path, x: string, y: string)
    requires WellFormed(t) && IsDir(t, p) && Child(p, x) !in t
    ensures CanMakeDirs(t, Child(Child(p, x), y))
    ensures MakeDirs(t, Child(Child(p, x), y)) == t[Child(p, x) := Dir][Child(Child(p, x), y) := Dir]
    ensures WellFormed(t[Child(p, x) := Dir][Child(Child(p, x), y) := Dir])
  {
    MakeDirsFresh(t, p, x);
    NoDescendants(t, Child(p, x));
    assert Within(Child(p, x), Child(Child(p, x), y));
  }

  /** Growing parts of a tree never changes the kind of an existing entry. */
  lemma {:induction false} MakeDirsExtends(t: Tree, p: Path)
    requires CanMakeDirs(t, p)
    ensures Extends(t, MakeDirs(t, p))
    decreases p
  {
    if p.Child? {
      MakeDirsExtends(t, p.parent);
    }
  }

  /** Every component of p is a directory. */
  predicate AllDirs(t: Tree, p: Path)
    decreases p
  {
    p.Root? || (IsDir(t, p) && AllDirs(t, p.parent))
  }

  lemma {:induction false} WellFormedAllDirs(t: Tree, p: Path)
    requires WellFormed(t) && IsDir(t, p)
    ensures AllDirs(t, p)
    decreases p
  {
    if p.Child? && p.parent.Child? {
      WellFormedAllDirs(t, p.parent);
    }
  }

  lemma {:induction false} AllDirsNoop(t: Tree, p: Path)
    requires AllDirs(t, p)
    ensures CanMakeDirs(t, p) && MakeDirs(t, p) == t
    decreases p
  {
    if p.Child? {
      AllDirsNoop(t, p.parent);
    }
  }

  lemma {:induction false} MakeDirsAllDirs(t: Tree, p: Path)
    ensures AllDirs(MakeDirs(t, p), p)
    decreases p
  {
    if p.Child? {
      MakeDirsAllDirs(t, p.parent);
      AllDirsUpdate(MakeDirs(t, p.parent), p.parent, p, Dir);
    }
  }

  /** Changing an entry that is not a component of p, or making it a directory, keeps p's components directories. */
  lemma {:induction false} AllDirsUpdate(t: Tree, p: Path, q: Path, n: Node)
    requires AllDirs(t, p) && (Within(q, p) ==> n.Dir?)
    ensures AllDirs(t[q := n], p)
    decreases p
  {
    if p.Child? {
      AllDirsUpdate(t, p.parent, q, n);
    }
  }

  lemma {:induction false} AllDirsExtends(t0: Tree, t1: Tree, p: Path)
    requires AllDirs(t0, p) && Extends(t0, t1)
    ensures AllDirs(t1, p)
    decreases p
  {
    if p.Child? {
      AllDirsExtends(t0, t1, p.parent);
    }
  }

  /** A component that is not a directory stays one as the tree grows, so makedirs keeps failing. */
  lemma {:induction false} CannotMakeDirsExtends(t0: Tree, t1: Tree, p: Path)
    requires !CanMakeDirs(t0, p) && Extends(t0, t1)
    ensures !CanMakeDirs(t1, p)
    decreases p
  {
    if p in t0 && !t0[p].Dir? {
      assert p in t1 && !t1[p].Dir?;
    } else {
      CannotMakeDirsExtends(t0, t1, p.parent);
    }
  }

  // ---- entries that a call leaves alone ---------------------------------------------

  /** t0 and t1 have the same entry at q, or both have none. */
  predicate Agree(t0: Tree, t1: Tree, q: Path) {
    (q in t0 <==> q in t1) && (q in t0 ==> t0[q] == t1[q])
  }

  /** makedirs touches only the components of its path. */
  lemma MakeDirsAgree(t: Tree, p: Path, q: Path)
    requires !Within(q, p)
    ensures Agree(t, MakeDirs(t, p), q)
  {
    MakeDirsDomain(t, p, q);
  }

  /** Removing an entry never makes makedirs fail. */
  lemma {:induction false} CanMakeDirsRemove(t: Tree, p: Path, q: Path)
    requires CanMakeDirs(t, p)
    ensures CanMakeDirs(t - {q}, p)
    decreases p
  {
    if p.Child? {
      CanMakeDirsRemove(t, p.parent, q);
    }
  }

  lemma {:induction false} NotWithinDeeper(p: Path, q: Path)
    requires Depth(q) < Depth(p)
    ensures !Within(p, q)
    decreases q
  {
    if q.Child? {
      NotWithinDeeper(p, q.parent);
    }
  }

  lemma NotWithinSameDepth(p: Path, q: Path)
    requires Depth(p) == Depth(q) && p != q
    ensures !Within(p, q)
  {
    if q.Child? {
      NotWithinDeeper(p, q.parent);
    }
  }

  lemma NotBelowSelf(p: Path)
    ensures !Below(p, p)
  {
    if p.Child? {
      NotWithinDeeper(p, p.parent);
    }
  }

  // ---- regions of a tree ----------------------------------------------------------

  /** q lies strictly below p. */
  predicate Below(p: Path, q: Path) {
    q.Child? && Within(p, q.parent)
  }

  lemma {:induction false} WithinTrans(p: Path, q: Path, r: Path)
    requires Within(p, q) && Within(q, r)
    ensures Within(p, r)
    decreases r
  {
    if r != q {
      WithinTrans(p, q, r.parent);
    }
  }

  /**
   * t is t0 without the links directly inside d whose names are not in
   * `pending`, and agrees with t0 on everything it keeps.
   */
  ghost predicate LinksGone(t0: Tree, t: Tree, d: Path, pending: set<string>) {
    && (forall q :: q in t <==> q in t0 && !(q.Child? && q.parent == d && q.name !in pending && t0[q].Link?))
    && (forall q :: q in t ==> t[q] == t0[q])
  }

  /** Passing over an entry of d that is not a link keeps LinksGone. */
  lemma LinksGoneSkip(t0: Tree, t: Tree, d: Path, pending: set<string>, name: string)
    requires LinksGone(t0, t, d, pending) && name in pending && !IsLink(t, Child(d, name))
    ensures LinksGone(t0, t, d, pending - {name})
  {
    var p := Child(d, name);
    assert p in t0 && t0[p].Link? ==> p in t;
  }

  /** Unlinking a link of d keeps LinksGone. */
  lemma LinksGoneUnlink(t0: Tree, t: Tree, d: Path, pending: set<string>, name: string)
    requires LinksGone(t0, t, d, pending) && name in pending && IsLink(t, Child(d, name))
    ensures LinksGone(t0, t - {Child(d, name)}, d, pending - {name})
  {
  }

  /** t1 differs from t0 only strictly below p. */
  ghost predicate OnlyBelow(t0: Tree, t1: Tree, p: Path) {
    forall q :: !Below(p, q) ==> (q in t0 <==> q in t1) && (q in t0 ==> t0[q] == t1[q])
  }

  lemma OnlyBelowTrans(t0: Tree, t1: Tree, t2: Tree, p: Path)
    requires OnlyBelow(t0, t1, p) && OnlyBelow(t1, t2, p)
    ensures OnlyBelow(t0, t2, p)
  {
  }

  /** Removing p's subtree removes the same entries from trees that agree above p. */
  lemma PruneOnlyBelow(t0: Tree, t1: Tree, p: Path)
    requires OnlyBelow(t0, t1, p)
    ensures Prune(t0, p) == Prune(t1, p)
  {
    forall q | q in Prune(t0, p) || q in Prune(t1, p)
      ensures q in Prune(t0, p) && q in Prune(t1, p) && Prune(t0, p)[q] == Prune(t1, p)[q]
    {
      assert !Below(p, q);
    }
  }

  /** rmtree of an entry inside p changes only what lies below p. */
  lemma PruneChildOnlyBelow(t: Tree, p: Path, x: string)
    ensures OnlyBelow(t, Prune(t, Child(p, x)), p)
  {
    forall q | !Below(p, q)
      ensures q in t <==> q in Prune(t, Child(p, x))
    {
      if q in t && Within(Child(p, x), q) {
        WithinChildBelow(p, x, q);
      }
    }
  }

  lemma {:induction false} WithinChildBelow(p: Path, x: string, q: Path)
    requires Within(Child(p, x), q)
    ensures Below(p, q)
    decreases q
  {
    if q != Child(p, x) {
      WithinChildBelow(p, x, q.parent);
    }
  }

  /**
   * q is, or lies below, a directory of t directly inside f whose name is in
   * done: what rmtree of those directories removes.
   */
  predicate InDirChild(t: Tree, f: Path, done: set<string>, q: Path)
    decreases q
  {
    q.Child? && ((q.parent == f && q.name in done && q in t && t[q].Dir?) || InDirChild(t, f, done, q.parent))
  }

  lemma {:induction false} InDirChildBelow(t: Tree, f: Path, done: set<string>, q: Path)
    requires InDirChild(t, f, done, q)
    ensures Below(f, q)
    decreases q
  {
    if !(q.parent == f && q.name in done && q in t && t[q].Dir?) {
      InDirChildBelow(t, f, done, q.parent);
    }
  }

  lemma {:induction false} InDirChildNone(t: Tree, f: Path)
    ensures forall q :: !InDirChild(t, f, {}, q)
  {
    forall q | true
      ensures !InDirChild(t, f, {}, q)
    {
      InDirChildEmpty(t, f, q);
    }
  }

  lemma {:induction false} InDirChildEmpty(t: Tree, f: Path, q: Path)
    ensures !InDirChild(t, f, {}, q)
    decreases q
  {
    if q.Child? {
      InDirChildEmpty(t, f, q.parent);
    }
  }

  lemma InDirChildDepth(t: Tree, f: Path, done: set<string>, q: Path)
    ensures InDirChild(t, f, done, q) ==> Depth(f) < Depth(q)
  {
    if InDirChild(t, f, done, q) {
      InDirChildBelow(t, f, done, q);
      WithinDepth(f, q.parent);
    }
  }

  /** Adding one name adds exactly the subtree of that directory, if it is one. */
  lemma {:induction false} InDirChildAdd(t: Tree, f: Path, done: set<string>, x: string, q: Path)
    ensures InDirChild(t, f, done + {x}, q) <==>
      InDirChild(t, f, done, q) || (Child(f, x) in t && t[Child(f, x)].Dir? && Within(Child(f, x), q))
    decreases q
  {
    if q.Child? {
      InDirChildAdd(t, f, done, x, q.parent);
    }
  }

  /** With every name of f, the predicate says: below some directory directly inside f. */
  lemma {:induction false} InDirChildAll(t: Tree, f: Path, q: Path)
    ensures InDirChild(t, f, Children(t, f), q) <==>
      exists d :: d in t && d.Child? && d.parent == f && t[d].Dir? && Within(d, q)
    decreases q
  {
    if q.Child? {
      InDirChildAll(t, f, q.parent);
      if q.parent == f && q in t && t[q].Dir? {
        assert q.name in Children(t, f);
      }
      if exists d :: d in t && d.Child? && d.parent == f && t[d].Dir? && Within(d, q) {
        var d :| d in t && d.Child? && d.parent == f && t[d].Dir? && Within(d, q);
        if d != q {
          assert Within(d, q.parent);
        } else {
          assert q.name in Children(t, f);
        }
      }
    }
  }

  // ---- each call keeps a tree well formed --------------------------------------

  lemma {:induction false} MakeDirsWellFormed(t: Tree, p: Path)
    requires WellFormed(t)
    ensures WellFormed(MakeDirs(t, p)) && IsDir(MakeDirs(t, p), p)
    decreases p
  {
    if p.Child? {
      MakeDirsWellFormed(t, p.parent);
    }
  }

  /** Merging in fresh entries whose parents are directories keeps a tree well formed. */
  lemma MergeWellFormed(t: Tree, m: Tree)
    requires WellFormed(t) && Root !in m && forall q :: q in m ==> q !in t
    requires forall p, x :: Child(p, x) in m ==> IsDir(t + m, p)
    ensures WellFormed(t + m)
  {
    forall p, x | Child(p, x) in t + m
      ensures IsDir(t + m, p)
    {
      if Child(p, x) !in m {
        assert IsDir(t, p);
      }
    }
  }

  lemma WriteWellFormed(t: Tree, p: Path, s: string)
    requires WellFormed(t) && CanWrite(t, p)
    ensures WellFormed(Write(t, p, s)) && Extends(t, Write(t, p, s))
    ensures Write(t, p, s)[p] == File(s) && forall q :: q != p ==> Agree(t, Write(t, p, s), q)
  {
  }

  lemma SymlinkWellFormed(t: Tree, target: Path, p: Path)
    requires WellFormed(t) && CanSymlink(t, p)
    ensures WellFormed(Symlink(t, target, p)) && Extends(t, Symlink(t, target, p))
    ensures p !in t && Symlink(t, target, p)[p] == Link(target) && forall q :: q != p ==> Agree(t, Symlink(t, target, p), q)
  {
  }

  lemma UnlinkWellFormed(t: Tree, p: Path)
    requires WellFormed(t) && CanUnlink(t, p)
    ensures WellFormed(Unlink(t, p))
  {
  }

  lemma WithinChild(p: Path, q: Path, x: string)
    requires Within(p, q)
    ensures Within(p, Child(q, x))
  {
  }

  lemma PruneWellFormed(t: Tree, p: Path)
    requires WellFormed(t)
    ensures WellFormed(Prune(t, p))
  {
    var r := Prune(t, p);
    forall q | q in r
      ensures q.Child? && IsDir(r, q.parent)
    {
      if q.parent.Child? {
        assert !Within(p, q.parent);
      }
    }
  }

  lemma RmdirWellFormed(t: Tree, p: Path)
    requires WellFormed(t) && CanRmdir(t, p)
    ensures WellFormed(Rmdir(t, p))
  {
    var r := Rmdir(t, p);
    forall q | q in r
      ensures q.Child? && IsDir(r, q.parent)
    {
      assert q.name in Children(t, q.parent);
    }
  }
  // ---- changes confined to a subtree ---------------------------------------------------

  /** t agrees with t0 everywhere outside r. */
  ghost predicate SameOutside(t0: Tree, t: Tree, r: Path) {
    forall q :: !Within(r, q) ==> Agree(t0, t, q)
  }

  /** Two ancestors of one path are ancestors one of the other. */
  lemma {:induction false} AncestorsNested(a: Path, b: Path, p: Path)
    requires Within(a, p) && Within(b, p)
    ensures Within(a, b) || Within(b, a)
    decreases p
  {
    if p != a && p != b {
      AncestorsNested(a, b, p.parent);
    }
  }

  /** Each ancestor of a path whose components are all directories is a directory. */
  lemma {:induction false} AllDirsWithin(t: Tree, p: Path, q: Path)
    requires AllDirs(t, p) && Within(q, p)
    ensures IsDir(t, q)
    decreases p
  {
    if p != q {
      AllDirsWithin(t, p.parent, q);
    }
  }

  /** Setting an entry inside r keeps a tree the same outside r. */
  lemma SameOutsideUpdate(t0: Tree, t: Tree, r: Path, p: Path, n: Node)
    requires SameOutside(t0, t, r) && Within(r, p)
    ensures SameOutside(t0, t[p := n], r)
  {
  }

  /**
   * makedirs of a path inside r keeps a tree the same outside r, when the
   * parent of r is a directory: the components it makes outside r are
   * directories already.
   */
  lemma SameOutsideMakeDirs(t0: Tree, t: Tree, r: Path, p: Path)
    requires WellFormed(t0) && r.Child? && IsDir(t0, r.parent)
    requires SameOutside(t0, t, r) && Within(r, p)
    ensures SameOutside(t0, MakeDirs(t, p), r)
  {
    WellFormedAllDirs(t0, r.parent);
    forall q | !Within(r, q)
      ensures Agree(t0, MakeDirs(t, p), q)
    {
      MakeDirsDomain(t, p, q);
      if q.Child? && Within(q, p) {
        AncestorsNested(q, r, p);
        AllDirsWithin(t0, r.parent, q);
      }
    }
  }

  /** Pruning r from a tree that is the same as t0 outside r, where t0 has nothing inside r, gives back t0. */
  lemma PruneSameOutside(t0: Tree, t: Tree, r: Path)
    requires SameOutside(t0, t, r) && forall q :: q in t0 ==> !Within(r, q)
    ensures Prune(t, r) == t0
  {
    forall q | q in t0
      ensures q in Prune(t, r) && Prune(t, r)[q] == t0[q]
    {
      assert Agree(t0, t, q);
    }
    forall q | q in Prune(t, r)
      ensures q in t0
    {
      assert Agree(t0, t, q);
    }
  }
}
