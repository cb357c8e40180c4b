/**
 What the books of AddressSpace mean: posting a list of areas adds up sums and counts over the list,
 and giving the areas back one by one, from the head of the list, undoes it exactly.
 */
module Accounts {
  import opened AddressSpace

  // ---------- an independent reading of the books ----------

  /** Pages of the areas that are charged against the commit limit. */
  function ChargedPages(s: seq<VmaFields>): nat {
    if s == [] then 0
    else (if Account in s[0].flags then s[0].pages else 0) + ChargedPages(s[1..])
  }

  function CountIf(s: seq<VmaFields>, p: VmaFields -> bool): nat {
    if s == [] then 0 else (if p(s[0]) then 1 else 0) + CountIf(s[1..], p)
  }

  predicate MapsFile(d: VmaFields, f: nat) {
    d.file.Some? && d.file.value.id == f
  }

  predicate DeniesWrite(d: VmaFields, inode: nat) {
    d.file.Some? && d.file.value.inode == inode && DenyWrite in d.flags
  }

  predicate SharesWritably(d: VmaFields, mapping: nat) {
    d.file.Some? && d.file.value.mapping == mapping && Shared in d.flags
  }

  lemma {:induction false} ChargedPagesSnoc(s: seq<VmaFields>, d: VmaFields)
    ensures ChargedPages(s + [d]) == ChargedPages(s) + if Account in d.flags then d.pages else 0
  {
    if s == [] {
      assert s + [d] == [d];
    } else {
      assert (s + [d])[1..] == s[1..] + [d];
      ChargedPagesSnoc(s[1..], d);
    }
  }

  lemma {:induction false} CountIfSnoc(s: seq<VmaFields>, d: VmaFields, p: VmaFields -> bool)
    ensures CountIf(s + [d], p) == CountIf(s, p) + if p(d) then 1 else 0
  {
    if s == [] {
      assert s + [d] == [d];
    } else {
      assert (s + [d])[1..] == s[1..] + [d];
      CountIfSnoc(s[1..], d, p);
    }
  }

  lemma {:induction false} PostAllCharges(b: Books, s: seq<VmaFields>)
    requires AllKnown(b.files, s)
    ensures PostAll(b, s).committed == b.committed + ChargedPages(s)
    ensures PostAll(b, s).policies == b.policies + |s|
    ensures PostAll(b, s).anonVmas == b.anonVmas + |s|
    ensures PostAll(b, s).vmas == b.vmas + |s|
    ensures PostAll(b, s).opens == b.opens + CountIf(s, (d: VmaFields) => d.hasOpen)
  {
    if s != [] {
      var front, d := s[..|s| - 1], s[|s| - 1];
      assert s == front + [d];
      PostAllCharges(b, front);
      ChargedPagesSnoc(front, d);
      CountIfSnoc(front, d, (d: VmaFields) => d.hasOpen);
      PostAllStep(b, front, d);
    }
  }

  lemma {:induction false} PostAllFileRefs(b: Books, s: seq<VmaFields>, f: nat)
    requires AllKnown(b.files, s) && f in b.files.refs
    ensures PostAll(b, s).files.refs[f] == b.files.refs[f] + CountIf(s, d => MapsFile(d, f))
  {
    if s != [] {
      var front, d := s[..|s| - 1], s[|s| - 1];
      assert s == front + [d];
      PostAllFileRefs(b, front, f);
      CountIfSnoc(front, d, d => MapsFile(d, f));
      PostAllStep(b, front, d);
    }
  }

  lemma {:induction false} PostAllDenyWrite(b: Books, s: seq<VmaFields>, inode: nat)
    requires AllKnown(b.files, s) && inode in b.files.writers
    ensures PostAll(b, s).files.writers[inode] == b.files.writers[inode] - CountIf(s, d => DeniesWrite(d, inode))
  {
    if s != [] {
      var front, d := s[..|s| - 1], s[|s| - 1];
      assert s == front + [d];
      PostAllDenyWrite(b, front, inode);
      CountIfSnoc(front, d, d => DeniesWrite(d, inode));
      PostAllStep(b, front, d);
    }
  }

  lemma {:induction false} PostAllWritable(b: Books, s: seq<VmaFields>, mapping: nat)
    requires AllKnown(b.files, s) && mapping in b.files.writable
    ensures PostAll(b, s).files.writable[mapping] ==
            b.files.writable[mapping] + CountIf(s, d => SharesWritably(d, mapping))
  {
    if s != [] {
      var front, d := s[..|s| - 1], s[|s| - 1];
      assert s == front + [d];
      PostAllWritable(b, front, mapping);
      CountIfSnoc(front, d, d => SharesWritably(d, mapping));
      PostAllStep(b, front, d);
    }
  }

  /** Every file-backed area is in the tree of its mapping. */
  predicate MapsInto(d: VmaFields, mapping: nat) {
    d.file.Some? && d.file.value.mapping == mapping
  }

  lemma {:induction false} PostAllMapped(b: Books, s: seq<VmaFields>, mapping: nat)
    requires AllKnown(b.files, s) && mapping in b.files.mapped
    ensures PostAll(b, s).files.mapped[mapping] == b.files.mapped[mapping] + CountIf(s, d => MapsInto(d, mapping))
  {
    if s != [] {
      var front, d := s[..|s| - 1], s[|s| - 1];
      assert s == front + [d];
      PostAllMapped(b, front, mapping);
      CountIfSnoc(front, d, d => MapsInto(d, mapping));
      PostAllStep(b, front, d);
    }
  }

  /** When the parent's four totals cover exactly its own areas, so do the child's. */
  lemma {:induction false} TotalFollowsTheCopy(s: seq<VmaFields>)
    ensures Pages(s).Minus(SkippedPages(s)) == Pages(Inherited(s))
  {
    if s != [] {
      var front, d := s[..|s| - 1], s[|s| - 1];
      TotalFollowsTheCopy(front);
      if DontCopy !in d.flags {
        var got := Inherited(front);
        assert (got + [ChildFields(d)])[..|got|] == got;
      }
    }
  }

  /** Pages of the areas that satisfy p. */
  function PagesIf(s: seq<VmaFields>, p: VmaFields -> bool): nat {
    if s == [] then 0 else (if p(s[0]) then s[0].pages else 0) + PagesIf(s[1..], p)
  }

  lemma {:induction false} PagesIfSnoc(s: seq<VmaFields>, d: VmaFields, p: VmaFields -> bool)
    ensures PagesIf(s + [d], p) == PagesIf(s, p) + if p(d) then d.pages else 0
  {
    if s == [] {
      assert s + [d] == [d];
    } else {
      assert (s + [d])[1..] == s[1..] + [d];
      PagesIfSnoc(s[1..], d, p);
    }
  }

  /** The four totals: all pages, and those of each class that has a counter of its own. */
  lemma {:induction false} PagesByClass(s: seq<VmaFields>)
    ensures Pages(s).total == PagesIf(s, (d: VmaFields) => true)
    ensures Pages(s).data == PagesIf(s, (d: VmaFields) => d.stat == DataPages)
    ensures Pages(s).exec == PagesIf(s, (d: VmaFields) => d.stat == ExecPages)
    ensures Pages(s).stack == PagesIf(s, (d: VmaFields) => d.stat == StackPages)
  {
    if s != [] {
      var front, d := s[..|s| - 1], s[|s| - 1];
      assert s == front + [d];
      PagesByClass(front);
      PagesIfSnoc(front, d, (d: VmaFields) => true);
      PagesIfSnoc(front, d, (d: VmaFields) => d.stat == DataPages);
      PagesIfSnoc(front, d, (d: VmaFields) => d.stat == ExecPages);
      PagesIfSnoc(front, d, (d: VmaFields) => d.stat == StackPages);
    }
  }

  // ---------- giving the areas back ----------

  /** The books after the areas of s have been given back, the first one first. */
  function Unpost(b: Books, s: seq<VmaFields>): (r: Books)
    requires AllKnown(b.files, s)
    ensures SameFiles(b.files, r.files)
    decreases |s|
  {
    if s == [] then b
    else
      assert Known(b.files, s[0]) && forall d :: d in s[1..] ==> d in s;
      Unpost(Post(b, s[0], -1), s[1..])
  }

  lemma BumpsCommute(m: map<nat, int>, k: nat, x: int, j: nat, y: int)
    requires k in m && j in m
    ensures Bump(Bump(m, k, x), j, y) == Bump(Bump(m, j, y), k, x)
  {
    forall i | i in m ensures Bump(Bump(m, k, x), j, y)[i] == Bump(Bump(m, j, y), k, x)[i] {}
  }

  lemma BumpsCancel(m: map<nat, int>, k: nat, x: int)
    requires k in m
    ensures Bump(Bump(m, k, x), k, -x) == m
  {
  }

  lemma TakeFileCommutes(b: FileBooks, d: VmaFields, e: VmaFields)
    requires Known(b, d) && Known(b, e)
    ensures TakeFile(TakeFile(b, d, 1), e, -1) == TakeFile(TakeFile(b, e, -1), d, 1)
  {
    if d.file.Some? && e.file.Some? {
      var f, g := d.file.value, e.file.value;
      BumpsCommute(b.refs, f.id, 1, g.id, -1);
      BumpsCommute(b.writers, f.inode, -1, g.inode, 1);
      BumpsCommute(b.writable, f.mapping, 1, g.mapping, -1);
      BumpsCommute(b.mapped, f.mapping, 1, g.mapping, -1);
    }
  }

  lemma PostCommutes(b: Books, d: VmaFields, e: VmaFields)
    requires Known(b.files, d) && Known(b.files, e)
    ensures Post(Post(b, d, 1), e, -1) == Post(Post(b, e, -1), d, 1)
  {
    TakeFileCommutes(b.files, d, e);
  }

  lemma PostCancels(b: Books, d: VmaFields)
    requires Known(b.files, d)
    ensures Post(Post(b, d, 1), d, -1) == b
  {
    if d.file.Some? {
      var f := d.file.value;
      BumpsCancel(b.files.refs, f.id, 1);
      BumpsCancel(b.files.writers, f.inode, -1);
      BumpsCancel(b.files.writable, f.mapping, 1);
      BumpsCancel(b.files.mapped, f.mapping, 1);
    }
  }

  lemma {:induction false} HeadCancels(b: Books, s: seq<VmaFields>)
    requires s != [] && AllKnown(b.files, s) && AllKnown(b.files, s[1..])
    ensures Known(PostAll(b, s).files, s[0])
    ensures Post(PostAll(b, s), s[0], -1) == PostAll(b, s[1..])
  {
    var front, d := s[..|s| - 1], s[|s| - 1];
    assert Known(b.files, s[0]) && Known(b.files, d);
    if front == [] {
      PostCancels(b, d);
    } else {
      assert front[0] == s[0];
      HeadCancels(b, front);
      PostCommutes(PostAll(b, front), d, s[0]);
      assert s[1..][..|s| - 2] == front[1..];
    }
  }

  /** Teardown undoes the copy: the areas are given back in list order, whatever order they came in. */
  lemma {:induction false} UnpostPostAll(b: Books, s: seq<VmaFields>)
    requires AllKnown(b.files, s)
    ensures Unpost(PostAll(b, s), s) == b
  {
    if s != [] {
      HeadCancels(b, s);
      UnpostPostAll(b, s[1..]);
    }
  }
}
