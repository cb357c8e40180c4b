/**
 Copying an address space: the list and tree of memory areas, and the books that the rest of the
 kernel keeps about them (commit charge, file references, write and writable-mapping counts, policies).
 */
module AddressSpace {
  import opened VmaTree
  import opened Wrappers

  const EINTR := 4
  const ENOMEM := 12

  datatype VmaFlag =
    | DontCopy | Account | DenyWrite | Shared
    | Locked | LockOnFault | UffdMissing | UffdWp
    | OtherFlag(bit: nat)

  /** An open file with the inode and the mapping that it leads to. */
  datatype File = File(id: nat, inode: nat, mapping: nat)

  /** What a memory area says, apart from the links that place it. */
  datatype VmaFields = VmaFields(
    start: nat, pages: nat, flags: set<VmaFlag>, stat: PageKind, file: Option<File>, uffdContext: nat, hasOpen: bool)

  /** Which of its counters vm_stat_account moves beside the total; the flags decide it. */
  datatype PageKind = DataPages | ExecPages | StackPages | OtherPages

  /** total_vm, data_vm, exec_vm and stack_vm. */
  datatype Stats = Stats(total: int, data: int, exec: int, stack: int) {
    function Plus(o: Stats): Stats {
      Stats(total + o.total, data + o.data, exec + o.exec, stack + o.stack)
    }

    function Minus(o: Stats): Stats {
      Stats(total - o.total, data - o.data, exec - o.exec, stack - o.stack)
    }
  }

  const NO_PAGES := Stats(0, 0, 0, 0)

  function PagesOf(d: VmaFields): Stats {
    Stats(d.pages, if d.stat.DataPages? then d.pages else 0, if d.stat.ExecPages? then d.pages else 0,
          if d.stat.StackPages? then d.pages else 0)
  }

  // ---------- the books ----------

  datatype FileBooks = FileBooks(
    refs: map<nat, int>,          // references per file
    writers: map<nat, int>,       // i_writecount per inode; a deny-write mapping takes one away
    writable: map<nat, int>,      // i_mmap_writable per mapping
    mapped: map<nat, int>)        // areas in the tree that i_mmap holds, per mapping

  datatype Books = Books(
    committed: int,               // pages charged against the commit limit
    files: FileBooks,
    policies: int,                // memory-policy references
    anonVmas: int,                // areas attached to the anonymous-memory hierarchy
    opens: int,                   // calls of vm_ops->open not yet closed
    vmas: int,                    // areas allocated from the slab
    mms: int,                     // address-space structures allocated from the slab
    pgds: int,                    // page directories
    contexts: int,                // architecture contexts
    userNs: int)                  // references to user namespaces

  function Bump(m: map<nat, int>, k: nat, delta: int): map<nat, int>
    requires k in m
  {
    m[k := m[k] + delta]
  }

  /** The file, its inode and its mapping exist, so that their counts can be moved. */
  predicate Known(b: FileBooks, d: VmaFields) {
    d.file.Some? ==>
      && d.file.value.id in b.refs
      && d.file.value.inode in b.writers
      && d.file.value.mapping in b.writable
      && d.file.value.mapping in b.mapped
  }

  /** The same files, inodes and mappings exist. */
  predicate SameFiles(b: FileBooks, r: FileBooks) {
    && b.refs.Keys == r.refs.Keys && b.writers.Keys == r.writers.Keys
    && b.writable.Keys == r.writable.Keys && b.mapped.Keys == r.mapped.Keys
  }

  predicate AllKnown(b: FileBooks, s: seq<VmaFields>) {
    forall d :: d in s ==> Known(b, d)
  }

  /** get_file, the two counts that a file-backed area moves, and its place in the mapping's tree. */
  function TakeFile(b: FileBooks, d: VmaFields, sign: int): (r: FileBooks)
    requires Known(b, d)
    ensures SameFiles(b, r)
  {
    match d.file
    case None => b
    case Some(f) =>
      FileBooks(
        Bump(b.refs, f.id, sign),
        if DenyWrite in d.flags then Bump(b.writers, f.inode, -sign) else b.writers,
        if Shared in d.flags then Bump(b.writable, f.mapping, sign) else b.writable,
        Bump(b.mapped, f.mapping, sign))
  }

  function Charge(d: VmaFields): nat {
    if Account in d.flags then d.pages else 0
  }

  /** All that an area holds before it is opened, taken (sign 1) or given back (sign -1). */
  function Hold(b: Books, d: VmaFields, sign: int): (r: Books)
    requires Known(b.files, d)
    ensures SameFiles(b.files, r.files)
  {
    b.(
      files := TakeFile(b.files, d, sign),
      committed := b.committed + sign * Charge(d),
      policies := b.policies + sign,
      anonVmas := b.anonVmas + sign,
      vmas := b.vmas + sign)
  }

  function Open(b: Books, d: VmaFields, sign: int): Books {
    if d.hasOpen then b.(opens := b.opens + sign) else b
  }

  /** The books once one more area (sign 1) or one area fewer (sign -1) is linked. */
  function Post(b: Books, d: VmaFields, sign: int): (r: Books)
    requires Known(b.files, d)
    ensures SameFiles(b.files, r.files)
  {
    Open(Hold(b, d, sign), d, sign)
  }

  /** The books once all of s are linked. */
  function PostAll(b: Books, s: seq<VmaFields>): (r: Books)
    requires AllKnown(b.files, s)
    ensures SameFiles(b.files, r.files)
  {
    if s == [] then b
    else
      var front := PostAll(b, s[..|s| - 1]);
      assert Known(b.files, s[|s| - 1]);
      Post(front, s[|s| - 1], 1)
  }

  // ---------- what the copy should be ----------

  /** An area's fields in the child: the lock and userfaultfd state is dropped. */
  function ChildFields(d: VmaFields): VmaFields {
    d.(flags := d.flags - {Locked, LockOnFault, UffdMissing, UffdWp}, uffdContext := 0)
  }

  /** The child's areas: the parent's in order, without those marked not to be copied. */
  function Inherited(s: seq<VmaFields>): seq<VmaFields> {
    if s == [] then []
    else
      var front := Inherited(s[..|s| - 1]);
      if DontCopy in s[|s| - 1].flags then front else front + [ChildFields(s[|s| - 1])]
  }

  /** Whatever the functions above compute: c is what a child gets of d, flag by flag. */
  ghost predicate CopiedArea(c: VmaFields, d: VmaFields) {
    && c.start == d.start && c.pages == d.pages && c.stat == d.stat && c.file == d.file && c.hasOpen == d.hasOpen
    && c.uffdContext == 0
    && Locked !in c.flags && LockOnFault !in c.flags && UffdMissing !in c.flags && UffdWp !in c.flags
    && forall f :: f != Locked && f != LockOnFault && f != UffdMissing && f != UffdWp ==>
         (f in c.flags <==> f in d.flags)
  }

  /** child has, in order, a copy of exactly those areas of parent, at the places from, that are to be copied. */
  ghost predicate CopiedFrom(child: seq<VmaFields>, parent: seq<VmaFields>, from: seq<nat>) {
    && |from| == |child|
    && (forall j :: 0 <= j < |from| ==> from[j] < |parent| && CopiedArea(child[j], parent[from[j]]))
    && (forall j, k :: 0 <= j < k < |from| ==> from[j] < from[k])
    && (forall i :: 0 <= i < |parent| ==> (i in from <==> DontCopy !in parent[i].flags))
  }

  /** The same, for one area more. */
  lemma CopiedOneMore(child: seq<VmaFields>, parent: seq<VmaFields>, from: seq<nat>, d: VmaFields)
    requires CopiedFrom(child, parent, from)
    ensures if DontCopy in d.flags then CopiedFrom(child, parent + [d], from)
            else CopiedFrom(child + [ChildFields(d)], parent + [d], from + [|parent|])
  {
    assert CopiedArea(ChildFields(d), d);
    forall i | 0 <= i < |parent|
      ensures i in from + [|parent|] <==> i in from
    {
    }
  }

  /** The places of the areas that the child inherits. */
  lemma {:induction false} InheritedIsCopied(s: seq<VmaFields>) returns (from: seq<nat>)
    ensures CopiedFrom(Inherited(s), s, from)
  {
    if s == [] {
      from := [];
    } else {
      var n := |s| - 1;
      from := InheritedIsCopied(s[..n]);
      CopiedOneMore(Inherited(s[..n]), s[..n], from, s[n]);
      assert s == s[..n] + [s[n]];
      if DontCopy !in s[n].flags {
        from := from + [n];
      }
    }
  }

  function Pages(s: seq<VmaFields>): Stats {
    if s == [] then NO_PAGES else Pages(s[..|s| - 1]).Plus(PagesOf(s[|s| - 1]))
  }

  /** Pages of the areas that the child does not get. */
  function SkippedPages(s: seq<VmaFields>): Stats {
    if s == [] then NO_PAGES
    else if DontCopy in s[|s| - 1].flags then SkippedPages(s[..|s| - 1]).Plus(PagesOf(s[|s| - 1]))
    else SkippedPages(s[..|s| - 1])
  }

  // ---------- the heap ----------

  class Vma {
    var fields: VmaFields
    var mm: Mm?
    var next: Vma?
    var prev: Vma?
  }

  /** mm_struct: its map of areas, and the two counts that decide when it is torn down and freed. */
  class Mm {
    var mmap: Vma?
    var tree: Tree<Vma>
    var mapCount: nat
    var vm: Stats
    var exeFile: Option<File>
    var semHeld: bool
    var users: nat         // mm_users
    var count: nat         // mm_count: the users together hold one of these
    var binfmt: bool       // whether a binary-format module is referenced
    ghost var tornDown: bool
    ghost var freed: bool

    /** Memory straight from the slab: nothing is known about its contents. */
    constructor () {
    }
  }

  /** The kernel services around the copy. */
  class Host {
    var books: Books
    var uprobeSections: int
    var modules: int       // references to binary-format modules
  }

  /** nodes, in this order, are the doubly linked list that starts at head, and view is what they say. */
  ghost predicate Linked(head: Vma?, nodes: seq<Vma>, view: seq<VmaFields>)
    reads nodes`next, nodes`prev, nodes`fields
  {
    && head == (if nodes == [] then null else nodes[0])
    && (forall i {:trigger nodes[i].next} :: 0 <= i < |nodes| ==>
          nodes[i].next == (if i + 1 < |nodes| then nodes[i + 1] else null))
    && (forall i {:trigger nodes[i].prev} :: 0 <= i < |nodes| ==>
          nodes[i].prev == (if i > 0 then nodes[i - 1] else null))
    && |view| == |nodes|
    && (forall i {:trigger nodes[i].fields} :: 0 <= i < |nodes| ==> nodes[i].fields == view[i])
  }

  ghost function FieldsOf(nodes: seq<Vma>): (view: seq<VmaFields>)
    reads nodes
    ensures |view| == |nodes| && forall i :: 0 <= i < |view| ==> view[i] == nodes[i].fields
  {
    seq(|nodes|, i requires 0 <= i < |nodes| reads nodes => nodes[i].fields)
  }

  /** A well-formed address space: list, tree and count agree, and every area points back. */
  ghost predicate Maps(mm: Mm, nodes: seq<Vma>, view: seq<VmaFields>)
    reads mm`mmap, mm`tree, mm`mapCount, nodes
  {
    && Linked(mm.mmap, nodes, view)
    && InOrder(mm.tree) == nodes
    && mm.mapCount == |nodes|
    && forall i {:trigger nodes[i].mm} :: 0 <= i < |nodes| ==> nodes[i].mm == mm
  }

  /** The links alone keep the areas of a list apart. */
  lemma {:induction false} LinkedAreDistinct(head: Vma?, nodes: seq<Vma>, view: seq<VmaFields>, i: nat, j: nat)
    requires Linked(head, nodes, view) && i < j < |nodes|
    ensures nodes[i] != nodes[j]
  {
    assert nodes[i].prev == (if i > 0 then nodes[i - 1] else null);
    assert nodes[j].prev == nodes[j - 1];
    if i > 0 {
      LinkedAreDistinct(head, nodes, view, i - 1, j - 1);
    }
  }

  /** The pointer-to-pointer through which the next area is linked in. */
  datatype LinkSlot = HeadLink | NextLink(vma: Vma)

  function LastLink(nodes: seq<Vma>): LinkSlot {
    if nodes == [] then HeadLink else NextLink(nodes[|nodes| - 1])
  }

  // ---------- services that may fail ----------

  method EnoughMemory(host: Host, len: nat) returns (err: int)
    modifies host`books
    ensures err == 0 ==> host.books == old(host.books).(committed := old(host.books).committed + len)
    ensures err != 0 ==> host.books == old(host.books)
  {
    if * {
      host.books := host.books.(committed := host.books.committed + len);
      err := 0;
    } else {
      err := -ENOMEM;
    }
  }

  method DupPolicy(host: Host) returns (err: int)
    modifies host`books
    ensures err == 0 ==> host.books == old(host.books).(policies := old(host.books).policies + 1)
    ensures err != 0 ==> host.books == old(host.books)
  {
    if * {
      host.books := host.books.(policies := host.books.policies + 1);
      err := 0;
    } else {
      err := -ENOMEM;
    }
  }

  method AnonVmaFork(host: Host) returns (err: int)
    modifies host`books
    ensures err == 0 ==> host.books == old(host.books).(anonVmas := old(host.books).anonVmas + 1)
    ensures err != 0 ==> host.books == old(host.books)
  {
    if * {
      host.books := host.books.(anonVmas := host.books.anonVmas + 1);
      err := 0;
    } else {
      err := -ENOMEM;
    }
  }

  method AllocVma(host: Host) returns (tmp: Vma?)
    modifies host`books
    ensures tmp == null ==> host.books == old(host.books)
    ensures tmp != null ==> fresh(tmp)
    ensures tmp != null ==> host.books == old(host.books).(vmas := old(host.books).vmas + 1)
  {
    if * {
      tmp := new Vma;
      host.books := host.books.(vmas := host.books.vmas + 1);
    } else {
      tmp := null;
    }
  }

  /** A hook that either succeeds with 0 or fails with some error, and changes nothing modelled here. */
  method MayFail() returns (err: int)
    ensures err <= 0
  {
    if * { err := 0; } else { err := -ENOMEM; }
  }

  /** vma_rb_insert's recolouring and rotations: any shape, the same order. */
  method Rebalance(t: Tree<Vma>) returns (r: Tree<Vma>)
    ensures InOrder(r) == InOrder(t)
  {
    r := t;
  }

  // ---------- the copy ----------

  /** The reference and the two counts that a file-backed copy takes. */
  method AttachFile(host: Host, d: VmaFields)
    requires Known(host.books.files, d)
    modifies host`books
    ensures host.books == old(host.books).(files := TakeFile(old(host.books).files, d, 1))
  {
    if d.file.Some? {
      var f := d.file.value;
      var files := host.books.files;
      files := files.(refs := Bump(files.refs, f.id, 1));
      if DenyWrite in d.flags {
        files := files.(writers := Bump(files.writers, f.inode, -1));
      }
      if Shared in d.flags {
        files := files.(writable := Bump(files.writable, f.mapping, 1));
      }
      files := files.(mapped := Bump(files.mapped, f.mapping, 1));
      host.books := host.books.(files := files);
    }
  }

  /**
   One area copied up to the point where it can be linked.  A failure at any of the four steps undoes
   the steps before it, newest first.
   */
  method DupVma(mm: Mm, host: Host, mpnt: Vma) returns (tmp: Vma?)
    requires Known(host.books.files, mpnt.fields)
    modifies host`books
    ensures tmp == null ==> host.books == old(host.books)
    ensures tmp != null ==>
      && fresh(tmp)
      && tmp.fields == mpnt.fields.(flags := mpnt.fields.flags - {Locked, LockOnFault, UffdMissing, UffdWp},
                                    uffdContext := 0)
      && tmp.mm == mm && tmp.next == null && tmp.prev == null
      && host.books == Hold(old(host.books), tmp.fields, 1)
  {
    tmp := null;
    var charge := 0;
    label failNoMem: {
      label failNoMemPolicy: {
        label failNoMemAnonVmaFork: {
          if Account in mpnt.fields.flags {
            var len := mpnt.fields.pages;
            var err := EnoughMemory(host, len);
            if err != 0 { break failNoMem; }
            charge := len;
          }
          tmp := AllocVma(host);
          if tmp == null { break failNoMem; }
          tmp.fields := mpnt.fields;
          var retval := DupPolicy(host);
          if retval != 0 { break failNoMemPolicy; }
          tmp.mm := mm;
          var failed := AnonVmaFork(host);
          if failed != 0 { break failNoMemAnonVmaFork; }
          tmp.fields := tmp.fields.(flags := tmp.fields.flags - {Locked, LockOnFault, UffdMissing, UffdWp});
          tmp.next, tmp.prev := null, null;
          tmp.fields := tmp.fields.(uffdContext := 0);
          AttachFile(host, tmp.fields);
          return;
        }
        host.books := host.books.(policies := host.books.policies - 1);
      }
      host.books := host.books.(vmas := host.books.vmas - 1);
      tmp := null;
    }
    host.books := host.books.(committed := host.books.committed - charge);
  }

  /** Stores the new area through the carried pointer and links it behind prev. */
  method LinkVma(mm: Mm, pprev: LinkSlot, prev: Vma?, tmp: Vma,
                 ghost child: seq<Vma>, ghost view: seq<VmaFields>)
    requires Linked(mm.mmap, child, view) && tmp !in child
    requires pprev == LastLink(child)
    requires prev == (if child == [] then null else child[|child| - 1])
    requires tmp.next == null
    modifies mm`mmap, child`next, tmp`prev
    ensures Linked(mm.mmap, child + [tmp], view + [tmp.fields])
  {
    forall i | 0 <= i < |child| - 1 ensures child[i] != child[|child| - 1] {
      LinkedAreDistinct(mm.mmap, child, view, i, |child| - 1);
    }
    match pprev {
      case HeadLink => mm.mmap := tmp;
      case NextLink(v) => v.next := tmp;
    }
    tmp.prev := prev;
    ghost var nodes := child + [tmp];
    assert forall i :: 0 <= i < |child| ==> nodes[i] == child[i] && child[i] != tmp;
    assert child != [] ==> nodes[|child| - 1] == child[|child| - 1];
  }

  /** __vma_link_rb: store the node through the carried slot, then rebalance. */
  method LinkTree(mm: Mm, slot: Slot<Vma>, tmp: Vma, ghost child: seq<Vma>)
    requires InOrder(mm.tree) == child && LastIsNew(child)
    requires slot == LastSlot(child)
    modifies mm`tree
    ensures InOrder(mm.tree) == child + [tmp]
  {
    StoreAtLastSlot(mm.tree, child, tmp);
    var attached := Store(mm.tree, slot, tmp);
    mm.tree := Rebalance(attached);
  }

  /** The executable's reference that the new address space takes, if it takes one. */
  function TakeExe(b: Books, exe: Option<File>, sign: int): Books
    requires exe.Some? ==> exe.value.id in b.files.refs
  {
    if exe.Some? then b.(files := b.files.(refs := Bump(b.files.refs, exe.value.id, sign))) else b
  }

  predicate ExeKnown(b: Books, exe: Option<File>) {
    exe.Some? ==> exe.value.id in b.files.refs
  }

  /** get_mm_exe_file: a file whose last reference is gone is not revived. */
  method GetExeFile(oldmm: Mm, host: Host) returns (exe: Option<File>)
    requires ExeKnown(host.books, oldmm.exeFile)
    modifies host`books
    ensures exe == (if oldmm.exeFile.Some? && old(host.books).files.refs[oldmm.exeFile.value.id] != 0
                    then oldmm.exeFile else None)
    ensures host.books == TakeExe(old(host.books), exe, 1)
    ensures exe.Some? ==>
      host.books.files.refs == old(host.books.files.refs)[exe.value.id := old(host.books.files.refs)[exe.value.id] + 1]
  {
    exe := oldmm.exeFile;
    if exe.Some? {
      if host.books.files.refs[exe.value.id] == 0 {
        exe := None;
      } else {
        host.books := TakeExe(host.books, exe, 1);
      }
    }
  }

  lemma InheritedStep(view: seq<VmaFields>, i: nat)
    requires i < |view|
    ensures Inherited(view[..i + 1]) ==
            if DontCopy in view[i].flags then Inherited(view[..i])
            else Inherited(view[..i]) + [ChildFields(view[i])]
    ensures SkippedPages(view[..i + 1]) ==
            if DontCopy in view[i].flags then SkippedPages(view[..i]).Plus(PagesOf(view[i]))
            else SkippedPages(view[..i])
  {
    assert view[..i + 1][..i] == view[..i];
  }

  lemma {:induction false} InheritedPrefix(view: seq<VmaFields>, i: nat)
    requires i <= |view|
    ensures Inherited(view[..i]) <= Inherited(view)
    decreases |view| - i
  {
    if i < |view| {
      InheritedStep(view, i);
      InheritedPrefix(view, i + 1);
    } else {
      assert view[..i] == view;
    }
  }

  lemma PostAllStep(b: Books, s: seq<VmaFields>, d: VmaFields)
    requires AllKnown(b.files, s) && Known(b.files, d)
    ensures AllKnown(b.files, s + [d])
    ensures PostAll(b, s + [d]) == Post(PostAll(b, s), d, 1)
  {
    assert (s + [d])[..|s|] == s;
  }

  /** The variables that the copy loop carries from one area to the next. */
  datatype Cursor = Cursor(pprev: LinkSlot, slot: Slot<Vma>, prev: Vma?)

  ghost predicate AtEnd(cur: Cursor, child: seq<Vma>) {
    && cur.pprev == LastLink(child)
    && cur.slot == LastSlot(child)
    && cur.prev == (if child == [] then null else child[|child| - 1])
  }

  /** Appends one area to the list, the tree and the count, and moves the cursor behind it. */
  method Append(mm: Mm, cur: Cursor, tmp: Vma, ghost child: seq<Vma>, ghost view: seq<VmaFields>)
    returns (cur': Cursor)
    requires Maps(mm, child, view) && AtEnd(cur, child) && tmp !in child
    requires tmp.mm == mm && tmp.next == null
    modifies mm`mmap, mm`tree, mm`mapCount, child`next, tmp`prev
    ensures AtEnd(cur', child + [tmp])
    ensures Maps(mm, child + [tmp], view + [tmp.fields])
  {
    assert LastIsNew(child) by {
      forall i | 0 <= i < |child| - 1 ensures child[i] != child[|child| - 1] {
        LinkedAreDistinct(mm.mmap, child, view, i, |child| - 1);
      }
    }
    LinkVma(mm, cur.pprev, cur.prev, tmp, child, view);
    LinkTree(mm, cur.slot, tmp, child);
    cur' := Cursor(NextLink(tmp), RightOf(tmp), tmp);
    mm.mapCount := mm.mapCount + 1;
  }

  /** Copies the area and links it: the loop's body for an area that is to be copied. */
  method CopyNext(mm: Mm, host: Host, mpnt: Vma, cur: Cursor, ghost child: seq<Vma>, ghost view: seq<VmaFields>)
    returns (retval: int, copy: Vma?, cur': Cursor)
    requires Maps(mm, child, view) && AtEnd(cur, child)
    requires Known(host.books.files, mpnt.fields)
    modifies mm`mmap, mm`tree, mm`mapCount, host`books, child`next
    ensures copy == null ==>
      && retval != 0 && cur' == cur
      && Maps(mm, child, view) && host.books == old(host.books)
    ensures copy != null ==>
      && fresh(copy)
      && AtEnd(cur', child + [copy])
      && Maps(mm, child + [copy], view + [ChildFields(mpnt.fields)])
      && host.books == Post(old(host.books), ChildFields(mpnt.fields), 1)
  {
    cur' := cur;
    copy := DupVma(mm, host, mpnt);
    if copy == null {
      retval := -ENOMEM;
      return;
    }
    cur' := Append(mm, cur, copy, child, view);
    retval := MayFail();
    if copy.fields.hasOpen {
      host.books := host.books.(opens := host.books.opens + 1);
    }
  }

  /**
   What holds after the loop has seen some of the parent's areas: the child maps exactly what it
   inherits from them, and the books differ from b by exactly the linked areas.
   */
  ghost predicate Copying(mm: Mm, host: Host, b: Books, seen: seq<VmaFields>, child: seq<Vma>)
    reads mm`mmap, mm`tree, mm`mapCount, host`books, child
  {
    && Maps(mm, child, Inherited(seen))
    && AllKnown(b.files, Inherited(seen))
    && host.books == PostAll(b, Inherited(seen))
  }

  lemma PostedOneMore(b: Books, view: seq<VmaFields>, i: nat)
    requires i < |view| && AllKnown(b.files, view) && AllKnown(b.files, Inherited(view[..i]))
    ensures Known(PostAll(b, Inherited(view[..i])).files, view[i])
    ensures Known(PostAll(b, Inherited(view[..i])).files, ChildFields(view[i]))
    ensures AllKnown(b.files, Inherited(view[..i + 1]))
    ensures PostAll(b, Inherited(view[..i + 1])) ==
            if DontCopy in view[i].flags then PostAll(b, Inherited(view[..i]))
            else Post(PostAll(b, Inherited(view[..i])), ChildFields(view[i]), 1)
  {
    InheritedStep(view, i);
    assert Known(b.files, view[i]);
    if DontCopy !in view[i].flags {
      PostAllStep(b, Inherited(view[..i]), ChildFields(view[i]));
    }
  }

  /** An area that the child inherits: on success, or when only its pages could not be copied, it is linked. */
  method CopyInherited(mm: Mm, host: Host, mpnt: Vma, cur: Cursor, ghost b: Books,
                       ghost view: seq<VmaFields>, ghost n: nat, ghost child: seq<Vma>)
    returns (retval: int, cur': Cursor, ghost child': seq<Vma>, ghost n': nat)
    requires n < |view| && mpnt.fields == view[n] && DontCopy !in view[n].flags
    requires AllKnown(b.files, view) && Copying(mm, host, b, view[..n], child) && AtEnd(cur, child)
    modifies mm`mmap, mm`tree, mm`mapCount, host`books, child`next
    ensures n' == n || n' == n + 1
    ensures retval == 0 ==> n' == n + 1
    ensures AtEnd(cur', child') && Copying(mm, host, b, view[..n'], child')
    ensures if n' == n then child' == child
            else |child'| == |child| + 1 && child' == child + [child'[|child|]] && fresh(child'[|child|])
  {
    PostedOneMore(b, view, n);
    InheritedStep(view, n);
    var tmp;
    retval, tmp, cur' := CopyNext(mm, host, mpnt, cur, child, Inherited(view[..n]));
    if tmp == null {
      child', n' := child, n;
    } else {
      child', n' := child + [tmp], n + 1;
    }
  }

  /** An area that the child is to do without. */
  method SkipArea(mm: Mm, host: Host, mpnt: Vma, ghost b: Books,
                  ghost view: seq<VmaFields>, ghost n: nat, ghost child: seq<Vma>)
    requires n < |view| && mpnt.fields == view[n] && DontCopy in view[n].flags
    requires AllKnown(b.files, view) && Copying(mm, host, b, view[..n], child)
    modifies mm`vm
    ensures Copying(mm, host, b, view[..n + 1], child)
    ensures mm.vm == old(mm.vm).Minus(PagesOf(view[n])) && mm.vm.total == old(mm.vm.total) - view[n].pages
  {
    PostedOneMore(b, view, n);
    InheritedStep(view, n);
    assert Copying(mm, host, b, view[..n + 1], child);
    mm.vm := mm.vm.Minus(PagesOf(mpnt.fields));
  }

  /** One turn of the copy loop; n counts the parent's areas that have been dealt with, vm the parent's pages. */
  method CopyStep(mm: Mm, host: Host, mpnt: Vma, cur: Cursor, ghost b: Books, ghost vm: Stats,
                  ghost view: seq<VmaFields>, ghost n: nat, ghost child: seq<Vma>)
    returns (retval: int, cur': Cursor, ghost child': seq<Vma>, ghost n': nat)
    requires n < |view| && mpnt.fields == view[n]
    requires AllKnown(b.files, view) && Copying(mm, host, b, view[..n], child) && AtEnd(cur, child)
    requires mm.vm == vm.Minus(SkippedPages(view[..n]))
    modifies mm`mmap, mm`tree, mm`mapCount, mm`vm, host`books, child`next
    ensures n' == n || n' == n + 1
    ensures retval == 0 ==> n' == n + 1
    ensures AtEnd(cur', child') && Copying(mm, host, b, view[..n'], child')
    ensures mm.vm == vm.Minus(SkippedPages(view[..n']))
    ensures child' == child ||
            (|child'| == |child| + 1 && child' == child + [child'[|child|]] && fresh(child'[|child|]))
  {
    InheritedStep(view, n);
    if DontCopy in mpnt.fields.flags {
      SkipArea(mm, host, mpnt, b, view, n, child);
      retval, cur', child', n' := 0, cur, child, n + 1;
    } else {
      retval, cur', child', n' := CopyInherited(mm, host, mpnt, cur, b, view, n, child);
    }
  }

  /** The copy loop, with both semaphores held. */
  method CopyAreas(mm: Mm, oldmm: Mm, host: Host, ghost parent: seq<Vma>, ghost view: seq<VmaFields>)
    returns (retval: int, ghost child: seq<Vma>, ghost n: nat)
    requires mm != oldmm
    requires Maps(oldmm, parent, view) && AllKnown(host.books.files, view)
    requires Maps(mm, [], [])
    requires mm.vm == oldmm.vm
    modifies mm`mmap, mm`tree, mm`mapCount, mm`vm, host`books
    ensures n <= |view| && (retval == 0 ==> n == |view|)
    ensures forall i :: 0 <= i < |child| ==> fresh(child[i])
    ensures Copying(mm, host, old(host.books), view[..n], child)
    ensures mm.vm == oldmm.vm.Minus(SkippedPages(view[..n]))
  {
    child, n := [], 0;
    retval := 0;
    var cur := Cursor(HeadLink, RootSlot, null);
    var mpnt := oldmm.mmap;
    while mpnt != null
      invariant n <= |parent| && mpnt == (if n < |parent| then parent[n] else null)
      invariant forall i :: 0 <= i < |child| ==> fresh(child[i])
      invariant AtEnd(cur, child)
      invariant Copying(mm, host, old(host.books), view[..n], child)
      invariant mm.vm == oldmm.vm.Minus(SkippedPages(view[..n]))
      decreases |parent| - n
    {
      retval, cur, child, n := CopyStep(mm, host, mpnt, cur, old(host.books), oldmm.vm, view, n, child);
      if retval != 0 { break; }
      mpnt := mpnt.next;
    }
    assert retval == 0 ==> view[..n] == view;
  }

  /** dup_mmap between taking and dropping the two semaphores. */
  method CopyLocked(mm: Mm, oldmm: Mm, host: Host, ghost parent: seq<Vma>, ghost view: seq<VmaFields>)
    returns (retval: int, ghost child: seq<Vma>, ghost n: nat)
    requires mm != oldmm
    requires Maps(oldmm, parent, view) && AllKnown(host.books.files, view)
    requires ExeKnown(host.books, oldmm.exeFile)
    requires Maps(mm, [], [])
    modifies mm`mmap, mm`tree, mm`mapCount, mm`vm, mm`exeFile, host`books
    ensures n <= |view| && (retval == 0 ==> n == |view|)
    ensures forall i :: 0 <= i < |child| ==> fresh(child[i])
    ensures mm.exeFile == oldmm.exeFile || mm.exeFile == None
    ensures Copying(mm, host, TakeExe(old(host.books), mm.exeFile, 1), view[..n], child)
    ensures mm.vm == oldmm.vm.Minus(SkippedPages(view[..n]))
  {
    child, n := [], 0;
    mm.exeFile := GetExeFile(oldmm, host);
    mm.vm := oldmm.vm;
    retval := MayFail();
    if retval != 0 { return; }
    retval := MayFail();
    if retval != 0 { return; }
    retval, child, n := CopyAreas(mm, oldmm, host, parent, view);
  }

  /** With the semaphores taken and dropped around it. */
  method CopyHolding(mm: Mm, oldmm: Mm, host: Host, ghost parent: seq<Vma>, ghost view: seq<VmaFields>)
    returns (retval: int, ghost child: seq<Vma>, ghost n: nat)
    requires mm != oldmm
    requires Maps(oldmm, parent, view) && AllKnown(host.books.files, view)
    requires ExeKnown(host.books, oldmm.exeFile)
    requires Maps(mm, [], [])
    modifies mm`mmap, mm`tree, mm`mapCount, mm`vm, mm`exeFile, mm`semHeld, oldmm`semHeld, host`books
    ensures !mm.semHeld && !oldmm.semHeld
    ensures n <= |view| && (retval == 0 ==> n == |view|)
    ensures forall i :: 0 <= i < |child| ==> fresh(child[i])
    ensures mm.exeFile == oldmm.exeFile || mm.exeFile == None
    ensures Copying(mm, host, TakeExe(old(host.books), mm.exeFile, 1), view[..n], child)
    ensures mm.vm == oldmm.vm.Minus(SkippedPages(view[..n]))
  {
    oldmm.semHeld := true;
    mm.semHeld := true;
    retval, child, n := CopyLocked(mm, oldmm, host, parent, view);
    mm.semHeld := false;
    oldmm.semHeld := false;
  }

  /** dup_mmap, in terms of what the child inherits. */
  method CopyMap(mm: Mm, oldmm: Mm, host: Host, ghost parent: seq<Vma>, ghost view: seq<VmaFields>)
    returns (retval: int, ghost child: seq<Vma>, ghost n: nat)
    requires mm != oldmm
    requires Maps(oldmm, parent, view) && AllKnown(host.books.files, view)
    requires ExeKnown(host.books, oldmm.exeFile)
    requires Maps(mm, [], []) && mm.exeFile == None
    requires !mm.semHeld && !oldmm.semHeld
    modifies mm`mmap, mm`tree, mm`mapCount, mm`vm, mm`exeFile, mm`semHeld
    modifies oldmm`semHeld, host`books, host`uprobeSections
    ensures !mm.semHeld && !oldmm.semHeld && host.uprobeSections == old(host.uprobeSections)
    ensures n <= |view| && (retval == 0 ==> n == |view|)
    ensures forall i :: 0 <= i < |child| ==> fresh(child[i])
    ensures mm.exeFile == oldmm.exeFile || mm.exeFile == None
    ensures Copying(mm, host, TakeExe(old(host.books), mm.exeFile, 1), view[..n], child)
    ensures retval == 0 ==> mm.vm == oldmm.vm.Minus(SkippedPages(view))
  {
    child, n := [], 0;
    host.uprobeSections := host.uprobeSections + 1;
    label failUprobeEnd: {
      var killed := MayFail();
      if killed != 0 {
        retval := -EINTR;
        break failUprobeEnd;
      }
      retval, child, n := CopyHolding(mm, oldmm, host, parent, view);
    }
    host.uprobeSections := host.uprobeSections - 1;
    assert view[..|view|] == view;
  }

  /** An address space in the making has, in order, copies of the areas that have been seen. */
  lemma CopyingIsCopied(mm: Mm, host: Host, b: Books, seen: seq<VmaFields>, child: seq<Vma>)
    requires Copying(mm, host, b, seen, child)
    ensures exists from :: CopiedFrom(FieldsOf(child), seen, from)
  {
    var from := InheritedIsCopied(seen);
    assert FieldsOf(child) == Inherited(seen);
  }

  /**
   dup_mmap.  n is the number of the parent's areas dealt with: all of them on success.  Whatever the
   exit, the child is well formed, its areas are copies of those that the parent has there, and the books
   carry exactly what they hold.
   */
  method DupMmap(mm: Mm, oldmm: Mm, host: Host, ghost parent: seq<Vma>, ghost view: seq<VmaFields>)
    returns (retval: int, ghost child: seq<Vma>, ghost n: nat)
    requires mm != oldmm
    requires Maps(oldmm, parent, view) && AllKnown(host.books.files, view)
    requires ExeKnown(host.books, oldmm.exeFile)
    requires Maps(mm, [], []) && mm.exeFile == None
    requires !mm.semHeld && !oldmm.semHeld
    modifies mm`mmap, mm`tree, mm`mapCount, mm`vm, mm`exeFile, mm`semHeld
    modifies oldmm`semHeld, host`books, host`uprobeSections
    ensures !mm.semHeld && !oldmm.semHeld && host.uprobeSections == old(host.uprobeSections)
    ensures n <= |view| && (retval == 0 ==> n == |view|)
    ensures forall i :: 0 <= i < |child| ==> fresh(child[i])
    ensures mm.exeFile == oldmm.exeFile || mm.exeFile == None
    ensures Copying(mm, host, TakeExe(old(host.books), mm.exeFile, 1), view[..n], child)
    ensures exists from :: CopiedFrom(FieldsOf(child), view[..n], from)
    ensures retval == 0 ==> exists from :: CopiedFrom(FieldsOf(child), view, from)
    ensures retval == 0 ==> mm.vm == oldmm.vm.Minus(SkippedPages(view))
  {
    retval, child, n := CopyMap(mm, oldmm, host, parent, view);
    CopyingIsCopied(mm, host, TakeExe(old(host.books), mm.exeFile, 1), view[..n], child);
    assert retval == 0 ==> view[..n] == view;
  }
}
