/**
 The record of dead processes: the kernel adds to a circular list, and reading /proc/hw1 prints and clears it.
 */
module DeadProcesses {

  const EFAULT := 14
  const MAX_BUFFER_SIZE := 512
  const NSEC_PER_SEC := 1_000_000_000
  const NSEC_PER_MSEC := 1_000_000
  const MSEC_PER_SEC := 1_000

  /** killedProcess; cpuMsecs is what jiffies_to_msecs makes of the user and kernel time together. */
  datatype Killed = Killed(command: string, pid: int, ppid: int, cpu: int, start: nat, cpuMsecs: nat)

  datatype Line = Line(command: string, pid: int, ppid: int, cpu: int,
                       startSec: nat, startMsec: nat, exitSec: nat, exitMsec: nat)

  // ---------- times ----------

  /** A time in milliseconds, written as seconds and three digits. */
  predicate Recombines(sec: nat, msec: nat, total: nat) {
    msec < MSEC_PER_SEC && sec * MSEC_PER_SEC + msec == total
  }

  /** A process started start / 10^6 milliseconds after boot, and ended after its time on the processor. */
  predicate Reports(l: Line, k: Killed) {
    && l.command == k.command && l.pid == k.pid && l.ppid == k.ppid && l.cpu == k.cpu
    && Recombines(l.startSec, l.startMsec, k.start / NSEC_PER_MSEC)
    && Recombines(l.exitSec, l.exitMsec, k.cpuMsecs + k.start / NSEC_PER_MSEC)
  }

  /** The sum of the milliseconds fits an unsigned long: 2^32 and 2^64 / 10^6 do. */
  method MakeLine(k: Killed) returns (l: Line)
    ensures Reports(l, k)
  {
    var startSec := k.start / NSEC_PER_SEC;
    var startMsec := k.start / NSEC_PER_MSEC - startSec * MSEC_PER_SEC;
    var exitMsec := k.cpuMsecs + k.start / NSEC_PER_MSEC;
    var exitSec := exitMsec / MSEC_PER_SEC;
    exitMsec := exitMsec - exitSec * MSEC_PER_SEC;
    l := Line(k.command, k.pid, k.ppid, k.cpu, startSec, startMsec, exitSec, exitMsec);
  }

  // ---------- the text ----------

  /** The record's line, from the milliseconds alone. */
  function LineFor(k: Killed): Line {
    var start := k.start / NSEC_PER_MSEC;
    var end := k.cpuMsecs + start;
    Line(k.command, k.pid, k.ppid, k.cpu, start / MSEC_PER_SEC, start % MSEC_PER_SEC,
         end / MSEC_PER_SEC, end % MSEC_PER_SEC)
  }

  /** The numbers of a time are the only ones that recombine to it, so no other line reports the record. */
  lemma ReportsOnce(l: Line, k: Killed)
    ensures Reports(l, k) <==> l == LineFor(k)
  {
  }

  /** How many characters a number is printed in, */
  function Digits(n: int): nat
    decreases if n < 0 then 1 - n else n
  {
    if n < 0 then 1 + Digits(-n) else if n < 10 then 1 else 1 + Digits(n / 10)
  }

  /** and what it is padded to on the left. */
  function Column(width: nat, n: nat): nat {
    if n < width then width else n
  }

  /** "%19s%8d%8d%8d", then twice "%15lu.%03lu", then the end of the line. */
  function Width(l: Line): nat {
    Column(19, |l.command|) + Column(8, Digits(l.pid)) + Column(8, Digits(l.ppid)) + Column(8, Digits(l.cpu))
    + Column(15, Digits(l.startSec)) + 1 + Column(3, Digits(l.startMsec))
    + Column(15, Digits(l.exitSec)) + 1 + Column(3, Digits(l.exitMsec)) + 1
  }

  const BAR := 161
  const HEADING := 82

  /** The size of the lines with the bars and the heading around them. */
  function TextSize(lines: seq<Line>): nat {
    if lines == [] then 3 * BAR + HEADING
    else TextSize(lines[..|lines| - 1]) + Width(lines[|lines| - 1])
  }

  function Lines(s: seq<Killed>): (lines: seq<Line>)
    ensures |lines| == |s| && forall i :: 0 <= i < |s| ==> lines[i] == LineFor(s[i])
  {
    seq(|s|, i requires 0 <= i < |s| => LineFor(s[i]))
  }

  // ---------- the list ----------

  class Node {
    var next: Node?
    var prev: Node?
    const info: Killed

    constructor (info: Killed)
      ensures this.info == info
    {
      this.info := info;
      next, prev := null, null;
    }
  }

  ghost function Infos(nodes: seq<Node>): (s: seq<Killed>)
    ensures |s| == |nodes| && forall i :: 0 <= i < |s| ==> s[i] == nodes[i].info
  {
    seq(|nodes|, i requires 0 <= i < |nodes| => nodes[i].info)
  }

  class List {
    const head: Node              // Node_head_ch: links only
    ghost var nodes: seq<Node>    // what hangs on the ring, oldest first
    ghost var freed: seq<Node>    // what has been handed to kfree

    ghost predicate Valid()
      reads this, head, nodes
    {
      && Ring()
      && (forall i :: 0 <= i < |nodes| ==> nodes[i] != head && nodes[i] !in freed)
      && (forall i, j :: 0 <= i < j < |nodes| ==> nodes[i] != nodes[j])
      && (forall i, j :: 0 <= i < j < |freed| ==> freed[i] != freed[j])
      && head !in freed
    }

    /** Node k of the ring, the head being both before the first and after the last. */
    ghost function At(k: int): Node
      reads this
      requires -1 <= k <= |nodes|
    {
      if 0 <= k < |nodes| then nodes[k] else head
    }

    ghost predicate Ring()
      reads this, head, nodes
    {
      && head.next == At(0) && head.prev == At(|nodes| - 1)
      && (forall k {:trigger nodes[k].next} :: 0 <= k < |nodes| ==> nodes[k].next == At(k + 1))
      && (forall k {:trigger nodes[k].prev} :: 0 <= k < |nodes| ==> nodes[k].prev == At(k - 1))
    }

    ghost function Contents(): (s: seq<Killed>)
      reads this
      ensures |s| == |nodes|
    {
      Infos(nodes)
    }

    /** LIST_HEAD. */
    constructor ()
      ensures Valid() && fresh(head) && nodes == [] && freed == [] && Contents() == []
    {
      head := new Node(Killed("", 0, 0, 0, 0, 0));
      nodes, freed := [], [];
      new;
      head.next, head.prev := head, head;
    }

    /** The addition in __put_task_struct: kmalloc, then list_add_tail. */
    method Add(k: Killed)
      requires Valid()
      modifies this`nodes, head, nodes
      ensures Valid() && Contents() == old(Contents()) + [k]
      ensures |nodes| == old(|nodes|) + 1 && nodes[..old(|nodes|)] == old(nodes) && fresh(nodes[old(|nodes|)])
    {
      var node := new Node(k);
      var last := head.prev;
      ghost var n := |nodes|;
      head.prev := node;
      node.next := head;
      node.prev := last;
      last.next := node;
      nodes := nodes + [node];
      assert Contents()[..n] == old(Contents());
    }

    /** The loop of list_for_each_safe with list_del and kfree. */
    method Clear()
      requires Valid()
      modifies this`nodes, this`freed, head, nodes
      ensures Valid() && nodes == [] && Contents() == []
      ensures freed == old(freed) + old(nodes)
    {
      var pos: Node := head.next;
      var q := pos.next;
      ghost var done := 0;
      while pos != head
        invariant Valid() && done <= old(|nodes|)
        invariant nodes == old(nodes)[done..] && freed == old(freed) + old(nodes)[..done]
        invariant pos == At(0) && q == pos.next
        decreases |nodes|
      {
        DeleteFirst(pos);
        pos := q;
        q := pos.next;
        done := done + 1;
      }
    }

    /** list_del and kfree of the node that the loop has come to. */
    method DeleteFirst(pos: Node)
      requires Valid() && |nodes| > 0 && pos == nodes[0]
      modifies this`nodes, this`freed, head, nodes
      ensures Valid() && nodes == old(nodes)[1..] && freed == old(freed) + [pos]
    {
      var prev, next := pos.prev, pos.next;
      next.prev := prev;
      prev.next := next;
      pos.next, pos.prev := null, null;     // LIST_POISON
      nodes, freed := nodes[1..], freed + [pos];
    }

    /** print_mode_B, without its bars and headings. */
    method PrintModeB() returns (lines: seq<Line>)
      requires Valid()
      modifies this`nodes, this`freed, head, nodes
      ensures Valid() && nodes == [] && Contents() == []
      ensures freed == old(freed) + old(nodes)
      ensures lines == Lines(old(Contents()))
    {
      lines := [];
      var p := head.next;
      while p != head
        modifies {}
        invariant |lines| <= |nodes| && p == At(|lines|)
        invariant forall i :: 0 <= i < |lines| ==> lines[i] == LineFor(Contents()[i])
        decreases |nodes| - |lines|
      {
        var line := MakeLine(p.info);
        ReportsOnce(line, p.info);
        lines := lines + [line];
        p := p.next;
      }
      Clear();
    }
  }

  // ---------- what a history of deaths, writes, opens and reads means ----------

  /** The show functions. */
  datatype Show = ShowA | ShowB | ShowError

  /**
   A task structure is put; something is written, with the first byte that the copy leaves in the buffer; the
   file is opened; an open file, numbered in order of the opens, is read from its start into a buffer that
   seq_file has brought.
   */
  datatype Event =
    | Release(k: Killed, dead: bool)
    | Write(data: seq<char>, fault: bool, left: char)
    | Open
    | Read(file: nat, size: nat)

  /** input_str[0]; a write of nothing leaves it alone. */
  function FirstByte(h: seq<Event>): char {
    if h == [] then '\0'
    else
      match h[|h| - 1]
      case Write(data, fault, left) =>
        if fault then left else if data != [] then data[0] else FirstByte(h[..|h| - 1])
      case _ => FirstByte(h[..|h| - 1])
  }

  /** flag_check_mode: what the last good write began with. */
  function Mode(h: seq<Event>): char {
    if h == [] then 'T'
    else
      match h[|h| - 1]
      case Write(_, fault, _) => if fault then Mode(h[..|h| - 1]) else FirstByte(h)
      case _ => Mode(h[..|h| - 1])
  }

  /** open_selected_proc's choice, */
  function Picks(mode: char): Show {
    if mode == 'T' then ShowA else if mode == 'E' then ShowB else ShowError
  }

  /** which an open file keeps, whatever is written after it was opened. */
  function Opened(h: seq<Event>): seq<Show> {
    if h == [] then []
    else if h[|h| - 1].Open? then Opened(h[..|h| - 1]) + [Picks(Mode(h[..|h| - 1]))]
    else Opened(h[..|h| - 1])
  }

  predicate Recorded(e: Event) {
    e.Release? && e.dead && |e.k.command| < 20
  }

  predicate Clears(h: seq<Event>)
    requires h != []
  {
    match h[|h| - 1]
    case Release(_, _) => false
    case Write(_, fault, _) => !fault && FirstByte(h) == 'E'
    case Open => false
    case Read(file, _) => file < |Opened(h)| && Opened(h)[file] == ShowB
  }

  /** The records on the list. */
  function Pending(h: seq<Event>): seq<Killed> {
    if h == [] then []
    else if Clears(h) then []
    else if Recorded(h[|h| - 1]) then Pending(h[..|h| - 1]) + [h[|h| - 1].k]
    else Pending(h[..|h| - 1])
  }

  /** Every death recorded, from some event on. */
  function Deaths(h: seq<Event>): seq<Killed> {
    if h == [] then []
    else if Recorded(h[|h| - 1]) then Deaths(h[..|h| - 1]) + [h[|h| - 1].k]
    else Deaths(h[..|h| - 1])
  }

  /** seq_file keeps what has left room in the buffer; else it asks again, with a buffer of twice the size. */
  predicate Fits(s: seq<Killed>, size: nat) {
    TextSize(Lines(s)) < size
  }

  /** The last event reads deaths out; they reach the reader if they fit. */
  predicate ReadsOut(h: seq<Event>, fits: bool)
    requires h != []
  {
    Clears(h) && h[|h| - 1].Read? && Fits(Pending(h[..|h| - 1]), h[|h| - 1].size) == fits
  }

  /** What reads have shown, */
  function Shown(h: seq<Event>): seq<Killed> {
    if h == [] then []
    else if ReadsOut(h, true) then Shown(h[..|h| - 1]) + Pending(h[..|h| - 1])
    else Shown(h[..|h| - 1])
  }

  /** what they have lost, the list being empty by the time that the show function is run again, */
  function Lost(h: seq<Event>): seq<Killed> {
    if h == [] then []
    else if ReadsOut(h, false) then Lost(h[..|h| - 1]) + Pending(h[..|h| - 1])
    else Lost(h[..|h| - 1])
  }

  /** and what writes have thrown away unseen. */
  function Dropped(h: seq<Event>): seq<Killed> {
    if h == [] then []
    else if Clears(h) && h[|h| - 1].Write? then Dropped(h[..|h| - 1]) + Pending(h[..|h| - 1])
    else Dropped(h[..|h| - 1])
  }

  /** The list holds the deaths since it was last cleared, in order. */
  lemma {:induction false} PendingIsSinceTheLastClear(h: seq<Event>, c: nat)
    requires c <= |h|
    requires c > 0 ==> Clears(h[..c])
    requires forall k :: c < k <= |h| ==> !Clears(h[..k])
    ensures Pending(h) == Deaths(h[c..])
  {
    assert h[..|h|] == h;
    if c == |h| {
    } else {
      var n := |h| - 1;
      var g := h[..n];
      assert forall k :: 0 <= k <= n ==> g[..k] == h[..k];
      PendingIsSinceTheLastClear(g, c);
      assert h[c..][..n - c] == g[c..];
    }
  }

  /** Every death is shown once, or lost once, or thrown away once, or still on the list. */
  lemma {:induction false} EveryDeathIsAccountedFor(h: seq<Event>)
    ensures multiset(Deaths(h)) ==
            multiset(Shown(h)) + multiset(Lost(h)) + multiset(Dropped(h)) + multiset(Pending(h))
  {
    if h != [] {
      EveryDeathIsAccountedFor(h[..|h| - 1]);
    }
  }

  // ---------- when a read loses deaths ----------

  lemma OneMore(h: seq<Event>, e: Event)
    ensures (h + [e])[..|h|] == h
  {
  }

  /** A read in mode E shows everything that was pending if the text fits the first buffer, else none of it. */
  lemma ReadShowsWhatFits(h: seq<Event>, file: nat, size: nat)
    requires file < |Opened(h)| && Opened(h)[file] == ShowB
    ensures Shown(h + [Read(file, size)]) == Shown(h) + if Fits(Pending(h), size) then Pending(h) else []
    ensures Lost(h + [Read(file, size)]) == Lost(h) + if Fits(Pending(h), size) then [] else Pending(h)
    ensures Pending(h + [Read(file, size)]) == []
  {
    OneMore(h, Read(file, size));
    assert Opened(h + [Read(file, size)]) == Opened(h);
  }

  /** Every field stays inside its column, as those of any process do on a machine that has run for a lifetime. */
  predicate Ordinary(k: Killed) {
    && |k.command| <= 19 && Digits(k.pid) <= 8 && Digits(k.ppid) <= 8 && Digits(k.cpu) <= 8
    && Digits(LineFor(k).startSec) <= 15 && Digits(LineFor(k).exitSec) <= 15
  }

  lemma {:induction false} OrdinaryText(s: seq<Killed>)
    requires forall k :: k in s ==> Ordinary(k)
    ensures TextSize(Lines(s)) == 565 + 82 * |s|
  {
    if s != [] {
      var n := |s| - 1;
      OrdinaryText(s[..n]);
      assert Lines(s)[..n] == Lines(s[..n]);
      OrdinaryWidth(s[n]);
    }
  }

  lemma OrdinaryWidth(k: Killed)
    requires Ordinary(k)
    ensures Width(LineFor(k)) == 82
  {
    ThreeDigits(LineFor(k).startMsec);
    ThreeDigits(LineFor(k).exitMsec);
  }

  lemma ThreeDigits(n: nat)
    requires n < 1000
    ensures Digits(n) <= 3
  {
    assert n >= 100 ==> Digits(n / 10) == 1 + Digits(n / 10 / 10);
  }

  /** The first buffer is a page: it holds 43 ordinary deaths, and a read of more than that loses them all. */
  lemma APageHolds43(s: seq<Killed>)
    requires forall k :: k in s ==> Ordinary(k)
    ensures Fits(s, 4096) <==> |s| <= 43
  {
    OrdinaryText(s);
  }

  /** Mode E is asked for, the file opened, n such deaths recorded. */
  function DeathsAfterOpen(k: Killed, n: nat): seq<Event> {
    [Write("E", false, 'E'), Open] + seq(n, _ => Release(k, true))
  }

  /** With 44 or more of them, nothing is ever shown. */
  lemma ManyDeathsAreLost(k: Killed, n: nat)
    requires Ordinary(k) && n > 43
    ensures Deaths(DeathsAfterOpen(k, n)) == seq(n, _ => k)
    ensures Shown(DeathsAfterOpen(k, n) + [Read(0, 4096)]) == []
    ensures Lost(DeathsAfterOpen(k, n) + [Read(0, 4096)]) == seq(n, _ => k)
  {
    OnlyDeaths(k, n);
    APageHolds43(seq(n, _ => k));
    ReadShowsWhatFits(DeathsAfterOpen(k, n), 0, 4096);
  }

  lemma {:induction false} OnlyDeaths(k: Killed, n: nat)
    requires |k.command| <= 19
    ensures var h := DeathsAfterOpen(k, n);
            && Pending(h) == Deaths(h) == seq(n, _ => k) && Opened(h) == [ShowB]
            && Shown(h) == [] && Lost(h) == []
  {
    var h := DeathsAfterOpen(k, n);
    if n == 0 {
      assert h[..1] == [Write("E", false, 'E')] && h[..1][..0] == [];
      assert FirstByte(h[..1]) == 'E' && Mode(h[..1]) == 'E' && Clears(h[..1]) && Opened(h[..1]) == [];
      assert Shown(h[..1]) == Shown(h[..1][..0]) && Lost(h[..1]) == Lost(h[..1][..0]);
      assert Deaths(h[..1]) == Deaths(h[..1][..0]);
    } else {
      OnlyDeaths(k, n - 1);
      assert h[..|h| - 1] == DeathsAfterOpen(k, n - 1);
      assert seq(n, _ => k) == seq(n - 1, _ => k) + [k];
    }
  }

  // ---------- the driver ----------

  datatype Output = ModeA | ModeB(lines: seq<Line>) | WrongInput

  /** The kernel's hook and the module's callbacks, one at a time. */
  class Driver {
    const list: List
    const input: array<char>
    var mode: char
    var files: seq<Show>          // what single_open has been given for each open file
    ghost var history: seq<Event>

    ghost predicate Valid()
      reads this, input, list, list.head, list.nodes
    {
      && list.Valid() && input.Length == MAX_BUFFER_SIZE
      && Reflects(history)
    }

    ghost predicate Reflects(h: seq<Event>)
      reads this`mode, this`files, input, list
      requires input.Length == MAX_BUFFER_SIZE
    {
      list.Contents() == Pending(h) && mode == Mode(h) && files == Opened(h) && input[0] == FirstByte(h)
    }

    constructor ()
      ensures Valid() && history == [] && fresh(list) && fresh(input) && fresh(list.head)
    {
      list := new List();
      input := new char[MAX_BUFFER_SIZE](_ => '\0');
      mode, files, history := 'T', [], [];
    }

    /** The addition to __put_task_struct. */
    method PutTaskStruct(k: Killed, dead: bool)
      requires Valid()
      modifies this`history, list`nodes, list.head, list.nodes
      ensures Valid() && history == old(history) + [Release(k, dead)]
      ensures list.Contents() == old(list.Contents()) + if dead && |k.command| < 20 then [k] else []
    {
      OneMore(history, Release(k, dead));
      if dead {
        if |k.command| < 20 {
          list.Add(k);
        }
      }
      history := history + [Release(k, dead)];
    }

    /** copy_from_user: a fault leaves the part that was copied, and says so. */
    method CopyFromUser(data: seq<char>, size: nat) returns (fault: bool)
      requires size <= |data| && size <= input.Length
      modifies input
      ensures !fault ==> forall i :: 0 <= i < input.Length ==> input[i] == if i < size then data[i] else old(input[i])
      ensures size == 0 ==> !fault
    {
      var copied: nat :| copied <= size;
      forall i | 0 <= i < copied {
        input[i] := data[i];
      }
      fault := copied < size;
    }

    /** write_call_back_func. */
    method WriteCallBack(data: seq<char>) returns (r: int)
      requires Valid()
      modifies this`mode, this`history, input, list`nodes, list`freed, list.head, list.nodes
      ensures Valid()
      ensures r == -EFAULT || r == if |data| > MAX_BUFFER_SIZE then MAX_BUFFER_SIZE else |data|
      ensures history == old(history) + [Write(data, r == -EFAULT, input[0])]
      ensures r == -EFAULT ==> mode == old(mode) && list.Contents() == old(list.Contents())
      ensures r != -EFAULT && data != [] ==> mode == data[0]
      ensures r != -EFAULT ==> list.Contents() == if mode == 'E' then [] else old(list.Contents())
    {
      var size := if |data| > MAX_BUFFER_SIZE then MAX_BUFFER_SIZE else |data|;
      var fault := CopyFromUser(data, size);
      ghost var e := Write(data, fault, input[0]);
      OneMore(history, e);
      if fault {
        history := history + [e];
        return -EFAULT;
      }
      mode := input[0];
      if mode == 'E' {
        list.Clear();
      }
      history := history + [e];
      r := size;
    }

    /** open_selected_proc. */
    method OpenSelectedProc() returns (file: nat)
      requires Valid()
      modifies this`files, this`history
      ensures Valid() && history == old(history) + [Open] && file == |Opened(history)| - 1
      ensures files == old(files) + [if mode == 'T' then ShowA else if mode == 'E' then ShowB else ShowError]
    {
      OneMore(history, Open);
      file := |files|;
      if mode == 'T' {
        files := files + [ShowA];
      } else if mode == 'E' {
        files := files + [ShowB];
      } else {
        files := files + [ShowError];
      }
      history := history + [Open];
    }

    /**
     A read from the start, through seq_file: as long as the text does not fit the buffer, it is thrown away,
     the buffer doubled and the show function run again.
     */
    method ReadFromStart(file: nat, size: nat) returns (out: Output)
      requires Valid() && file < |Opened(history)| && size > 0
      modifies this`history, list`nodes, list`freed, list.head, list.nodes
      ensures Valid() && history == old(history) + [Read(file, size)]
      ensures out == match Opened(old(history))[file]
                     case ShowA => ModeA
                     case ShowB => ModeB(if Fits(Pending(old(history)), size) then Lines(Pending(old(history))) else [])
                     case ShowError => WrongInput
    {
      OneMore(history, Read(file, size));
      match files[file] {
        case ShowA => out := ModeA;
        case ShowB =>
          var lines := ReadModeB(size);
          out := ModeB(lines);
        case ShowError => out := WrongInput;
      }
      history := history + [Read(file, size)];
    }

    method ReadModeB(size: nat) returns (lines: seq<Line>)
      requires list.Valid() && size > 0
      modifies list`nodes, list`freed, list.head, list.nodes
      ensures list.Valid() && list.Contents() == [] && list.freed == old(list.freed + list.nodes)
      ensures lines == if Fits(old(list.Contents()), size) then Lines(old(list.Contents())) else []
    {
      var room := size;
      lines := list.PrintModeB();
      while TextSize(lines) >= room
        invariant list.Valid() && list.nodes == [] && list.freed == old(list.freed + list.nodes)
        invariant room >= size > 0 && (room == size ==> lines == Lines(old(list.Contents())))
        invariant room > size ==> lines == [] && !Fits(old(list.Contents()), size)
        decreases TextSize(lines) - room
      {
        room := 2 * room;
        ghost var before := lines;
        lines := list.PrintModeB();
        EmptyIsShortest(before);
      }
    }
  }

  lemma {:induction false} EmptyIsShortest(lines: seq<Line>)
    ensures TextSize([]) <= TextSize(lines)
  {
    if lines != [] {
      EmptyIsShortest(lines[..|lines| - 1]);
    }
  }
}
