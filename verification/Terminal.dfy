/**
 The terminal's retransmission detector: two netfilter hooks watch the TCP packets that leave and arrive, and
 count the outgoing ones that carry nothing newer than what was sent before.
 */
module Terminal {

  const SEQUENCES := 0x1_0000_0000    // TCP sequence numbers, and unsigned int

  type Sequence = x: int | 0 <= x < SEQUENCES

  /** payload is what PAYLOAD_SIZE computes; only whether it is zero matters. */
  datatype Packet = Packet(tcp: bool, syn: bool, fin: bool, number: Sequence, payload: int)

  datatype Event = Leaves(p: Packet) | Arrives(p: Packet)

  // ---------- what a history of packets means ----------

  /** The handshake as the terminal sees it. */
  datatype Phase = Phase(synRequired: bool, synAcked: bool, finRequired: bool, connected: bool)

  function Handshake(before: Phase, e: Event): Phase {
    match e
    case Leaves(p) =>
      if !p.tcp then before
      else
        var asked := before.(synRequired := before.synRequired || p.syn, finRequired := before.finRequired || p.fin);
        if before.synAcked then asked.(synRequired := false, synAcked := false, connected := true) else asked
    case Arrives(p) =>
      if !p.tcp then before
      else
        var answered := before.(synAcked := before.synAcked || (before.synRequired && p.syn));
        if before.finRequired && p.fin then answered.(finRequired := false, connected := false) else answered
  }

  function After(h: seq<Event>): Phase {
    if h == [] then Phase(false, false, false, false) else Handshake(After(h[..|h| - 1]), h[|h| - 1])
  }

  /** An epoch ends when the terminal asks for a new connection, and when the peer agrees to close one. */
  predicate Ends(before: Phase, e: Event) {
    match e
    case Leaves(p) => p.tcp && p.syn
    case Arrives(p) => p.tcp && p.fin && before.finRequired
  }

  /** A packet that the detector is to judge. */
  predicate Sends(before: Phase, e: Event) {
    e.Leaves? && e.p.tcp && before.connected && e.p.payload != 0
  }

  /** The sequence numbers of the payload packets sent in the epoch that is open after h. */
  function Epoch(h: seq<Event>): seq<Sequence> {
    if h == [] then [] else Sent(After(h[..|h| - 1]), Epoch(h[..|h| - 1]), h[|h| - 1])
  }

  predicate NewerThanAll(x: Sequence, sent: seq<Sequence>) {
    forall k :: 0 <= k < |sent| ==> x > sent[k]
  }

  /** The event that ends h sends a packet; what its epoch held before it. */
  function SentBefore(h: seq<Event>): seq<Sequence>
    requires h != []
  {
    Open(After(h[..|h| - 1]), Epoch(h[..|h| - 1]), h[|h| - 1])
  }

  predicate SendsLast(h: seq<Event>) {
    h != [] && Sends(After(h[..|h| - 1]), h[|h| - 1])
  }

  /** What total_collision is for: packets that do not exceed all earlier ones of their epoch. */
  function Collisions(h: seq<Event>): nat {
    if h == [] then 0
    else
      Collisions(h[..|h| - 1])
      + if SendsLast(h) && !NewerThanAll(h[|h| - 1].p.number, SentBefore(h)) then 1 else 0
  }

  /** Packets that the detector miscounts: the newest so far, in an epoch that began with number 0. */
  function Miscounted(h: seq<Event>): nat {
    if h == [] then 0
    else
      Miscounted(h[..|h| - 1])
      + if SendsLast(h) && NewerThanAll(h[|h| - 1].p.number, SentBefore(h)) && Epoch(h)[0] == 0 then 1 else 0
  }

  /** What the detector has counted, right and wrong. */
  function Counted(h: seq<Event>): nat {
    Collisions(h) + Miscounted(h)
  }

  /** What it adds for one event: every packet but the newest so far, and that one too in an epoch that began with 0. */
  function Adds(phase: Phase, open: seq<Sequence>, e: Event): nat {
    if Sends(phase, e) && !(NewerThanAll(e.p.number, open) && (open + [e.p.number])[0] != 0) then 1 else 0
  }

  /** What an epoch holds when the event begins, and when it is over. */
  function Open(phase: Phase, sent: seq<Sequence>, e: Event): seq<Sequence> {
    if Ends(phase, e) then [] else sent
  }

  function Sent(phase: Phase, sent: seq<Sequence>, e: Event): seq<Sequence> {
    if Sends(phase, e) then Open(phase, sent, e) + [e.p.number] else Open(phase, sent, e)
  }

  ghost predicate StartsAtZero(h: seq<Event>) {
    exists n :: 0 <= n <= |h| && ZeroEpoch(h[..n])
  }

  predicate ZeroEpoch(h: seq<Event>) {
    Epoch(h) != [] && Epoch(h)[0] == 0
  }

  // ---------- laws of the history ----------

  lemma OneMore(h: seq<Event>, e: Event)
    ensures var more := h + [e];
            && After(more) == Handshake(After(h), e)
            && Epoch(more) == Sent(After(h), Epoch(h), e)
            && Counted(more) == Counted(h) + Adds(After(h), Open(After(h), Epoch(h), e), e)
  {
    assert (h + [e])[..|h|] == h;
  }

  /** syn_acked implies syn_require; an open epoch implies connected. */
  lemma {:induction false} PhasesAreOrdered(h: seq<Event>)
    ensures After(h).synAcked ==> After(h).synRequired
    ensures Epoch(h) != [] ==> After(h).connected
  {
    if h != [] {
      PhasesAreOrdered(h[..|h| - 1]);
    }
  }

  /** A FIN left at i, and none has arrived since. */
  predicate Unanswered(h: seq<Event>, i: int)
    requires 0 <= i < |h|
  {
    h[i].Leaves? && h[i].p.tcp && h[i].p.fin && forall j :: i < j < |h| ==> !(h[j].Arrives? && h[j].p.tcp && h[j].p.fin)
  }

  lemma UnansweredOneMore(g: seq<Event>, e: Event, i: int)
    requires 0 <= i < |g|
    ensures Unanswered(g + [e], i) <==> Unanswered(g, i) && !(e.Arrives? && e.p.tcp && e.p.fin)
  {
    var h := g + [e];
    assert h[|g|] == e && forall j :: 0 <= j < |g| ==> h[j] == g[j];
  }

  /** Whether a connection is being closed. */
  lemma {:induction false} ClosingMeansFinUnanswered(h: seq<Event>)
    ensures After(h).finRequired <==> exists i :: 0 <= i < |h| && Unanswered(h, i)
  {
    if h != [] {
      var n := |h| - 1;
      var g := h[..n];
      assert h == g + [h[n]];
      ClosingMeansFinUnanswered(g);
      forall i | 0 <= i < n
        ensures Unanswered(h, i) <==> Unanswered(g, i) && !(h[n].Arrives? && h[n].p.tcp && h[n].p.fin)
      {
        UnansweredOneMore(g, h[n], i);
      }
      assert Unanswered(h, n) <==> h[n].Leaves? && h[n].p.tcp && h[n].p.fin;
    }
  }

  // ---------- what the phase means, in terms of the packets alone ----------

  predicate SynLeaves(e: Event) { e.Leaves? && e.p.tcp && e.p.syn }

  predicate SynArrives(e: Event) { e.Arrives? && e.p.tcp && e.p.syn }

  predicate TcpLeaves(e: Event) { e.Leaves? && e.p.tcp }

  /** The last packet of h is the third of a handshake: the next one out after a SYN of ours has been answered. */
  ghost predicate Establishes(h: seq<Event>)
    decreases |h|, 0
  {
    h != [] && TcpLeaves(h[|h| - 1]) && Answered(h[..|h| - 1])
  }

  /** A SYN has been answered by one that arrived at j, and nothing has left since. */
  ghost predicate Answered(h: seq<Event>)
    decreases |h|, 1
  {
    exists j :: 0 <= j < |h| && SynArrives(h[j]) && Asked(h[..j]) && NoneLeaves(h, j)
  }

  predicate NoneLeaves(h: seq<Event>, j: int)
    requires 0 <= j < |h|
  {
    forall m :: j < m < |h| ==> !TcpLeaves(h[m])
  }

  /** A SYN left at i, and no handshake has been completed since, nor by it. */
  ghost predicate Asked(h: seq<Event>)
    decreases |h|, 2
  {
    exists i :: 0 <= i < |h| && SynLeaves(h[i]) && forall n :: i < n <= |h| ==> !Establishes(h[..n])
  }

  /** The last packet of h answers a FIN. */
  ghost predicate Closes(h: seq<Event>) {
    && h != [] && h[|h| - 1].Arrives? && h[|h| - 1].p.tcp && h[|h| - 1].p.fin
    && var g := h[..|h| - 1];
       exists i :: 0 <= i < |g| && Unanswered(g, i)
  }

  /** The first n packets completed a handshake, and no FIN has been answered since. */
  ghost predicate ConnectedSince(h: seq<Event>, n: int)
    requires 0 <= n <= |h|
  {
    Establishes(h[..n]) && forall m :: n < m <= |h| ==> !Closes(h[..m])
  }

  ghost predicate Connected(h: seq<Event>) {
    exists n :: 0 <= n <= |h| && ConnectedSince(h, n)
  }

  lemma PrefixesOf(g: seq<Event>, e: Event)
    ensures (g + [e])[..|g| + 1] == g + [e]
    ensures forall n :: 0 <= n <= |g| ==> (g + [e])[..n] == g[..n]
    ensures g[..|g|] == g
  {
  }

  lemma EstablishesOneMore(g: seq<Event>, e: Event)
    ensures Establishes(g + [e]) <==> TcpLeaves(e) && Answered(g)
  {
    PrefixesOf(g, e);
  }

  lemma AskedOneMore(g: seq<Event>, e: Event)
    ensures Asked(g + [e]) <==> !Establishes(g + [e]) && (Asked(g) || SynLeaves(e))
  {
    PrefixesOf(g, e);
    var h := g + [e];
    if Asked(h) {
      var i :| 0 <= i < |h| && SynLeaves(h[i]) && forall n :: i < n <= |h| ==> !Establishes(h[..n]);
      assert !Establishes(h[..|g| + 1]);
      forall n | i < n <= |g| ensures !Establishes(g[..n]) {
        assert !Establishes(h[..n]);
      }
      assert i < |g| ==> SynLeaves(g[i]);
    }
    if !Establishes(h) && Asked(g) {
      var i :| 0 <= i < |g| && SynLeaves(g[i]) && forall n :: i < n <= |g| ==> !Establishes(g[..n]);
      assert SynLeaves(h[i]);
    }
    assert SynLeaves(e) ==> SynLeaves(h[|g|]);
  }

  lemma AnsweredOneMore(g: seq<Event>, e: Event)
    ensures Answered(g + [e]) <==> (Answered(g) && !TcpLeaves(e)) || (SynArrives(e) && Asked(g))
  {
    PrefixesOf(g, e);
    var h := g + [e];
    if Answered(h) {
      var j :| 0 <= j < |h| && SynArrives(h[j]) && Asked(h[..j]) && NoneLeaves(h, j);
      if j < |g| {
        assert SynArrives(g[j]) && Asked(g[..j]) && !TcpLeaves(h[|g|]);
        assert forall m :: j < m < |g| ==> g[m] == h[m];
      }
    }
    if Answered(g) && !TcpLeaves(e) {
      var j :| 0 <= j < |g| && SynArrives(g[j]) && Asked(g[..j]) && NoneLeaves(g, j);
      assert SynArrives(h[j]) && Asked(h[..j]) && NoneLeaves(h, j);
    }
    if SynArrives(e) && Asked(g) {
      assert SynArrives(h[|g|]) && Asked(h[..|g|]) && NoneLeaves(h, |g|);
    }
  }

  lemma ConnectedSinceOneMore(g: seq<Event>, e: Event, n: int)
    requires 0 <= n <= |g|
    ensures ConnectedSince(g + [e], n) <==> ConnectedSince(g, n) && !Closes(g + [e])
  {
    PrefixesOf(g, e);
    var h := g + [e];
    if ConnectedSince(h, n) {
      assert !Closes(h[..|g| + 1]);
      forall m | n < m <= |g| ensures !Closes(g[..m]) {
        assert !Closes(h[..m]);
      }
    }
  }

  lemma ConnectedOneMore(g: seq<Event>, e: Event)
    ensures Connected(g + [e]) <==> Establishes(g + [e]) || (Connected(g) && !Closes(g + [e]))
  {
    PrefixesOf(g, e);
    var h := g + [e];
    forall n | 0 <= n <= |g| ensures ConnectedSince(h, n) <==> ConnectedSince(g, n) && !Closes(h) {
      ConnectedSinceOneMore(g, e, n);
    }
    assert ConnectedSince(h, |h|) <==> Establishes(h);
    if Connected(g) && !Closes(h) {
      var n :| 0 <= n <= |g| && ConnectedSince(g, n);
      assert ConnectedSince(h, n);
    }
  }

  /** The flags of the handshake, and whether there is a connection, in terms of the packets that have passed. */
  lemma {:induction false} ConnectedMeansEstablished(h: seq<Event>)
    ensures After(h).synRequired <==> Asked(h)
    ensures After(h).synAcked <==> Answered(h)
    ensures After(h).connected <==> Connected(h)
  {
    if h != [] {
      var g, e := h[..|h| - 1], h[|h| - 1];
      assert h == g + [e];
      ConnectedMeansEstablished(g);
      ClosingMeansFinUnanswered(g);
      EstablishesOneMore(g, e);
      AskedOneMore(g, e);
      AnsweredOneMore(g, e);
      ConnectedOneMore(g, e);
      assert Closes(h) <==> e.Arrives? && e.p.tcp && e.p.fin && After(g).finRequired;
    }
  }

  /** With the last packet of h an epoch ends: a SYN leaves, or a FIN is answered. */
  ghost predicate Boundary(h: seq<Event>) {
    h != [] && (SynLeaves(h[|h| - 1]) || Closes(h))
  }

  /** The numbers of the packets from c on that carried a payload out over a connection. */
  ghost function Payloads(h: seq<Event>, c: nat): seq<Sequence>
    requires c <= |h|
  {
    if c == |h| then []
    else
      var e := h[|h| - 1];
      Payloads(h[..|h| - 1], c)
      + if TcpLeaves(e) && e.p.payload != 0 && Connected(h[..|h| - 1]) then [e.p.number] else []
  }

  /** An epoch holds what was sent since its boundary, a SYN that carried a payload included. */
  lemma {:induction false} EpochIsSinceTheBoundary(h: seq<Event>, c: nat)
    requires c <= |h| && (c > 0 ==> Boundary(h[..c]))
    requires forall n :: c < n <= |h| ==> !Boundary(h[..n])
    ensures Epoch(h) == Payloads(h, if c == 0 then 0 else c - 1)
    decreases |h|
  {
    if h != [] {
      var g, e := h[..|h| - 1], h[|h| - 1];
      assert h == g + [e] && h[..|h|] == h;
      ConnectedMeansEstablished(g);
      ClosingMeansFinUnanswered(g);
      assert Ends(After(g), e) <==> Boundary(h);
      if c < |h| {
        assert forall n :: 0 <= n <= |g| ==> g[..n] == h[..n];
        EpochIsSinceTheBoundary(g, c);
      }
    }
  }

  /** The detector miscounts in exactly those histories in which an epoch starts at sequence number 0. */
  lemma {:induction false} MiscountsOnlyFromZero(h: seq<Event>)
    ensures Miscounted(h) > 0 <==> StartsAtZero(h)
  {
    if h != [] {
      var g := h[..|h| - 1];
      MiscountsOnlyFromZero(g);
      assert h[..|h|] == h;
      assert forall n :: 0 <= n < |h| ==> h[..n] == g[..n];
      if ZeroEpoch(h) && !ZeroEpoch(g) {
        assert SendsLast(h) && SentBefore(h) == [];
        assert Miscounted(h) > 0;
      }
      if StartsAtZero(h) {
        var n :| 0 <= n <= |h| && ZeroEpoch(h[..n]);
        if n < |h| {
          assert ZeroEpoch(g[..n]);
        } else if ZeroEpoch(g) {
          assert g[..|g|] == g;
        }
      }
      if StartsAtZero(g) {
        var n :| 0 <= n <= |g| && ZeroEpoch(g[..n]);
        assert ZeroEpoch(h[..n]);
      }
    }
  }

  /** So it can be wrong: after a handshake, one payload packet with number 0 is reported as a collision. */
  lemma ZeroIsMiscounted(ack: Packet, data: Packet)
    requires ack.tcp && !ack.syn && !ack.fin && ack.payload == 0
    requires data.tcp && !data.syn && !data.fin && data.payload != 0 && data.number == 0
    ensures var syn := Packet(true, true, false, 0, 0);
            var h := [Leaves(syn), Arrives(syn), Leaves(ack), Leaves(data)];
            Collisions(h) == 0 && Miscounted(h) == 1
  {
    var syn := Packet(true, true, false, 0, 0);
    var h := [Leaves(syn), Arrives(syn), Leaves(ack), Leaves(data)];
    assert h[..3] == [Leaves(syn), Arrives(syn), Leaves(ack)];
    assert h[..3][..2] == [Leaves(syn), Arrives(syn)];
    assert h[..3][..2][..1] == [Leaves(syn)];
    assert After([Leaves(syn)]) == Phase(true, false, false, false);
    assert After(h[..3][..2]) == Phase(true, true, false, false);
    assert After(h[..3]) == Phase(false, false, false, true);
    assert Epoch([Leaves(syn)]) == [] && Epoch(h[..3][..2]) == [] && Epoch(h[..3]) == [];
    assert Collisions([Leaves(syn)]) == 0 && Collisions(h[..3][..2]) == 0 && Collisions(h[..3]) == 0;
    assert Miscounted([Leaves(syn)]) == 0 && Miscounted(h[..3][..2]) == 0 && Miscounted(h[..3]) == 0;
    assert Epoch(h) == [0];
  }

  // ---------- the module ----------

  class Detector {
    const modulus: int                // of unsigned long, at least 32 bits wide
    var lastSequence: int
    var synRequire: bool
    var synAcked: bool
    var finRequire: bool
    var initSequence: bool
    var connected: bool
    var totalCollision: Sequence
    ghost var history: seq<Event>

    /** The variables show a phase, an epoch and a number of packets counted. */
    ghost predicate Shows(phase: Phase, sent: seq<Sequence>, counted: nat)
      reads this
    {
      && phase == Phase(synRequire, synAcked, finRequire, connected)
      && Tracks(sent, counted)
    }

    /** The last sequence number is that of what the epoch has held, and the counter of what was counted. */
    ghost predicate Tracks(sent: seq<Sequence>, counted: nat)
      reads `initSequence, `lastSequence, `totalCollision
    {
      && modulus >= SEQUENCES
      && (initSequence <==> sent != [])
      && (initSequence ==> Keeps(lastSequence, sent, modulus))
      && totalCollision == counted % SEQUENCES
    }

    ghost predicate Valid()
      reads this
    {
      Shows(After(history), Epoch(history), Counted(history))
    }

    /** init_hello; initSequence starts as every static variable does. */
    constructor (modulus: int)
      requires modulus >= SEQUENCES
      ensures Valid() && history == [] && this.modulus == modulus && totalCollision == 0
    {
      this.modulus := modulus;
      lastSequence, totalCollision := 0, 0;
      synRequire, synAcked, finRequire, initSequence, connected := false, false, false, false, false;
      history := [];
    }

    /** post_hook_func. */
    method PostHook(p: Packet)
      requires Valid()
      modifies this
      ensures Valid() && history == old(history) + [Leaves(p)]
    {
      OneMore(history, Leaves(p));
      Leave(p, After(history), Epoch(history), Counted(history));
      history := history + [Leaves(p)];
    }

    method Leave(p: Packet, ghost phase: Phase, ghost sent: seq<Sequence>, ghost counted: nat)
      requires Shows(phase, sent, counted)
      modifies `synRequire, `synAcked, `finRequire, `connected, `initSequence, `lastSequence, `totalCollision
      ensures var e := Leaves(p);
              Shows(Handshake(phase, e), Sent(phase, sent, e), counted + Adds(phase, Open(phase, sent, e), e))
    {
      if p.tcp {
        if p.syn {
          synRequire, initSequence := true, false;
        }
        if p.fin {
          finRequire := true;
        }
        JudgePayload(p, if p.syn then [] else sent, counted);
        if synAcked {
          synAcked, synRequire, connected := false, false, true;
        }
      }
    }

    /** A packet with a payload, in a connection, is judged; other packets are not. */
    method JudgePayload(p: Packet, ghost sent: seq<Sequence>, ghost counted: nat)
      requires Tracks(sent, counted)
      modifies `initSequence, `lastSequence, `totalCollision
      ensures if connected && p.payload != 0
              then Tracks(sent + [p.number], counted + if NewerThanAll(p.number, sent) && (sent + [p.number])[0] != 0
                                                       then 0 else 1)
              else Tracks(sent, counted)
    {
      if connected && p.payload != 0 {
        Judge(p.number, sent, counted);
      }
    }

    /** The comparison with the last sequence number; sent is what the epoch has held so far, counted all that was. */
    method Judge(current: Sequence, ghost sent: seq<Sequence>, ghost counted: nat)
      requires modulus >= SEQUENCES
      requires initSequence <==> sent != []
      requires initSequence ==> Keeps(lastSequence, sent, modulus)
      requires totalCollision == counted % SEQUENCES
      modifies `initSequence, `lastSequence, `totalCollision
      ensures initSequence && Keeps(lastSequence, sent + [current], modulus)
      ensures totalCollision ==
              (counted + if NewerThanAll(current, sent) && (sent + [current])[0] != 0 then 0 else 1) % SEQUENCES
    {
      if !initSequence {
        initSequence := true;
        lastSequence := if current == 0 then modulus - 1 else current - 1;
      }
      if current <= lastSequence {
        totalCollision := if totalCollision + 1 == SEQUENCES then 0 else totalCollision + 1;
      } else {
        lastSequence := current;
      }
    }

    /** pre_hook_func. */
    method PreHook(p: Packet)
      requires Valid()
      modifies this
      ensures Valid() && history == old(history) + [Arrives(p)]
    {
      OneMore(history, Arrives(p));
      Arrive(p, After(history), Epoch(history), Counted(history));
      history := history + [Arrives(p)];
    }

    method Arrive(p: Packet, ghost phase: Phase, ghost sent: seq<Sequence>, ghost counted: nat)
      requires Shows(phase, sent, counted)
      modifies `synAcked, `finRequire, `connected, `initSequence
      ensures Shows(Handshake(phase, Arrives(p)), Sent(phase, sent, Arrives(p)), counted)
    {
      if p.tcp {
        if synRequire && p.syn {
          synAcked := true;
        }
        if finRequire && p.fin {
          finRequire, connected, initSequence := false, false, false;
        }
      }
    }
  }

  /** last_sequence is the greatest number of the epoch, unless the epoch began with 0. */
  predicate Keeps(last: int, sent: seq<Sequence>, modulus: int) {
    sent != [] &&
    if sent[0] == 0 then last == modulus - 1
    else last in sent && forall k :: 0 <= k < |sent| ==> sent[k] <= last
  }

  /**
   The counter after any history: right exactly when the miscounted packets are a multiple of 2^32, so
   certainly when no epoch starts at sequence number 0; and wrong after the first epoch that does, until
   2^32 packets have been miscounted.
   */
  lemma DetectorCounts(d: Detector)
    requires d.Valid()
    ensures d.totalCollision == Collisions(d.history) % SEQUENCES <==> Miscounted(d.history) % SEQUENCES == 0
    ensures !StartsAtZero(d.history) ==> d.totalCollision == Collisions(d.history) % SEQUENCES
    ensures StartsAtZero(d.history) && Miscounted(d.history) < SEQUENCES ==>
              d.totalCollision != Collisions(d.history) % SEQUENCES
    ensures d.synAcked ==> d.synRequire
    ensures d.initSequence ==> d.connected
  {
    MiscountsOnlyFromZero(d.history);
    PhasesAreOrdered(d.history);
  }
}
