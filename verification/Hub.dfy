/**
 The hub's accounts of who transmits, who has to wait, and how long the air is idle.
 */
module Hub {
  import opened Wrappers

  const R_BITRATE := 8
  const TERMINAL0 := 0xa2a00df    // 10.42.0.223
  const TERMINAL1 := 0xa2a00d9    // 10.42.0.217
  const TERMINAL2 := 0xa2a00be    // 10.42.0.190
  const TIMER_INTERVAL := 500

  datatype Tbi = Tbi(t: Word, b: Word, i: Word)

  datatype Packet = Packet(tcp: bool, source: nat, dataLen: nat)

  // ---------- what the accounts should say ----------

  /** One transmission: by which terminal, and for how many ticks. */
  datatype Transmission = Transmission(sender: nat, ticks: Word)

  function TicksOf(log: seq<Transmission>, terminal: nat): nat {
    if log == [] then 0
    else TicksOf(log[..|log| - 1], terminal) + if log[|log| - 1].sender == terminal then log[|log| - 1].ticks else 0
  }

  function AllTicks(log: seq<Transmission>): nat {
    if log == [] then 0 else AllTicks(log[..|log| - 1]) + log[|log| - 1].ticks
  }

  lemma {:induction false} ThreeTerminalsMakeAll(log: seq<Transmission>)
    requires forall k :: 0 <= k < |log| ==> log[k].sender < 3
    ensures TicksOf(log, 0) + TicksOf(log, 1) + TicksOf(log, 2) == AllTicks(log)
  {
    if log != [] {
      ThreeTerminalsMakeAll(log[..|log| - 1]);
    }
  }

  /** x is n as far as a word can tell. */
  predicate Tells(x: Word, n: nat) {
    x == n % ULONG
  }

  lemma AddTells(x: Word, n: nat, y: Word, m: nat)
    requires Tells(x, n) && Tells(y, m)
    ensures Tells(AddWords(x, y), n + m)
  {
  }

  lemma SubtractTells(x: Word, n: nat, y: Word, m: nat)
    requires Tells(x, n) && Tells(y, m) && m <= n
    ensures Tells(SubtractWords(x, y), n - m)
  {
  }

  /** A terminal's record, from what has been sent and how many idle ticks were seen. */
  ghost predicate IsRecord(r: Tbi, log: seq<Transmission>, terminal: nat, idle: nat) {
    && Tells(r.t, TicksOf(log, terminal))
    && TicksOf(log, terminal) <= AllTicks(log)
    && Tells(r.b, AllTicks(log) - TicksOf(log, terminal))
    && Tells(r.i, idle)
  }

  /** A terminal transmits, or waits while another does. */
  function Charged(r: Tbi, own: bool, ticks: Word): Tbi {
    if own then r.(t := AddWords(r.t, ticks)) else r.(b := AddWords(r.b, ticks))
  }

  lemma RecordAfter(r: Tbi, log: seq<Transmission>, terminal: nat, idle: nat, more: Transmission)
    requires IsRecord(r, log, terminal, idle)
    ensures IsRecord(Charged(r, more.sender == terminal, more.ticks), log + [more], terminal, idle)
  {
    assert (log + [more])[..|log|] == log;
    if more.sender == terminal {
      AddTells(r.t, TicksOf(log, terminal), more.ticks, more.ticks);
    } else {
      AddTells(r.b, AllTicks(log) - TicksOf(log, terminal), more.ticks, more.ticks);
    }
  }

  // ---------- the module ----------

  class Monitor {
    const tbi: array<Tbi>
    const msecsToJiffies: nat -> Word
    var lastJiffies: Word
    var timerExpires: Word

    var now: nat                 // ticks on a clock that does not wrap
    ghost var start: nat
    ghost var lastTick: nat      // when lastJiffies was read
    ghost var idle: nat          // ticks counted as idle
    ghost var missed: nat        // ticks between the two or three looks at the clock that one update takes
    ghost var log: seq<Transmission>

    ghost predicate Valid()
      reads this, tbi
    {
      && tbi.Length == 3
      && (forall k :: 0 <= k < |log| ==> log[k].sender < 3)
      && Tells(lastJiffies, lastTick) && start <= lastTick <= now
      && idle + missed == lastTick - start
      && IsRecord(tbi[0], log, 0, idle) && IsRecord(tbi[1], log, 1, idle) && IsRecord(tbi[2], log, 2, idle)
    }

    /** Ticks go missing only while an update runs. */
    twostate predicate OnlyMissesItsOwnTime()
      reads this
    {
      0 <= missed - old(missed) <= now - old(now)
    }

    /** jiffies: any number of ticks may have passed. */
    method ReadJiffies() returns (jiffies: Word)
      modifies `now
      ensures now >= old(now) && Tells(jiffies, now)
    {
      var passed: nat :| true;
      now := now + passed;
      jiffies := now % ULONG;
    }

    /** init_hello. */
    constructor (msecsToJiffies: nat -> Word, now: nat)
      ensures Valid() && fresh(tbi) && log == [] && idle == 0 && missed == 0
      ensures this.msecsToJiffies == msecsToJiffies
    {
      this.msecsToJiffies := msecsToJiffies;
      lastJiffies := now % ULONG;
      this.now := now;
      start, lastTick, idle, missed, log := now, now, 0, 0, [];
      timerExpires := 0;
      tbi := new Tbi[3](_ => Tbi(0, 0, 0));
      new;
      var jiffies := ReadJiffies();
      timerExpires := AddWords(jiffies, msecsToJiffies(TIMER_INTERVAL));
    }

    /** update_tbi_idle: it looks at the clock once for the difference, and again for where to start next time. */
    method UpdateTbiIdle()
      requires Valid()
      modifies `lastJiffies, `now, `lastTick, `idle, `missed, tbi
      ensures Valid() && OnlyMissesItsOwnTime() && lastTick == now
    {
      var jiffies := ReadJiffies();
      var idleTime := SubtractWords(jiffies, lastJiffies);
      SubtractTells(jiffies, now, lastJiffies, lastTick);
      ghost var read := now;
      ghost var more := now - lastTick;
      AddTells(tbi[0].i, idle, idleTime, more);
      AddTells(tbi[1].i, idle, idleTime, more);
      AddTells(tbi[2].i, idle, idleTime, more);
      tbi[0] := tbi[0].(i := AddWords(tbi[0].i, idleTime));
      tbi[1] := tbi[1].(i := AddWords(tbi[1].i, idleTime));
      tbi[2] := tbi[2].(i := AddWords(tbi[2].i, idleTime));
      lastJiffies := ReadJiffies();
      idle, missed, lastTick := idle + more, missed + (now - read), now;
    }

    /** The middle of update_tbi: one terminal transmits, the other two are busy waiting. */
    method Charge(terminal: nat, transmitTime: Word)
      requires tbi.Length == 3 && terminal < 3
      modifies tbi
      ensures tbi[0] == Charged(old(tbi[0]), terminal == 0, transmitTime)
      ensures tbi[1] == Charged(old(tbi[1]), terminal == 1, transmitTime)
      ensures tbi[2] == Charged(old(tbi[2]), terminal == 2, transmitTime)
    {
      if terminal == 0 {
        tbi[0] := tbi[0].(t := AddWords(tbi[0].t, transmitTime));
        tbi[1] := tbi[1].(b := AddWords(tbi[1].b, transmitTime));
        tbi[2] := tbi[2].(b := AddWords(tbi[2].b, transmitTime));
      } else if terminal == 1 {
        tbi[0] := tbi[0].(b := AddWords(tbi[0].b, transmitTime));
        tbi[1] := tbi[1].(t := AddWords(tbi[1].t, transmitTime));
        tbi[2] := tbi[2].(b := AddWords(tbi[2].b, transmitTime));
      } else if terminal == 2 {
        tbi[0] := tbi[0].(b := AddWords(tbi[0].b, transmitTime));
        tbi[1] := tbi[1].(b := AddWords(tbi[1].b, transmitTime));
        tbi[2] := tbi[2].(t := AddWords(tbi[2].t, transmitTime));
      }
    }

    /** update_tbi. */
    method UpdateTbi(terminal: nat, transmitTime: Word)
      requires Valid() && terminal < 3
      modifies `lastJiffies, `now, `lastTick, `idle, `missed, `log, tbi
      ensures Valid() && OnlyMissesItsOwnTime()
      ensures log == old(log) + [Transmission(terminal, transmitTime)]
    {
      UpdateTbiIdle();
      ghost var more := Transmission(terminal, transmitTime);
      RecordAfter(tbi[0], log, 0, idle, more);
      RecordAfter(tbi[1], log, 1, idle, more);
      RecordAfter(tbi[2], log, 2, idle, more);
      Charge(terminal, transmitTime);
      log := log + [more];
      lastJiffies := ReadJiffies();
      missed, lastTick := missed + (now - lastTick), now;
    }

    /** hook_func. */
    method Hook(p: Packet)
      requires Valid()
      modifies `lastJiffies, `now, `lastTick, `idle, `missed, `log, tbi
      ensures Valid() && OnlyMissesItsOwnTime()
      ensures var ticks := msecsToJiffies(p.dataLen / R_BITRATE);
              && (p.tcp && p.source == TERMINAL0 ==> log == old(log) + [Transmission(0, ticks)])
              && (p.tcp && p.source == TERMINAL1 ==> log == old(log) + [Transmission(1, ticks)])
              && (p.tcp && p.source == TERMINAL2 ==> log == old(log) + [Transmission(2, ticks)])
      ensures !p.tcp || (p.source != TERMINAL0 && p.source != TERMINAL1 && p.source != TERMINAL2) ==>
        log == old(log) && now == old(now) && lastJiffies == old(lastJiffies) && tbi[..] == old(tbi[..])
    {
      if p.tcp {
        var transmitTime := msecsToJiffies(p.dataLen / R_BITRATE);
        if p.source == TERMINAL0 {
          UpdateTbi(0, transmitTime);
        } else if p.source == TERMINAL1 {
          UpdateTbi(1, transmitTime);
        } else if p.source == TERMINAL2 {
          UpdateTbi(2, transmitTime);
        }
      }
    }

    /** timer_handler. */
    method TimerHandler()
      requires Valid()
      modifies `lastJiffies, `now, `lastTick, `idle, `missed, `timerExpires, tbi
      ensures Valid() && OnlyMissesItsOwnTime()
      ensures exists tick: nat :: old(now) <= tick <= now &&
                timerExpires == AddWords(tick % ULONG, msecsToJiffies(TIMER_INTERVAL))
    {
      UpdateTbiIdle();
      var jiffies := ReadJiffies();
      timerExpires := AddWords(jiffies, msecsToJiffies(TIMER_INTERVAL));
    }
  }

  /** Whatever packets and timer ticks have come in whatever order: what the three records say of each other. */
  lemma AccountsBalance(m: Monitor)
    requires m.Valid()
    ensures var sent := AddWords(AddWords(m.tbi[0].t, m.tbi[1].t), m.tbi[2].t);
            && Tells(sent, AllTicks(m.log))
            && AddWords(m.tbi[0].t, m.tbi[0].b) == sent
            && AddWords(m.tbi[1].t, m.tbi[1].b) == sent
            && AddWords(m.tbi[2].t, m.tbi[2].b) == sent
    ensures m.tbi[0].i == m.tbi[1].i == m.tbi[2].i
    ensures AddWords(m.tbi[0].i, m.missed % ULONG) == SubtractWords(m.lastJiffies, m.start % ULONG)
  {
    var log := m.log;
    ThreeTerminalsMakeAll(log);
    AddTells(m.tbi[0].t, TicksOf(log, 0), m.tbi[1].t, TicksOf(log, 1));
    AddTells(AddWords(m.tbi[0].t, m.tbi[1].t), TicksOf(log, 0) + TicksOf(log, 1), m.tbi[2].t, TicksOf(log, 2));
    AddTells(m.tbi[0].t, TicksOf(log, 0), m.tbi[0].b, AllTicks(log) - TicksOf(log, 0));
    AddTells(m.tbi[1].t, TicksOf(log, 1), m.tbi[1].b, AllTicks(log) - TicksOf(log, 1));
    AddTells(m.tbi[2].t, TicksOf(log, 2), m.tbi[2].b, AllTicks(log) - TicksOf(log, 2));
    AddTells(m.tbi[0].i, m.idle, m.missed % ULONG, m.missed);
    SubtractTells(m.lastJiffies, m.lastTick, m.start % ULONG, m.start);
  }
}
