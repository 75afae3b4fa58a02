/** The receiver as the object it is in tb/lr1/lr1_rx.py. `events` is what its
    listeners are told. */
module Stream {
  import opened Common
  import opened Symbols
  import Scr = Scrambler
  import opened StreamSpec

  class RcStream {
    const rx: Scr.RxDescrambler
    var locked: bool
    var mode: Mode
    var buf: seq<Sym>
    var plain: seq<Byte>
    var idleRun: nat
    var events: seq<Event>

    ghost function State(): Reader
      reads this, rx, rx.core
    {
      Reader(rx.State(), locked, mode, buf, plain, idleRun)
    }

    constructor ()
      ensures State() == START && events == [] && fresh(rx) && fresh(rx.core)
    {
      rx := new Scr.RxDescrambler();
      locked, mode, buf, plain, idleRun, events := false, IDLE, [], [], 0, [];
    }

    method Emit(ev: Event)
      modifies `events
      ensures events == old(events) + [ev]
    {
      events := events + [ev];
    }

    method EndIdle()
      modifies `idleRun, `events
      ensures State() == StreamSpec.EndIdle(old(State())).0
      ensures events == old(events) + StreamSpec.EndIdle(old(State())).1
    {
      if idleRun > 0 {
        Emit(IdleRun(idleRun));
        idleRun := 0;
      }
    }

    method Begin(mode: Mode, s: Sym)
      modifies `mode, `buf, `plain
      ensures State() == StreamSpec.Begin(old(State()), mode, s)
    {
      this.mode := mode;
      buf := [s];
      plain := [];
    }

    method Feed(s: Sym)
      modifies this, rx, rx.core
      ensures State() == StreamSpec.Feed(old(State()), s).0
      ensures events == old(events) + StreamSpec.Feed(old(State()), s).1
    {
      var p, inTs := rx.Feed(s);
      if !locked {
        if s.k && s.b == COM {
          locked := true;
        } else {
          return;
        }
      }
      Step(s, p);
    }

    method Step(s: Sym, p: Byte)
      modifies `mode, `buf, `plain, `idleRun, `events
      ensures State() == StreamSpec.Step(old(State()), s, p).0
      ensures events == old(events) + StreamSpec.Step(old(State()), s, p).1
    {
      match mode
      case IDLE => Dispatch(s, p);
      case OS => OsStep(s, p);
      case DLLP => DllpStep(s, p);
      case TLP => TlpStep(s, p);
    }

    method DllpStep(s: Sym, p: Byte)
      modifies `mode, `buf, `plain, `idleRun, `events
      ensures State() == StreamSpec.DllpStep(old(State()), s, p).0
      ensures events == old(events) + StreamSpec.DllpStep(old(State()), s, p).1
    {
      if s.k {
        if s.b == END && |plain| == 6 {
          Emit(DllpEv(plain));
          mode := IDLE;
          return;
        }
        Resume(FrameErr(DllpBroken(s.b, |plain|)), s, p);
        return;
      }
      plain := plain + [p];
      if |plain| > 6 {
        Emit(FrameErr(DllpLong));
        mode := IDLE;
      }
    }

    method TlpStep(s: Sym, p: Byte)
      modifies `mode, `buf, `plain, `idleRun, `events
      ensures State() == StreamSpec.TlpStep(old(State()), s, p).0
      ensures events == old(events) + StreamSpec.TlpStep(old(State()), s, p).1
    {
      if s.k {
        if s.b == END || s.b == EDB {
          Emit(TlpEv(plain, s.b == EDB));
          mode := IDLE;
          return;
        }
        Resume(FrameErr(TlpBroken(s.b, |plain|)), s, p);
        return;
      }
      plain := plain + [p];
      if |plain| > MAX_PLAIN {
        Emit(FrameErr(TlpLong));
        mode := IDLE;
      }
    }

    /** Reports the end of the unit in progress and starts over with `s`. */
    method Resume(ev: Event, s: Sym, p: Byte)
      modifies `mode, `buf, `plain, `idleRun, `events
      ensures State() == StreamSpec.Resume(old(State()), ev, s, p).0
      ensures events == old(events) + StreamSpec.Resume(old(State()), ev, s, p).1
    {
      Emit(ev);
      mode := IDLE;
      Dispatch(s, p);
    }

    method Dispatch(s: Sym, p: Byte)
      modifies `mode, `buf, `plain, `idleRun, `events
      ensures State() == StreamSpec.Dispatch(old(State()), s, p).0
      ensures events == old(events) + StreamSpec.Dispatch(old(State()), s, p).1
    {
      if !s.k {
        idleRun := idleRun + 1;
        if p != 0 { Emit(IdleBad(p)); }
        if idleRun == 8 { Emit(Idle8); }
        return;
      }
      EndIdle();
      if s.b == COM {
        Begin(OS, s);
      } else if s.b == STP {
        Begin(TLP, s);
      } else if s.b == SDP {
        Begin(DLLP, s);
      } else {
        Emit(FrameErr(Stray(s.b)));
      }
    }

    method OsStep(s: Sym, p: Byte)
      modifies `mode, `buf, `plain, `idleRun, `events
      ensures State() == StreamSpec.OsStep(old(State()), s, p).0
      ensures events == old(events) + StreamSpec.OsStep(old(State()), s, p).1
    {
      buf := buf + [s];
      if |buf| < 2 { return; }
      var s1 := buf[1];
      if s1 == K(SKP) {
        SkpStep(s, p);
      } else if s1 == K(IDL) || s1 == K(FTS) {
        RepeatStep(s1.b, s, p);
      } else {
        TsStep(s, p);
      }
    }

    method SkpStep(s: Sym, p: Byte)
      modifies `mode, `buf, `plain, `idleRun, `events
      ensures State() == StreamSpec.SkpStep(old(State()), s, p).0
      ensures events == old(events) + StreamSpec.SkpStep(old(State()), s, p).1
    {
      if s == K(SKP) && |buf| <= 1 + SKP_RX_MAX { return; }
      if s == K(SKP) {
        Emit(FrameErr(SkpLong));
        mode := IDLE;
        return;
      }
      Resume(SkpEv(if |buf| >= 2 then |buf| - 2 else 0), s, p);
    }

    method RepeatStep(want: Byte, s: Sym, p: Byte)
      requires |buf| > 0
      modifies `mode, `buf, `plain, `idleRun, `events
      ensures State() == StreamSpec.RepeatStep(old(State()), want, s, p).0
      ensures events == old(events) + StreamSpec.RepeatStep(old(State()), want, s, p).1
    {
      if s != K(want) && |buf| <= 4 {
        Resume(FrameErr(OsBroken(want, |buf| - 1)), s, p);
        return;
      }
      if |buf| == 4 {
        Emit(if want == IDL then EiosEv else FtsEv);
        mode := IDLE;
      }
    }

    method TsStep(s: Sym, p: Byte)
      requires |buf| > 0
      modifies `mode, `buf, `plain, `idleRun, `events
      ensures State() == StreamSpec.TsStep(old(State()), s, p).0
      ensures events == old(events) + StreamSpec.TsStep(old(State()), s, p).1
    {
      var pos := |buf| - 1;
      var bad := (s.k && s.b == COM) || (s.k && !((pos == 1 || pos == 2) && s.b == PAD));
      if bad {
        Resume(OsBad(buf[..pos]), s, p);
        return;
      }
      if |buf| == TS_LEN {
        var f := ParseTs(buf);
        Emit(if f.None? then OsBad(buf) else TsEv(f.value));
        mode := IDLE;
      }
    }
  }
}
