/** The class of tb/lr1/lr1_ltssm.py, each method against LtssmSpec. */
module Ltssm {
  import opened Common
  import opened Symbols
  import opened LtssmSpec
  import Rx = StreamSpec

  class Machine {
    const k: Knobs
    var state: State
    var entered: int
    var now: int
    var link: Num
    var lane: Num
    var linkup: bool
    var idleToRlock: bool
    var consec: seq<TsFields>
    var tsSent: nat
    var rxOne: bool
    var rxOk: bool
    var sentAfterRx: int
    var eiSeenAt: Option<int>
    var lnwaitReady: Option<int>
    var lwLeft: Option<int>
    var recHold: int

    ghost function Fields(): Core
      reads this
    {
      Core(state, entered, now, link, lane, linkup, idleToRlock, tsSent, rxOne, rxOk, sentAfterRx,
           eiSeenAt, lnwaitReady, lwLeft, recHold)
    }

    /** The history after a method that may have left state `st`. */
    ghost predicate Kept(st: State, before: seq<TsFields>)
      reads this
    {
      consec == if state == st then before else []
    }

    constructor (k: Knobs)
      ensures Port(Fields(), consec) == START && this.k == k
    {
      this.k := k;
      state, entered, now, link, lane, linkup, idleToRlock := DETECT, 0, 0, Pad, Pad, false, false;
      consec, tsSent, rxOne, rxOk, sentAfterRx := [], 0, false, false, 0;
      eiSeenAt, lnwaitReady, lwLeft, recHold := None, None, None, 0;
    }

    method Goto(st: State, cycle: int)
      modifies this
      ensures Fields() == LtssmSpec.Goto(old(Fields()), st, cycle)
      ensures Kept(old(state), old(consec))
    {
      if st == state { return; }
      state, entered := st, cycle;
      ClearEntry();
      if st != REC_LOCK { recHold := 0; }
      SetLink(st);
    }

    method SetLink(st: State)
      modifies `linkup, `link, `lane
      ensures linkup == (st == CFG_IDLE || (st != DETECT && old(linkup)))
      ensures (link, lane) == if st == DETECT then (Pad, Pad) else (old(link), old(lane))
    {
      if st == CFG_IDLE { linkup := true; }
      if st == DETECT {
        linkup := false;
        link, lane := Pad, Pad;
      }
    }

    method ClearEntry()
      modifies `consec, `tsSent, `rxOne, `rxOk, `sentAfterRx, `lnwaitReady, `lwLeft
      ensures consec == [] && tsSent == 0 && !rxOne && !rxOk && sentAfterRx == 0
      ensures lnwaitReady == None && lwLeft == None
    {
      consec, tsSent, rxOne, sentAfterRx := [], 0, false, 0;
      lnwaitReady, lwLeft, rxOk := None, None, false;
    }

    method OnEvent(ev: Rx.Event, cycle: int)
      modifies this
      ensures Port(Fields(), consec) == LtssmSpec.OnEvent(k, Port(old(Fields()), old(consec)), ev, cycle, true)
    {
      match ev
      case SkpEv(_) =>
      case Idle8 =>
      case TsEv(e) => HearTs(e, cycle);
      case _ => consec := [];
    }

    method HearTs(e: TsFields, cycle: int)
      modifies this
      ensures Port(Fields(), consec) == LtssmSpec.HearTs(k, Port(old(Fields()), old(consec)), e, cycle, true)
    {
      consec := consec + [e];
      if |consec| > 32 { consec := consec[|consec| - 16..]; }
      Decide(e, Window(consec, 2), Window(consec, RX_CONSECUTIVE_TS), cycle);
    }

    method Decide(e: TsFields, w2: seq<TsFields>, w8: seq<TsFields>, cycle: int)
      modifies this
      ensures Fields() == LtssmSpec.Decide(k, old(Fields()), e, w2, w8, cycle)
      ensures if old(state) == L0 then consec == [e] else Kept(old(state), old(consec))
    {
      match state
      case POLL_ACTIVE => if AllPoll(w8) { rxOk := true; }
      case POLL_CONFIG =>
        if !e.ts1 && IsPad(e) { rxOne := true; }
        if AllPadTs2(w8) { rxOk := true; }
      case CFG_LW_START => HearLinkNumber(w2, cycle);
      case CFG_LW_ACCEPT => HearLaneNumber(w2, cycle);
      case CFG_LN_WAIT =>
        if AllPadTs1(w2) { Goto(DETECT, cycle); }
        else if AllTs2(w2) || AllOtherLane(w2, lane) { lnwaitReady := Some(cycle); }
      case CFG_LN_ACCEPT =>
        if AllMatchTs2(w2, link, lane) { Goto(CFG_COMPLETE, cycle); }
        else if AllPadTs1(w2) { Goto(DETECT, cycle); }
      case CFG_COMPLETE =>
        if !e.ts1 { rxOne := true; }
        if AllMatchTs2(w8, link, lane) && OneRate(w8) { rxOk := true; }
      case L0 =>
        Goto(REC_LOCK, cycle);
        consec := [e];
      case REC_LOCK =>
        if AllMatchSlow(w8, link, lane) && cycle - entered >= recHold { Goto(REC_CFG, cycle); }
      case REC_CFG => HearInRecovery(e, w8, cycle);
      case REC_IDLE => if AllLanePad(w2) { Goto(CFG_LW_START, cycle); }
      case DETECT =>
      case CFG_IDLE =>
    }

    method HearLinkNumber(w2: seq<TsFields>, cycle: int)
      modifies this
      ensures Fields() == LwStart(k, old(Fields()), w2, cycle)
      ensures Kept(old(state), old(consec))
    {
      if lwLeft == None && AllNumbered(w2) && |w2| == 2 && w2[0].link == w2[1].link {
        link := w2[1].link;
        if k.cfgLwExtraTs1 != 0 {
          lwLeft := Some(k.cfgLwExtraTs1);
        } else {
          Goto(CFG_LW_ACCEPT, cycle);
        }
      }
    }

    method HearLaneNumber(w2: seq<TsFields>, cycle: int)
      modifies this
      ensures Fields() == LwAccept(old(Fields()), w2, cycle)
      ensures Kept(old(state), old(consec))
    {
      if AllPadTs1(w2) {
        Goto(DETECT, cycle);
      } else if AllLaned(w2, link) && |w2| == 2 && w2[0].lane == w2[1].lane {
        lane := w2[1].lane;
        Goto(CFG_LN_WAIT, cycle);
      }
    }

    method HearInRecovery(e: TsFields, w8: seq<TsFields>, cycle: int)
      modifies this
      ensures Fields() == RecCfg(old(Fields()), e, w8, cycle)
      ensures Kept(old(state), old(consec))
    {
      if !e.ts1 { rxOne := true; }
      if AllMatchTs2(w8, link, lane) {
        rxOk := true;
      } else if AllForeignTs1(w8, link, lane) {
        Goto(CFG_LW_START, cycle);
      }
    }

    method Direct(cycle: int, hold: int)
      modifies this
      ensures Fields() == LtssmSpec.Direct(old(Fields()), cycle, hold)
      ensures Kept(old(state), old(consec))
    {
      if state == L0 {
        recHold := hold;
        Goto(REC_LOCK, cycle);
      }
    }

    method Advance(cycle: int)
      modifies this
      ensures Fields() == LtssmSpec.Advance(k, old(Fields()), cycle)
      ensures Kept(old(state), old(consec))
    {
      var next := Exit(state);
      if next == None || !rxOk { return; }
      var sent := if state == POLL_ACTIVE then tsSent >= k.pollTs1Min
                  else if state == CFG_IDLE || state == REC_IDLE then sentAfterRx >= k.idleAfterRx
                  else sentAfterRx >= k.ts2AfterRx;
      if sent { Goto(next.value, cycle); }
    }

    method Detect(cycle: int, ei: bool)
      modifies this
      ensures Fields() == LtssmSpec.Detect(k, old(Fields()), cycle, ei)
      ensures Kept(old(state), old(consec))
    {
      if ei {
        if eiSeenAt == None { eiSeenAt := Some(cycle); }
        if cycle - eiSeenAt.value >= k.detectDelay { Goto(POLL_ACTIVE, cycle); }
      } else {
        eiSeenAt := None;
      }
    }

    method Expire(cycle: int)
      modifies this
      ensures Fields() == LtssmSpec.Expire(old(Fields()), old(consec) != [], cycle)
      ensures Kept(old(state), old(consec))
    {
      var t := Timeout(state);
      if t.Some? && cycle - entered >= t.value {
        if IdleState(state) && !idleToRlock {
          idleToRlock := true;
          Goto(REC_LOCK, cycle);
        } else if state == REC_LOCK && consec != [] {
          Goto(CFG_LW_START, cycle);
        } else {
          Goto(DETECT, cycle);
        }
      }
    }

    method Tick(cycle: int, ei: bool, run: nat)
      modifies this
      ensures Fields() == LtssmSpec.Tick(k, old(Fields()), old(consec) != [], cycle, ei, run)
      ensures Kept(old(state), old(consec))
    {
      now := cycle;
      var st := state;
      if st == DETECT {
        Detect(cycle, ei);
        return;
      }
      if st == CFG_LN_WAIT && lnwaitReady != None && cycle - entered >= k.lanenumWaitCycles {
        Goto(CFG_LN_ACCEPT, cycle);
        return;
      }
      SeeIdle(run);
      Advance(cycle);
      if state == st { Expire(cycle); }
    }

    method SeeIdle(run: nat)
      modifies `rxOne, `rxOk
      ensures Fields() == LtssmSpec.SeeIdle(old(Fields()), run)
    {
      if state == CFG_IDLE || state == REC_IDLE {
        if run >= 1 { rxOne := true; }
        if run >= RX_CONSECUTIVE_IDLE { rxOk := true; }
      }
    }

    method SendTs(ident: Byte, ln: Num, la: Num) returns (u: Option<seq<Sym>>)
      modifies this`tsSent, this`sentAfterRx
      ensures (Fields(), u) == LtssmSpec.SendTs(k, old(Fields()), ident, ln, la)
    {
      tsSent := tsSent + 1;
      if rxOne && ident == TS2_ID { sentAfterRx := sentAfterRx + 1; }
      u := Some(Ts(ident, ln, la, k.nFts, k.rateId, 0));
    }

    method NextUnit() returns (u: Option<seq<Sym>>)
      modifies this
      ensures (Fields(), u) == LtssmSpec.NextUnit(k, old(Fields()))
      ensures Kept(old(state), old(consec))
    {
      match state
      case POLL_ACTIVE => u := SendTs(TS1_ID, Pad, Pad);
      case POLL_CONFIG => u := SendTs(TS2_ID, Pad, Pad);
      case CFG_LW_START =>
        if lwLeft != None {
          var left := lwLeft.value - 1;
          if left <= 0 {
            Goto(CFG_LW_ACCEPT, now);
            u := SendTs(TS1_ID, link, Pad);
            return;
          }
          lwLeft := Some(left);
        }
        u := SendTs(TS1_ID, Pad, Pad);
      case CFG_LW_ACCEPT => u := SendTs(TS1_ID, link, Pad);
      case CFG_LN_WAIT | CFG_LN_ACCEPT | REC_LOCK => u := SendTs(TS1_ID, link, lane);
      case CFG_COMPLETE | REC_CFG => u := SendTs(TS2_ID, link, lane);
      case DETECT | CFG_IDLE | L0 | REC_IDLE => u := None;
    }

    method IdleSent(n: nat)
      modifies this`sentAfterRx
      ensures Fields() == LtssmSpec.IdleSent(old(Fields()), n)
    {
      if (state == CFG_IDLE || state == REC_IDLE) && rxOne { sentAfterRx := sentAfterRx + n; }
    }
  }
}
