/** Flow-control safety between two Data Link Layers: the modular credit gate of
    can_send decides as unbounded counters would, and no receiver ever records
    an overflow. */
module LinkCredits {
  import opened Common
  import opened DllTypes
  import Spec = DllSpec
  import opened Link
  import opened LinkLocal
  import opened LinkSafety

  /** The credits of type `t` that a list of TLPs costs, unbounded. */
  function Used(s: seq<Tlp>, t: FcType): Credit
    decreases |s|
  {
    if s == [] then ZERO
    else
      var u := Used(s[..|s| - 1], t);
      var last := s[|s| - 1];
      if last.fc == t then Credit(u.h + 1, u.d + last.data) else u
  }

  function Mod(c: Credit): Credit { Credit(c.h % HDR_MOD, c.d % DATA_MOD) }

  /** Credits granted so far: the advertisement plus everything released. A
      component advertised as 0 is infinite and stays 0. */
  function Granted(adv: Credit, used: Credit): Credit {
    Credit(if adv.h == 0 then 0 else adv.h + used.h, if adv.d == 0 then 0 else adv.d + used.d)
  }

  /** Section 2.6.1: at most 127 header and 2047 data credits are advertised. */
  predicate LegalAdv(k: Knobs) {
    forall t: FcType :: 0 <= k.adv.Get(t).h <= 127 && 0 <= k.adv.Get(t).d <= 2047
  }

  lemma UsedMore(s: seq<Tlp>, x: Tlp, t: FcType)
    ensures Used(s + [x], t) == if x.fc == t then Credit(Used(s, t).h + 1, Used(s, t).d + x.data) else Used(s, t)
  {
    assert (s + [x])[..|s|] == s;
  }

  lemma {:induction false} UsedGrows(s: seq<Tlp>, n: nat, t: FcType)
    requires n <= |s|
    ensures 0 <= Used(s[..n], t).h <= Used(s, t).h && 0 <= Used(s[..n], t).d <= Used(s, t).d
    decreases |s|
  {
    if s != [] {
      var r := s[..|s| - 1];
      if n < |s| {
        UsedGrows(r, n, t);
        assert r[..n] == s[..n];
      } else {
        UsedGrows(r, |r|, t);
        assert s[..n] == s && r[..|r|] == r;
      }
    } else {
      assert s[..n] == s;
    }
  }

  lemma AccountPut(a: Account, t: FcType, c: Credit)
    ensures forall u: FcType :: a.Put(t, c).Get(u) == if u == t then c else a.Get(u)
  {
  }

  /** Adding credits commutes with taking residues. */
  lemma AddModOk(c: Credit, h: int, d: int)
    ensures Spec.AddMod(Mod(c), h, d) == Mod(Credit(c.h + h, c.d + d))
  {
  }

  // ------------------------------------------------------ accounts of one end

  predicate AccountsOk(k: Knobs, f: Flow, sent: seq<Tlp>, got: seq<Tlp>) {
    forall t: FcType ::
      && f.consumed.Get(t) == Mod(Used(sent, t))
      && f.rcvd.Get(t) == Mod(Used(got, t))
      && f.alloc.Get(t) == Mod(Granted(k.adv.Get(t), Used(got, t)))
  }

  lemma ConsumeRelease(k: Knobs, d: DllState, x: Tlp, sent: seq<Tlp>, got: seq<Tlp>)
    requires AccountsOk(k, d.flow, sent, got)
    ensures AccountsOk(k, Spec.Release(k, Spec.Consume(k, d, x), x).flow, sent, got + [x])
  {
    var f1 := Spec.Release(k, Spec.Consume(k, d, x), x).flow;
    ReleaseAdds(k, d, x);
    forall u: FcType
      ensures f1.rcvd.Get(u) == Mod(Used(got + [x], u))
      ensures f1.alloc.Get(u) == Mod(Granted(k.adv.Get(u), Used(got + [x], u)))
    {
      var adv := k.adv.Get(u);
      UsedMore(got, x, u);
      AddModOk(Used(got, u), 1, x.data);
      AddModOk(Granted(adv, Used(got, u)), if adv.h != 0 then 1 else 0, if adv.d != 0 then x.data else 0);
    }
  }

  /** What counting and releasing one TLP adds to the accounts. */
  lemma ReleaseAdds(k: Knobs, d: DllState, x: Tlp)
    ensures var f, f1 := d.flow, Spec.Release(k, Spec.Consume(k, d, x), x).flow; var adv := k.adv.Get(x.fc);
      && f1.consumed == f.consumed
      && (forall u: FcType | u != x.fc :: f1.rcvd.Get(u) == f.rcvd.Get(u) && f1.alloc.Get(u) == f.alloc.Get(u))
      && f1.rcvd.Get(x.fc) == Spec.AddMod(f.rcvd.Get(x.fc), 1, x.data)
      && (if Infinite(adv) then f1.alloc.Get(x.fc) == f.alloc.Get(x.fc)
          else f1.alloc.Get(x.fc) == Spec.AddMod(f.alloc.Get(x.fc), if adv.h != 0 then 1 else 0,
                                                 if adv.d != 0 then x.data else 0))
  {
  }

  lemma SpendOk(k: Knobs, f: Flow, x: Tlp, sent: seq<Tlp>, got: seq<Tlp>)
    requires AccountsOk(k, f, sent, got)
    ensures AccountsOk(k, Spec.Spend(f, x), sent + [x], got)
  {
    AddModOk(Used(sent, x.fc), 1, x.data);
    AccountPut(f.consumed, x.fc, Spec.Spend(f, x).consumed.Get(x.fc));
    forall u: FcType
      ensures Used(sent + [x], u) ==
              if u == x.fc then Credit(Used(sent, u).h + 1, Used(sent, u).d + x.data) else Used(sent, u)
    {
      UsedMore(sent, x, u);
    }
  }

  // -------------------------------------------------------- the credit gate

  lemma HdrShift(r: int, m: int)
    ensures r % HDR_MOD == (r + HDR_MOD * m) % HDR_MOD
  {
  }

  lemma HdrDiff(x: int, y: int, z: int)
    ensures (x % HDR_MOD - (y % HDR_MOD + z)) % HDR_MOD == (x - y - z) % HDR_MOD
  {
    HdrShift(x % HDR_MOD - y % HDR_MOD - z, x / HDR_MOD - y / HDR_MOD);
  }

  /** With less than half the number space granted but unused, the modular test
      of can_send on header credits is the unbounded comparison. */
  lemma HeaderGate(limit: int, used: int)
    requires used <= limit < used + HDR_MOD / 2
    ensures (limit % HDR_MOD - (used % HDR_MOD + 1)) % HDR_MOD <= HDR_MOD / 2 <==> used + 1 <= limit
  {
    HdrDiff(limit, used, 1);
  }

  /** The same for data credits. */
  lemma DataGate(limit: int, used: int, cost: int)
    requires 0 <= cost <= 256 && used <= limit < used + DATA_MOD / 2
    ensures (limit % DATA_MOD - (used % DATA_MOD + cost)) % DATA_MOD <= DATA_MOD / 2 <==> used + cost <= limit
  {
    ModDiff(limit, used, -cost);
  }

  // ------------------------------------------------------ credits on the link

  /** What the receiver had granted for `t` when it had accepted `n` TLPs. */
  function Grant(k: Knobs, got: seq<Tlp>, n: nat, t: FcType): Credit
    requires n <= |got|
  {
    Granted(k.adv.Get(t), Used(got[..n], t))
  }

  /** What was spent fits what was granted, in every finite component. */
  predicate Within(adv: Credit, used: Credit, granted: Credit) {
    (adv.h != 0 ==> used.h <= granted.h) && (adv.d != 0 ==> used.d <= granted.d)
  }

  predicate Ready(e: End) { e.d.st == FC_INIT2 || e.d.st == ACTIVE }

  /** The transmitter's limit for one type, against the receiver's grants. */
  predicate LimitFits(kr: Knobs, tx: End, rx: End, t: FcType) {
    var f := tx.d.flow;
    && LimitNumber(tx, t) <= |rx.got|
    && (Ready(tx) ==>
        t in f.recorded && f.recorded[t] == kr.adv.Get(t) && t in f.limit &&
        f.limit[t] == Mod(Grant(kr, rx.got, LimitNumber(tx, t), t)) &&
        Within(kr.adv.Get(t), Used(tx.sent, t), Grant(kr, rx.got, LimitNumber(tx, t), t)))
    && (!Ready(tx) ==>
        tx.sent == [] && tx.limN == map[] && (t in f.recorded ==> f.recorded[t] == kr.adv.Get(t)))
  }

  predicate FcWireFits(kr: Knobs, tx: End, rx: End, w: Wire) {
    w.p.Control? ==>
      match w.p.dllp
      case InitFC(_, t, _, c) => c == kr.adv.Get(t)
      case UpdateFC(t, _, c) => LimitNumber(tx, t) <= w.n <= |rx.got| && c == Mod(Grant(kr, rx.got, w.n, t))
      case _ => true
  }

  predicate IsUpdate(w: Wire, t: FcType) { w.p.Control? && w.p.dllp.UpdateFC? && w.p.dllp.fc == t }

  predicate CreditsOk(kr: Knobs, tx: End, rx: End, back: seq<Wire>) {
    && rx.got <= tx.sent
    && (forall t: FcType :: LimitFits(kr, tx, rx, t))
    && (forall i | 0 <= i < |back| :: FcWireFits(kr, tx, rx, back[i]))
    && (forall t: FcType, i, j | 0 <= i < j < |back| && IsUpdate(back[i], t) && IsUpdate(back[j], t) ::
          back[i].n <= back[j].n)
    && (forall i | 0 <= i < |rx.d.q| && rx.d.q[i].InitFC? :: rx.d.q[i].credit == kr.adv.Get(rx.d.q[i].fc))
  }

  /** No Receiver Overflow is on record. */
  predicate NoOverflow(e: End) { forall x | x in e.d.errors :: x.BadAckSeq? }

  predicate EndCredits(k: Knobs, e: End) { AccountsOk(k, e.d.flow, e.sent, e.got) && NoOverflow(e) }

  // ------------------------------------------------------------ transmitting

  /** can_send says yes exactly when the unbounded spent credits plus the cost
      fit the unbounded grant, for every finite component. */
  lemma CanSendExact(kt: Knobs, kr: Knobs, tx: End, rx: End, x: Tlp)
    requires LegalAdv(kr) && rx.got <= tx.sent && Ready(tx) && LimitFits(kr, tx, rx, x.fc)
    requires tx.d.flow.consumed.Get(x.fc) == Mod(Used(tx.sent, x.fc))
    ensures Spec.CanSend(tx.d.flow, x) <==>
      Within(kr.adv.Get(x.fc), Used(tx.sent + [x], x.fc), Grant(kr, rx.got, LimitNumber(tx, x.fc), x.fc))
  {
    var t := x.fc;
    var n := LimitNumber(tx, t);
    var adv, used, g := kr.adv.Get(t), Used(tx.sent, t), Grant(kr, rx.got, n, t);
    UsedMore(tx.sent, x, t);
    UsedGrows(tx.sent, n, t);
    assert rx.got[..n] == tx.sent[..n];
    if adv.h != 0 { HeaderGate(g.h, used.h); }
    if adv.d != 0 { DataGate(g.d, used.d, x.data); }
  }

  /** What next_packet does to the queue and to what an end has accepted. */
  lemma SendQueue(k: Knobs, e: End, cycle: int)
    ensures var e1 := EndSend(k, e, cycle).0;
      e1.d.st == e.d.st && e1.d.errors == e.d.errors && e1.limN == e.limN && e1.got == e.got &&
      (e1.d.q == e.d.q || (e.d.q != [] && e1.d.q == e.d.q[1..]))
  {
  }

  lemma SendKeeps(k: Knobs, e: End, cycle: int)
    ensures var f, f1 := e.d.flow, EndSend(k, e, cycle).0.d.flow;
      f1.limit == f.limit && f1.recorded == f.recorded && f1.rcvd == f.rcvd && f1.alloc == f.alloc
  {
  }

  /** What it does to the accounts. */
  lemma SendFlow(k: Knobs, e: End, cycle: int)
    ensures var e1 := EndSend(k, e, cycle).0; var f, f1 := e.d.flow, e1.d.flow;
      && f1.limit == f.limit && f1.recorded == f.recorded && f1.rcvd == f.rcvd && f1.alloc == f.alloc
      && ((e1.sent == e.sent && f1.consumed == f.consumed) ||
          (Spec.NewReady(e.d) && e.d.st == ACTIVE && e1.sent == e.sent + [e.d.tx.tlpQ[0]] &&
           f1.consumed == Spec.Spend(f, e.d.tx.tlpQ[0]).consumed))
  {
    SendKeeps(k, e, cycle);
    var (d, p) := Spec.NextPacket(k, e.d, cycle);
    if |d.tx.tlpQ| < |e.d.tx.tlpQ| {
      assert d == Spec.SendNew(e.d, cycle).0;
      assert e.d.tx.tlpQ[..1] == [e.d.tx.tlpQ[0]];
    }
  }

  /** The flow-control DLLPs that next_packet emits. */
  lemma SendFc(k: Knobs, e: End, cycle: int)
    requires QueueRun(e.d.q, e.qn, |e.got|)
    ensures var out := EndSend(k, e, cycle).1;
      && |out| <= 1
      && (forall w | w in out && w.p.Control? && w.p.dllp.UpdateFC? ::
            w.n == |e.got| && w.p.dllp.credit == e.d.flow.alloc.Get(w.p.dllp.fc) && e.d.st == ACTIVE)
      && (forall w | w in out && w.p.Control? && w.p.dllp.InitFC? :: e.d.q != [] && w.p.dllp == e.d.q[0])
  {
    var (d, p) := Spec.NextPacket(k, e.d, cycle);
    if d.q != e.d.q {
      assert p == Some(Control(e.d.q[0]));
    }
  }

  lemma SendAccounts(k: Knobs, e: End, cycle: int)
    requires RxOk(e) && EndCredits(k, e)
    ensures EndCredits(k, EndSend(k, e, cycle).0)
  {
    SendQueue(k, e, cycle);
    SendFlow(k, e, cycle);
    var e1 := EndSend(k, e, cycle).0;
    if e1.sent != e.sent { SpendOk(k, e.d.flow, e.d.tx.tlpQ[0], e.sent, e.got); }
  }

  /** Sending keeps the sender within its peer's grants. */
  lemma CreditsSendTx(kt: Knobs, kr: Knobs, tx: End, rx: End, back: seq<Wire>, cycle: int)
    requires LegalAdv(kr) && RxOk(tx) && EndCredits(kt, tx) && CreditsOk(kr, tx, rx, back)
    ensures CreditsOk(kr, EndSend(kt, tx, cycle).0, rx, back)
  {
    SendQueue(kt, tx, cycle);
    SendFlow(kt, tx, cycle);
    var tx1 := EndSend(kt, tx, cycle).0;
    if tx1.sent != tx.sent {
      var x := tx.d.tx.tlpQ[0];
      assert LimitFits(kr, tx, rx, x.fc);
      CanSendExact(kt, kr, tx, rx, x);
      forall t: FcType ensures LimitFits(kr, tx1, rx, t) {
        assert LimitFits(kr, tx, rx, t);
        UsedMore(tx.sent, x, t);
      }
    } else {
      assert forall t: FcType :: LimitFits(kr, tx, rx, t) ==> LimitFits(kr, tx1, rx, t);
    }
    assert forall i | 0 <= i < |back| :: FcWireFits(kr, tx, rx, back[i]) ==> FcWireFits(kr, tx1, rx, back[i]);
  }

  /** What the receiver advertises while sending is what it has granted. */
  lemma CreditsSendRx(kr: Knobs, tx: End, rx: End, back: seq<Wire>, cycle: int)
    requires RxOk(rx) && EndCredits(kr, rx) && CreditsOk(kr, tx, rx, back)
    requires EndSend(kr, rx, cycle).0.got == rx.got
    ensures var (rx1, out) := EndSend(kr, rx, cycle); CreditsOk(kr, tx, rx1, back + out)
  {
    SendQueue(kr, rx, cycle);
    SendFlow(kr, rx, cycle);
    SendFc(kr, rx, cycle);
    var (rx1, out) := EndSend(kr, rx, cycle);
    assert forall t: FcType :: LimitFits(kr, tx, rx, t) ==> LimitFits(kr, tx, rx1, t);
    assert forall w :: FcWireFits(kr, tx, rx, w) ==> FcWireFits(kr, tx, rx1, w);
    assert rx.got[..|rx.got|] == rx.got;
    forall w | w in out ensures FcWireFits(kr, tx, rx1, w) {
      if w.p.Control? && w.p.dllp.UpdateFC? { assert LimitFits(kr, tx, rx, w.p.dllp.fc); }
    }
    forall t: FcType, i, j | 0 <= i < j < |back + out| && IsUpdate((back + out)[i], t) && IsUpdate((back + out)[j], t)
      ensures (back + out)[i].n <= (back + out)[j].n
    {
      assert FcWireFits(kr, tx, rx, back[i]);
    }
  }

  // --------------------------------------------------------------- receiving

  lemma DllpErrors(k: Knobs, e: End, m: Dllp, n: nat, now: int)
    ensures forall x | x in EndDllp(k, e, m, n, now).d.errors :: x in e.d.errors || x.BadAckSeq?
  {
  }

  /** What a DLLP does to the limits. */
  lemma DllpFlow(k: Knobs, e: End, m: Dllp, n: nat, now: int)
    ensures var e1 := EndDllp(k, e, m, n, now); var f, f1 := e.d.flow, e1.d.flow;
      && e1.sent == e.sent && e1.got == e.got && e1.d.q == e.d.q
      && f1.consumed == f.consumed && f1.rcvd == f.rcvd && f1.alloc == f.alloc
      && ( (e.d.st == FC_INIT1 && m.InitFC? && m.vc == 0 && e1.limN == e.limN &&
            f1.recorded == f.recorded[m.fc := m.credit] &&
            (e1.d.st == FC_INIT1 ||
             (e1.d.st == FC_INIT2 && f1.limit == f1.recorded && P in f1.limit && NP in f1.limit && CPL in f1.limit)))
        || (e1.d.st == ACTIVE && Ready(e) && m.UpdateFC? && m.vc == 0 && e1.limN == e.limN[m.fc := n] &&
            f1.recorded == f.recorded && f1.limit == f.limit[m.fc := m.credit])
        || (e1.limN == e.limN && f1.recorded == f.recorded && f1.limit == f.limit && (Ready(e1) <==> Ready(e))) )
  {
  }

  lemma CreditsDllpTx(kt: Knobs, kr: Knobs, tx: End, rx: End, back: seq<Wire>, now: int)
    requires LegalAdv(kr) && CreditsOk(kr, tx, rx, back) && back != [] && back[0].p.Control?
    ensures CreditsOk(kr, EndDllp(kt, tx, back[0].p.dllp, back[0].n, now), rx, back[1..])
  {
    var m, n := back[0].p.dllp, back[0].n;
    DllpErrors(kt, tx, m, n, now);
    DllpFlow(kt, tx, m, n, now);
    var tx1 := EndDllp(kt, tx, m, n, now);
    assert FcWireFits(kr, tx, rx, back[0]);
    forall t: FcType ensures LimitFits(kr, tx1, rx, t) {
      LimitAfter(kt, kr, tx, rx, m, n, now, t);
    }
    forall i | 1 <= i < |back| ensures FcWireFits(kr, tx1, rx, back[i]) {
      assert FcWireFits(kr, tx, rx, back[i]);
      if m.UpdateFC? && IsUpdate(back[i], m.fc) { assert IsUpdate(back[0], m.fc) && back[0].n <= back[i].n; }
    }
    assert forall t: FcType, i, j
      | 0 <= i < j < |back[1..]| && IsUpdate(back[1..][i], t) && IsUpdate(back[1..][j], t) ::
        IsUpdate(back[i + 1], t) && IsUpdate(back[j + 1], t);
  }

  /** One type's limit after a DLLP whose values fit. */
  lemma LimitAfter(kt: Knobs, kr: Knobs, tx: End, rx: End, m: Dllp, n: nat, now: int, t: FcType)
    requires LegalAdv(kr) && rx.got <= tx.sent && LimitFits(kr, tx, rx, t)
    requires FcWireFits(kr, tx, rx, Wire(Control(m), n))
    ensures LimitFits(kr, EndDllp(kt, tx, m, n, now), rx, t)
  {
    DllpFlow(kt, tx, m, n, now);
    var tx1 := EndDllp(kt, tx, m, n, now);
    assert rx.got[..0] == [];
    if Ready(tx) && m.UpdateFC? && m.fc == t && tx1.limN != tx.limN {
      UsedGrows(rx.got[..n], LimitNumber(tx, t), t);
      assert rx.got[..n][..LimitNumber(tx, t)] == rx.got[..LimitNumber(tx, t)];
    }
  }

  /** The receiver on the point of counting an accepted TLP's credits. */
  function Accepting(k: Knobs, e: End, endT: nat, now: int): DllState {
    var d := if e.d.st == FC_INIT2 then Spec.Fi2(k, e.d, now) else e.d;
    d.(rx := Spec.ScheduleAck(k, d.rx.(nrs := (d.rx.nrs + 1) % SEQ_MOD, nakScheduled := false), endT))
  }

  /** What a TLP does to the accounts of its receiver. */
  lemma TlpFlow(k: Knobs, e: End, m: Packet, endT: nat, now: int)
    requires m.Data?
    ensures var e1 := EndTlp(k, e, m, endT, now); var f, f1 := e.d.flow, e1.d.flow;
      && e1.limN == e.limN && e1.sent == e.sent && f1.limit == f.limit && f1.recorded == f.recorded
      && f1.consumed == f.consumed && (Ready(e1) <==> Ready(e))
      && (e1.got == e.got ==> f1.rcvd == f.rcvd && f1.alloc == f.alloc && e1.d.errors == e.d.errors)
  {
    var (d, t) := Spec.OnTlp(k, e.d, m, endT, now);
    OnTlpFlow(k, e.d, m, endT, now);
    if t.Some? { ReleaseFlow(k, d, t.value); }
  }

  lemma OnTlpFlow(k: Knobs, d: DllState, m: Packet, endT: nat, now: int)
    requires m.Data?
    ensures var (d1, t) := Spec.OnTlp(k, d, m, endT, now); var f, f1 := d.flow, d1.flow;
      && f1.limit == f.limit && f1.recorded == f.recorded && f1.consumed == f.consumed
      && (d1.st == d.st || (d.st == FC_INIT2 && d1.st == ACTIVE))
      && (t.None? ==> f1.rcvd == f.rcvd && f1.alloc == f.alloc && d1.errors == d.errors)
  {
    if Spec.OnTlp(k, d, m, endT, now).1.None? { RefusedFlow(k, d, m, endT, now); }
  }

  lemma RefusedFlow(k: Knobs, d: DllState, m: Packet, endT: nat, now: int)
    requires m.Data? && Spec.OnTlp(k, d, m, endT, now).1.None?
    ensures var d1 := Spec.OnTlp(k, d, m, endT, now).0;
      d1.flow == d.flow.(updDue := d1.flow.updDue) && d1.errors == d.errors
  {
  }

  lemma ReleaseFlow(k: Knobs, d: DllState, t: Tlp)
    ensures var d1 := Spec.Release(k, d, t);
      d1.flow.limit == d.flow.limit && d1.flow.recorded == d.flow.recorded &&
      d1.flow.consumed == d.flow.consumed && d1.st == d.st
  {
  }

  lemma TlpAccepted(k: Knobs, e: End, m: Packet, endT: nat, now: int)
    requires m.Data? && EndTlp(k, e, m, endT, now).got != e.got
    ensures EndTlp(k, e, m, endT, now).got == e.got + [m.tlp]
    ensures EndTlp(k, e, m, endT, now).d == Spec.Release(k, Spec.Consume(k, Accepting(k, e, endT, now), m.tlp), m.tlp)
  {
  }

  /** A TLP its sender was allowed to send fits the receiver's grant. */
  lemma FitsOnArrival(kr: Knobs, tx: End, rx: End, x: Tlp)
    requires rx.got + [x] <= tx.sent && Ready(tx) && LimitFits(kr, tx, rx, x.fc)
    ensures var adv := kr.adv.Get(x.fc); adv.d != 0 ==> x.data <= adv.d
  {
    var t := x.fc;
    var n := LimitNumber(tx, t);
    UsedMore(rx.got, x, t);
    UsedGrows(tx.sent, |rx.got| + 1, t);
    UsedGrows(rx.got, n, t);
    assert tx.sent[..|rx.got| + 1] == rx.got + [x];
  }

  /** The receiver's overflow check stays silent on such a TLP. */
  lemma NoOverflowNow(k: Knobs, adv: Credit, used: Credit, x: Tlp)
    requires 0 <= adv.h <= 127 && 0 <= adv.d <= 2047 && (adv.d != 0 ==> x.data <= adv.d)
    ensures Spec.OverflowErrors(x.fc, adv, Mod(Granted(adv, used)), Spec.AddMod(Mod(used), 1, x.data)) == []
  {
    AddModOk(used, 1, x.data);
    if adv.h != 0 { HdrDiff(adv.h + used.h, used.h + 1, 0); }
    if adv.d != 0 { ModDiff(adv.d + used.d, used.d + x.data, 0); }
  }

  lemma AcceptCredits(kr: Knobs, d: DllState, x: Tlp, sent: seq<Tlp>, got: seq<Tlp>)
    requires LegalAdv(kr) && AccountsOk(kr, d.flow, sent, got)
    requires (forall e | e in d.errors :: e.BadAckSeq?) && (kr.adv.Get(x.fc).d != 0 ==> x.data <= kr.adv.Get(x.fc).d)
    ensures var d1 := Spec.Release(kr, Spec.Consume(kr, d, x), x);
      AccountsOk(kr, d1.flow, sent, got + [x]) && d1.errors == d.errors
  {
    ConsumeRelease(kr, d, x, sent, got);
    NoOverflowNow(kr, kr.adv.Get(x.fc), Used(got, x.fc), x);
  }

  lemma CreditsTlpRx(kr: Knobs, tx: End, rx: End, back: seq<Wire>, m: Packet, endT: nat, now: int)
    requires LegalAdv(kr) && m.Data? && EndCredits(kr, rx) && CreditsOk(kr, tx, rx, back)
    requires EndTlp(kr, rx, m, endT, now).got <= tx.sent
    ensures var rx1 := EndTlp(kr, rx, m, endT, now); EndCredits(kr, rx1) && CreditsOk(kr, tx, rx1, back)
  {
    var rx1 := EndTlp(kr, rx, m, endT, now);
    TlpFlow(kr, rx, m, endT, now);
    if rx1.got != rx.got {
      TlpAccepted(kr, rx, m, endT, now);
      assert LimitFits(kr, tx, rx, m.tlp.fc);
      FitsOnArrival(kr, tx, rx, m.tlp);
      AcceptCredits(kr, Accepting(kr, rx, endT, now), m.tlp, rx.sent, rx.got);
    }
    GotGrows(kr, tx, rx, back, rx1);
  }

  /** Grants made earlier keep their value when more TLPs are accepted. */
  lemma GotGrows(kr: Knobs, tx: End, rx: End, back: seq<Wire>, rx1: End)
    requires CreditsOk(kr, tx, rx, back) && rx.got <= rx1.got <= tx.sent
    requires forall i | 0 <= i < |rx1.d.q| && rx1.d.q[i].InitFC? :: rx1.d.q[i].credit == kr.adv.Get(rx1.d.q[i].fc)
    ensures CreditsOk(kr, tx, rx1, back)
  {
    forall n: nat, t | n <= |rx.got| ensures Grant(kr, rx1.got, n, t) == Grant(kr, rx.got, n, t) {
      assert rx1.got[..n] == rx.got[..n];
    }
    assert forall t: FcType :: LimitFits(kr, tx, rx, t) ==> LimitFits(kr, tx, rx1, t);
    assert forall w :: FcWireFits(kr, tx, rx, w) ==> FcWireFits(kr, tx, rx1, w);
  }

  lemma CreditsTlpTx(kt: Knobs, kr: Knobs, tx: End, rx: End, back: seq<Wire>, endT: nat, now: int)
    requires CreditsOk(kr, tx, rx, back) && back != [] && back[0].p.Data?
    ensures CreditsOk(kr, EndTlp(kt, tx, back[0].p, endT, now), rx, back[1..])
  {
    TlpFlow(kt, tx, back[0].p, endT, now);
    assert forall i | 0 <= i < |back[1..]| :: back[1..][i] == back[i + 1];
    assert CreditsOk(kr, tx, rx, back[1..]);
    SameLimits(kr, tx, rx, back[1..], EndTlp(kt, tx, back[0].p, endT, now));
  }

  lemma CreditsDllpRx(kr: Knobs, tx: End, rx: End, back: seq<Wire>, m: Dllp, n: nat, now: int)
    requires EndCredits(kr, rx) && CreditsOk(kr, tx, rx, back)
    ensures var rx1 := EndDllp(kr, rx, m, n, now); EndCredits(kr, rx1) && CreditsOk(kr, tx, rx1, back)
  {
    DllpErrors(kr, rx, m, n, now);
    DllpFlow(kr, rx, m, n, now);
    GotGrows(kr, tx, rx, back, EndDllp(kr, rx, m, n, now));
  }

  // ------------------------------------------------------- whole schedules

  predicate CreditInv(ka: Knobs, kb: Knobs, n: Net) {
    EndCredits(ka, n.a) && EndCredits(kb, n.b) && CreditsOk(kb, n.a, n.b, n.ba) && CreditsOk(ka, n.b, n.a, n.ab)
  }

  lemma CreditTransmit(ka: Knobs, kb: Knobs, n: Net, cycle: int)
    requires LegalAdv(ka) && LegalAdv(kb) && Inv(n) && CreditInv(ka, kb, n)
    ensures CreditInv(ka, kb, Step(ka, n, Transmit(cycle)))
  {
    SendQueue(ka, n.a, cycle);
    SendFlow(ka, n.a, cycle);
    SendAccounts(ka, n.a, cycle);
    CreditsSendTx(ka, kb, n.a, n.b, n.ba, cycle);
    CreditsSendRx(ka, n.b, n.a, n.ab, cycle);
  }

  lemma CreditReceive(ka: Knobs, kb: Knobs, n: Net, endT: nat, now: int)
    requires LegalAdv(ka) && LegalAdv(kb) && Inv(n) && CreditInv(ka, kb, n) && n.ba != []
    requires Inv(Step(ka, n, Receive(endT, now)))
    ensures CreditInv(ka, kb, Step(ka, n, Receive(endT, now)))
  {
    var w := n.ba[0];
    match w.p
    case Control(m) =>
      CreditsDllpTx(ka, kb, n.a, n.b, n.ba, now);
      CreditsDllpRx(ka, n.b, n.a, n.ab, m, w.n, now);
    case Data(_, _, _, _) =>
      CreditsTlpTx(ka, kb, n.a, n.b, n.ba, endT, now);
      CreditsTlpRx(ka, n.b, n.a, n.ab, w.p, endT, now);
    case Junk =>
      assert forall i | 0 <= i < |n.ba[1..]| :: n.ba[1..][i] == n.ba[i + 1];
  }

  /** Link-up, offers and clock ticks leave the accounts alone. */
  lemma LocalFlow(k: Knobs, e: End, act: Act)
    requires IsLocal(act)
    ensures var e1 := EndLocal(k, e, act); var f, f1 := e.d.flow, e1.d.flow;
      && e1.sent == e.sent && e1.got == e.got && e1.limN == e.limN && e1.d.errors == e.d.errors
      && f1.limit == f.limit && f1.recorded == f.recorded && f1.rcvd == f.rcvd && f1.alloc == f.alloc
      && f1.consumed == f.consumed && (Ready(e1) <==> Ready(e))
  {
  }

  lemma CreditLocal(ka: Knobs, kb: Knobs, n: Net, act: Act)
    requires CreditInv(ka, kb, n) && IsLocal(act)
    ensures CreditInv(ka, kb, n.(a := EndLocal(ka, n.a, act)))
  {
    var a1 := EndLocal(ka, n.a, act);
    LocalFlow(ka, n.a, act);
    SameLimits(kb, n.a, n.b, n.ba, a1);
    QueueKeepsAdv(ka, n.a, act);
    GotGrows(ka, n.b, n.a, n.ab, a1);
  }

  lemma SameLimits(kr: Knobs, tx: End, rx: End, back: seq<Wire>, tx1: End)
    requires CreditsOk(kr, tx, rx, back) && tx1.sent == tx.sent && tx1.limN == tx.limN
    requires tx1.d.flow.limit == tx.d.flow.limit && tx1.d.flow.recorded == tx.d.flow.recorded
    requires Ready(tx1) <==> Ready(tx)
    ensures CreditsOk(kr, tx1, rx, back)
  {
    assert forall t: FcType :: LimitFits(kr, tx, rx, t) ==> LimitFits(kr, tx1, rx, t);
    assert forall w :: FcWireFits(kr, tx, rx, w) ==> FcWireFits(kr, tx1, rx, w);
  }

  lemma QueueKeepsAdv(k: Knobs, e: End, act: Act)
    requires IsLocal(act)
    requires forall i | 0 <= i < |e.d.q| && e.d.q[i].InitFC? :: e.d.q[i].credit == k.adv.Get(e.d.q[i].fc)
    ensures var q := EndLocal(k, e, act).d.q;
      forall i | 0 <= i < |q| && q[i].InitFC? :: q[i].credit == k.adv.Get(q[i].fc)
  {
    if act.Clock? {
      var phase := if e.d.st == FC_INIT1 then 1 else 2;
      var q1 := EndTick(k, e, act.cycle).d.q;
      assert q1 == e.d.q || q1 == e.d.q + Spec.InitSet(k, phase);
    }
  }

  lemma CreditFaults(ka: Knobs, kb: Knobs, n: Net, act: Act)
    requires CreditInv(ka, kb, n) && (act.Lose? || act.Damage?)
    ensures CreditInv(ka, kb, Step(ka, n, act))
  {
    var ab := Step(ka, n, act).ab;
    if act.Lose? && act.i < |n.ab| {
      assert forall j | 0 <= j < |ab| :: ab[j] == n.ab[if j < act.i then j else j + 1];
    } else if act.Damage? && act.i < |n.ab| {
      assert forall j | 0 <= j < |ab| && j != act.i :: ab[j] == n.ab[j];
      assert !ab[act.i].p.Control?;
    }
  }

  lemma CreditStep(ka: Knobs, kb: Knobs, n: Net, act: Act)
    requires LegalAdv(ka) && LegalAdv(kb) && Inv(n) && CreditInv(ka, kb, n)
    requires act.Receive? ==> ReadOk(n)
    ensures CreditInv(ka, kb, Step(ka, n, act))
  {
    StepInv(ka, n, act);
    match act
    case Transmit(cycle) => CreditTransmit(ka, kb, n, cycle);
    case Receive(endT, now) => if n.ba != [] { CreditReceive(ka, kb, n, endT, now); }
    case Lose(_) => CreditFaults(ka, kb, n, act);
    case Damage(_) => CreditFaults(ka, kb, n, act);
    case _ => CreditLocal(ka, kb, n, act);
  }

  lemma BootCredits(ka: Knobs, kb: Knobs)
    requires LegalAdv(ka) && LegalAdv(kb)
    ensures CreditInv(ka, kb, Boot(ka, kb))
  {
  }

  lemma {:induction false} RunCredits(ka: Knobs, kb: Knobs, n: Net, moves: seq<Move>)
    requires LegalAdv(ka) && LegalAdv(kb) && Inv(n) && CreditInv(ka, kb, n) && ReadsOk(ka, kb, n, moves)
    ensures Inv(Run(ka, kb, n, moves)) && CreditInv(ka, kb, Run(ka, kb, n, moves))
    decreases |moves|
  {
    RunInv(ka, kb, n, moves);
    if moves == [] {
    } else {
      var before := moves[..|moves| - 1];
      RunCredits(ka, kb, n, before);
      var m := Run(ka, kb, n, before);
      match moves[|moves| - 1]
      case Left(act) => CreditStep(ka, kb, m, act);
      case Right(act) => CreditStep(kb, ka, Swap(m), act);
    }
  }

  /** Credit safety of one direction, on unbounded counters: received is at most
      sent, sent fits the limit the sender holds, and that limit fits what the
      receiver has granted by now. */
  predicate CreditSafe(kr: Knobs, tx: End, rx: End) {
    forall t: FcType ::
      && Used(rx.got, t).h <= Used(tx.sent, t).h && Used(rx.got, t).d <= Used(tx.sent, t).d
      && LimitNumber(tx, t) <= |rx.got|
      && (tx.sent != [] ==> Within(kr.adv.Get(t), Used(tx.sent, t), Grant(kr, rx.got, LimitNumber(tx, t), t)))
      && Grant(kr, rx.got, LimitNumber(tx, t), t).h <= Grant(kr, rx.got, |rx.got|, t).h
      && Grant(kr, rx.got, LimitNumber(tx, t), t).d <= Grant(kr, rx.got, |rx.got|, t).d
  }

  lemma SafeDirection(kr: Knobs, tx: End, rx: End, back: seq<Wire>)
    requires TxOk(tx) && CreditsOk(kr, tx, rx, back)
    ensures CreditSafe(kr, tx, rx)
  {
    forall t: FcType
      ensures 0 <= Used(rx.got, t).h <= Used(tx.sent, t).h && 0 <= Used(rx.got, t).d <= Used(tx.sent, t).d
      ensures LimitNumber(tx, t) <= |rx.got|
      ensures Used(rx.got[..LimitNumber(tx, t)], t).h <= Used(rx.got[..|rx.got|], t).h
      ensures Used(rx.got[..LimitNumber(tx, t)], t).d <= Used(rx.got[..|rx.got|], t).d
    {
      assert LimitFits(kr, tx, rx, t);
      UsedGrows(tx.sent, |rx.got|, t);
      UsedGrows(rx.got, LimitNumber(tx, t), t);
      assert rx.got[..|rx.got|] == rx.got == tx.sent[..|rx.got|];
    }
    forall t: FcType | tx.sent != []
      ensures Within(kr.adv.Get(t), Used(tx.sent, t), Grant(kr, rx.got, LimitNumber(tx, t), t))
    {
      assert LimitFits(kr, tx, rx, t);
    }
  }

  /** On every schedule that misreads no Ack or Nak, with legal advertisements, the
      modular counters are the residues of unbounded ones, both directions stay
      within the granted credits and neither end ever records a Receiver Overflow. */
  lemma CreditSafety(ka: Knobs, kb: Knobs, moves: seq<Move>)
    requires LegalAdv(ka) && LegalAdv(kb) && ReadsOk(ka, kb, Boot(ka, kb), moves)
    ensures var n := Run(ka, kb, Boot(ka, kb), moves);
      CreditInv(ka, kb, n) && CreditSafe(kb, n.a, n.b) && CreditSafe(ka, n.b, n.a) && NoOverflow(n.a) && NoOverflow(n.b)
  {
    BootInv(ka, kb);
    BootCredits(ka, kb);
    RunCredits(ka, kb, Boot(ka, kb), moves);
    var n := Run(ka, kb, Boot(ka, kb), moves);
    SafeDirection(kb, n.a, n.b, n.ba);
    SafeDirection(ka, n.b, n.a, n.ab);
  }
}
