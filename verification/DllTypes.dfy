/** The values the Data Link Layer keeps and exchanges (tb/lr1/lr1_dll.py). */
module DllTypes {
  import opened Common

  const SEQ_MOD := 4096
  const HDR_MOD := 256
  const DATA_MOD := 4096

  /** A TLP and what parse and tlp_credits read off its bytes: every TLP costs
      one header credit and `data` data credits of type `fc`. */
  datatype Tlp = Tlp(bytes: seq<Byte>, fc: FcType, data: Units)

  /** A pair of header and data credits. */
  datatype Credit = Credit(h: int, d: int)

  datatype Account = Account(p: Credit, np: Credit, cpl: Credit) {
    function Get(t: FcType): Credit {
      match t case P => p case NP => np case CPL => cpl
    }

    function Put(t: FcType, c: Credit): Account {
      match t case P => this.(p := c) case NP => this.(np := c) case CPL => this.(cpl := c)
    }
  }

  const ZERO := Credit(0, 0)
  const NOTHING := Account(ZERO, ZERO, ZERO)

  /** A DLLP as parse_dllp decodes it. `Other` stands for the power-management,
      vendor and reserved kinds, which the layer ignores. */
  datatype Dllp =
    | Ack(num: int)
    | Nak(num: int)
    | InitFC(phase: int, fc: FcType, vc: int, credit: Credit)
    | UpdateFC(fc: FcType, vc: int, credit: Credit)
    | Other

  /** What the last four bytes of a received TLP are: its LCRC, the inverse of
      its LCRC, or neither. */
  datatype Lcrc = Good | Inverted | Bad

  /** What one transmission puts on the wire. `Junk` is a DLLP whose CRC no
      longer matches: the receiver never hands it to the layer. */
  datatype Packet =
    | Control(dllp: Dllp)
    | Data(num: int, tlp: Tlp, edb: bool, lcrc: Lcrc)
    | Junk

  datatype Entry = Entry(num: int, tlp: Tlp)

  datatype LinkState = INACTIVE | FC_INIT1 | FC_INIT2 | ACTIVE

  datatype DllError =
    | BadAckSeq(num: int)
    | Overflow(fc: FcType, header: bool)

  datatype Knobs = Knobs(
    adv: Account,
    maxPayload: nat,
    fcInitStartDelay: int,
    fcSetPeriod: int,
    fc2FirstDelay: int,
    updatefcPeriod: int,
    updatefcEveryRelease: bool,
    ackDelay: int,
    replayTimerCycles: int,
    nullifyCount: nat)

  /** Flow-control accounts of both roles. */
  datatype Flow = Flow(
    alloc: Account,
    rcvd: Account,
    recorded: map<FcType, Credit>,
    limit: map<FcType, Credit>,
    consumed: Account,
    updDue: map<FcType, int>,
    updNow: set<FcType>)

  /** The transmit side of the sequence-number protocol. */
  datatype Tx = Tx(
    nts: int,
    ackd: int,
    retry: seq<Entry>,
    replayQ: seq<Entry>,
    replayTimer: Option<int>,
    replayNum: int,
    tlpQ: seq<Tlp>,
    nullifyLeft: nat,
    nullPending: bool)

  /** The receive side. */
  datatype Rx = Rx(nrs: int, nakScheduled: bool, ackDue: Option<int>, ackSeq: Option<int>)

  datatype DllState = DllState(
    st: LinkState,
    fi1: bool,
    fi2: bool,
    fcNext: Option<int>,
    flow: Flow,
    tx: Tx,
    rx: Rx,
    q: seq<Dllp>,
    errors: seq<DllError>)

  predicate Infinite(c: Credit) { c.h == 0 && c.d == 0 }

  /** The state __init__ builds. */
  function Reset(k: Knobs): DllState {
    DllState(INACTIVE, false, false, None,
        Flow(k.adv, NOTHING, map[], map[], NOTHING, map[], {}),
        Tx(0, 0xFFF, [], [], None, 0, [], k.nullifyCount, false),
        Rx(0, false, None, None), [], [])
  }
}
