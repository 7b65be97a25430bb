/**
 One RDMA connection: the sending thread's buffer and `can_send` flag, the client's completion
 handler, the two messages on the wire, the server's completion handler, the receiving thread's
 buffer and `can_recv` flag. The same code serves both directions, so the system has two of these
 per worker. Every access to a shared counter, flag or buffer cell is one step.
 */
module Link {
  import opened Cells

  datatype Msg = NoMsg | Mr | Ready

  /** Sending thread (ps.cpp:285-327, worker.cu:303-338). */
  datatype SendPc = SIdle | SStampP | SStampQ | SPack(k: nat) | SFlag | SCount

  /** Client completion handler (rdma_two_sided_client_op.cpp:108-174). */
  datatype ClientPc = CRecv | CSpin | CClear | CRepost

  /** The one-sided write: copied cell by cell, then announced to the server. */
  datatype Wire = Quiet | Moving(len: nat, k: nat) | Landed(size: nat)

  /** Server side (rdma_two_sided_server_op.cpp:66-134). */
  datatype ServerPc =
    | VMr | VMrSend | VIdle | VPost(size: nat) | VCount(size: nat) | VSpin(size: nat) | VReady | VSend

  /** Receiving thread (ps.cpp:329-395, worker.cu:340-402). */
  datatype RecvPc = UIdle | UCopy(k: nat) | UCount | UFlag

  /**
   The credit handshake. `cliRecvs` and `srvRecvs` count the receives posted on each queue pair,
   `msgIn` is the control message that was placed in the client's slot and not yet handled,
   `outMsg` the server's slot, `ctl` says that the server's slot is being sent, `peer` that the
   client knows the address to write to.
   */
  datatype Handshake = Handshake(
    cpc: ClientPc, cliRecvs: nat, msgIn: Msg, peer: bool, wire: Wire, ctl: bool,
    vpc: ServerPc, srvRecvs: nat, outMsg: Msg)

  /**
   `staged` is `to_send_iter`/`to_send_age`, `unpacked` is `recved_iter + 1`/`recved_age + 1`,
   `rcvd` is `buf_recv_counter`, `posted` the number of writes posted. `sent` and `got` are the
   histories of frames flagged and frames unpacked.
   */
  datatype Chan = Chan(
    staged: nat, spc: SendPc,
    sbuf: seq<Cell>, slen: nat, canSend: bool,
    hs: Handshake, posted: nat,
    rbuf: seq<Cell>, rlen: nat, rcvd: nat, canRecv: bool,
    upc: RecvPc, unpacked: nat,
    sent: seq<seq<Cell>>, got: seq<seq<Cell>>)

  /** Frames whose `can_send` has been raised; the thread's own counter lags by one step. */
  function Flagged(ch: Chan): nat {
    ch.staged + if ch.spc.SCount? then 1 else 0
  }

  // ---------- Client handler ----------

  predicate CanClient(ch: Chan) {
    match ch.hs.cpc
    case CRecv => ch.hs.msgIn != NoMsg
    case CSpin => ch.canSend
    case CClear => true
    case CRepost => true
  }

  function DoClient(ch: Chan): Chan
    requires CanClient(ch)
  {
    match ch.hs.cpc
    case CRecv => ch.(hs := ch.hs.(msgIn := NoMsg, peer := ch.hs.peer || ch.hs.msgIn == Mr, cpc := CSpin))
    case CSpin => ch.(hs := ch.hs.(wire := Moving(ch.slen, 0), cpc := CClear), posted := ch.posted + 1)
    case CClear => ch.(hs := ch.hs.(cpc := CRepost), canSend := false)
    case CRepost => ch.(hs := ch.hs.(cliRecvs := ch.hs.cliRecvs + 1, cpc := CRecv))
  }

  // ---------- Delivery of a control message into the client's slot ----------

  predicate CanCtl(ch: Chan) {
    ch.hs.ctl && ch.hs.cliRecvs > 0
  }

  function DoCtl(ch: Chan): Chan
    requires CanCtl(ch)
  {
    ch.(hs := ch.hs.(ctl := false, cliRecvs := ch.hs.cliRecvs - 1, msgIn := ch.hs.outMsg))
  }

  // ---------- The write in flight ----------

  predicate CanWire(ch: Chan) {
    ch.hs.wire.Moving? && (ch.hs.wire.k < ch.hs.wire.len || ch.hs.srvRecvs > 0)
  }

  function DoWire(ch: Chan): Chan
    requires CanWire(ch)
  {
    var Moving(len, k) := ch.hs.wire;
    if k < len then
      ch.(hs := ch.hs.(wire := Moving(len, k + 1)), rbuf := Put(ch.rbuf, k, Get(ch.sbuf, k)))
    else
      ch.(hs := ch.hs.(wire := Landed(len), srvRecvs := ch.hs.srvRecvs - 1))
  }

  // ---------- Server handler ----------

  predicate CanServer(ch: Chan) {
    match ch.hs.vpc
    case VIdle => ch.hs.wire.Landed?
    case VSpin(_) => ch.canRecv
    case _ => true
  }

  function DoServer(ch: Chan): Chan
    requires CanServer(ch)
  {
    match ch.hs.vpc
    case VMr => ch.(hs := ch.hs.(outMsg := Mr, vpc := VMrSend))
    case VMrSend => ch.(hs := ch.hs.(ctl := true, vpc := VIdle))
    case VIdle => ch.(hs := ch.hs.(wire := Quiet, vpc := VPost(ch.hs.wire.size)))
    case VPost(size) =>
      ch.(hs := ch.hs.(outMsg := if size == 0 then Ready else ch.hs.outMsg,
                       srvRecvs := ch.hs.srvRecvs + 1, vpc := VCount(size)))
    case VCount(size) => ch.(hs := ch.hs.(vpc := VSpin(size)), rlen := size, rcvd := ch.rcvd + 1)
    case VSpin(size) => ch.(hs := ch.hs.(vpc := if size == 0 then VSend else VReady))
    case VReady => ch.(hs := ch.hs.(outMsg := Ready, vpc := VSend))
    case VSend => ch.(hs := ch.hs.(ctl := true, vpc := VIdle))
  }

  // ---------- Sending thread: `may` is its guard, `stamps` holds on the PS only ----------

  predicate CanSender(ch: Chan, may: bool) {
    ch.spc.SIdle? ==> may
  }

  function DoSender(ch: Chan, may: bool, stamps: bool, src: seq<Cell>): (r: (Chan, seq<Cell>))
    requires CanSender(ch, may)
  {
    match ch.spc
    case SIdle => (ch.(spc := if stamps then SStampP else SPack(0)), src)
    case SStampP => (ch.(spc := SStampQ), Put(src, AGE, Int(ch.staged)))
    case SStampQ => (ch.(spc := SPack(0)), Put(src, QBase(src) + AGE, Int(ch.staged)))
    case SPack(k) =>
      if k < FrameLen(src) then
        (ch.(sbuf := Put(ch.sbuf, k, Get(src, k)), spc := SPack(k + 1)), src)
      else
        (ch.(slen := FrameLen(src), spc := SFlag), src)
    case SFlag => (ch.(canSend := true, spc := SCount, sent := ch.sent + [Staged(ch)]), src)
    case SCount => (ch.(staged := ch.staged + 1, spc := SIdle), src)
  }

  /** What a write posted now would carry. */
  function Staged(ch: Chan): seq<Cell> {
    if ch.slen <= |ch.sbuf| then ch.sbuf[..ch.slen] else ch.sbuf
  }

  // ---------- Receiving thread, apart from where it copies to ----------

  predicate CanReceiver(ch: Chan) {
    ch.upc.UIdle? ==> ch.unpacked < ch.rcvd
  }

  predicate Copies(ch: Chan) {
    ch.upc.UCopy? && ch.upc.k < FrameLen(ch.rbuf)
  }

  /** `dst` is the memory unpacked into, recorded in the history when the frame is counted. */
  function DoReceiver(ch: Chan, dst: seq<Cell>): Chan
    requires CanReceiver(ch)
  {
    match ch.upc
    case UIdle => ch.(upc := UCopy(0))
    case UCopy(k) => ch.(upc := if Copies(ch) then UCopy(k + 1) else UCount)
    case UCount => ch.(unpacked := ch.unpacked + 1, upc := UFlag, got := ch.got + [dst])
    case UFlag => ch.(canRecv := true, upc := UIdle)
  }

  // ---------- Credit ----------

  function One(b: bool): nat { if b then 1 else 0 }

  predicate WithServer(vpc: ServerPc) {
    !vpc.VIdle?
  }

  /** Every place where the right to post the next write can be. */
  function Credits(hs: Handshake): nat {
    One(WithServer(hs.vpc)) + One(hs.ctl) + One(hs.msgIn != NoMsg) + One(hs.cpc.CSpin?) + One(!hs.wire.Quiet?)
  }

  ghost predicate CreditInv(hs: Handshake) {
    && Credits(hs) == 1
    && hs.cliRecvs == One(hs.cpc.CRecv? && hs.msgIn == NoMsg)
    && hs.srvRecvs == One(!hs.wire.Landed? && !hs.vpc.VPost?)
    && (hs.msgIn != NoMsg ==> hs.cpc.CRecv?)
    && (hs.ctl ==> hs.outMsg != NoMsg)
    && (hs.vpc.VMrSend? ==> hs.outMsg == Mr)
    && (hs.vpc.VSend? || (hs.vpc.VCount? && hs.vpc.size == 0) || (hs.vpc.VSpin? && hs.vpc.size == 0) ==>
          hs.outMsg == Ready)
    && (!hs.peer ==> hs.cpc.CRecv? && hs.wire.Quiet? &&
                     (hs.vpc.VMr? || hs.vpc.VMrSend? || (hs.ctl && hs.outMsg == Mr) || hs.msgIn == Mr))
    && (hs.peer ==> !hs.vpc.VMr? && !hs.vpc.VMrSend?)
    // the one MR comes first, all other messages are READY
    && (hs.ctl ==> hs.outMsg == if hs.peer then Ready else Mr)
    && (hs.msgIn != NoMsg ==> hs.msgIn == if hs.peer then Ready else Mr)
  }

  // ---------- Counters ----------

  predicate Arrived(ch: Chan) {
    !ch.hs.wire.Quiet? || ch.hs.vpc.VPost? || ch.hs.vpc.VCount?
  }

  ghost predicate CountInv(ch: Chan) {
    && ch.unpacked <= ch.rcvd
    && ch.posted <= Flagged(ch)
    && ch.posted == ch.rcvd + One(Arrived(ch))
    && (ch.canSend && !ch.hs.cpc.CClear? ==> ch.posted < Flagged(ch))
    && (ch.hs.cpc.CClear? ==> ch.canSend)
    && (ch.upc.UCopy? || ch.upc.UCount? ==> ch.unpacked < ch.rcvd)
    && (ch.unpacked > 0 && !ch.upc.UFlag? ==> ch.canRecv)
    && (ch.hs.vpc.VSpin? ==> ch.rcvd > 0)
    && (if ch.posted > 0 then ch.hs.peer else ch.hs.peer ==> ch.hs.cpc.CSpin?)
    // the first frame cannot be overtaken
    && (ch.posted == 0 ==> !ch.hs.cpc.CClear? && !ch.hs.cpc.CRepost? && (Flagged(ch) > 0 ==> ch.canSend))
  }

  // ---------- Data of the current round's frame x ----------

  ghost predicate Starts(b: seq<Cell>, x: seq<Cell>, k: nat) {
    k <= |x| && k <= |b| && b[..k] == x[..k]
  }

  /** The immediate carries the length all the way to `buf_len`. */
  predicate SizesInv(ch: Chan, n: nat) {
    && (ch.hs.wire.Landed? ==> ch.hs.wire.size == n)
    && (ch.hs.vpc.VPost? || ch.hs.vpc.VCount? || ch.hs.vpc.VSpin? ==> ch.hs.vpc.size == n)
    && (ch.rcvd > 0 ==> ch.rlen == n)
  }

  ghost predicate DataInv(ch: Chan, x: seq<Cell>) {
    && |x| <= |ch.sbuf| && |x| <= |ch.rbuf|
    && (ch.spc.SPack? ==> Starts(ch.sbuf, x, ch.spc.k))
    && (ch.spc.SFlag? ==> Starts(ch.sbuf, x, |x|) && ch.slen == |x|)
    && (Flagged(ch) > ch.rcvd ==> Starts(ch.sbuf, x, |x|) && ch.slen == |x|)
    && (ch.hs.wire.Moving? ==> ch.hs.wire.len == |x| && Starts(ch.rbuf, x, ch.hs.wire.k))
    && (ch.posted > ch.unpacked && !ch.hs.wire.Moving? ==> Starts(ch.rbuf, x, |x|))
    && SizesInv(ch, |x|)
  }

  ghost predicate LinkInv(ch: Chan, x: seq<Cell>) {
    CreditInv(ch.hs) && CountInv(ch) && DataInv(ch, x)
  }

  /** What the steps of one side of the link leave alone. */
  ghost predicate ThreadsSame(ch: Chan, ch': Chan) {
    && ch'.staged == ch.staged && ch'.spc == ch.spc && |ch'.sbuf| == |ch.sbuf|
    && ch'.upc == ch.upc && ch'.unpacked == ch.unpacked && |ch'.rbuf| == |ch.rbuf|
    && ch'.sent == ch.sent && ch'.got == ch.got
    && ch.posted <= ch'.posted && ch.rcvd <= ch'.rcvd
  }

  // ---------- The handshake keeps exactly one credit ----------

  lemma ClientKeepsCredit(ch: Chan)
    requires CreditInv(ch.hs) && CanClient(ch)
    ensures CreditInv(DoClient(ch).hs)
  {
  }

  lemma CtlKeepsCredit(ch: Chan)
    requires CreditInv(ch.hs) && CanCtl(ch)
    ensures CreditInv(DoCtl(ch).hs)
  {
  }

  lemma WireKeepsCredit(ch: Chan)
    requires CreditInv(ch.hs) && CanWire(ch)
    ensures CreditInv(DoWire(ch).hs)
  {
  }

  lemma ServerKeepsCredit(ch: Chan)
    requires CreditInv(ch.hs) && CanServer(ch)
    ensures CreditInv(DoServer(ch).hs)
  {
    match ch.hs.vpc
    case VIdle =>
    case VPost(_) =>
    case VSpin(_) =>
    case _ =>
  }

  /**
   One credit means that no slot and no wire is ever reused while still in use, and that whoever
   receives has a receive posted.
   */
  lemma CreditProtectsSlots(hs: Handshake)
    requires CreditInv(hs)
    // a write is posted on a quiet wire, to a known address
    ensures hs.cpc.CSpin? ==> hs.wire.Quiet? && hs.peer
    // an announced write finds a posted receive and an idle handler
    ensures hs.wire.Moving? ==> hs.srvRecvs == 1 && hs.vpc.VIdle?
    ensures hs.wire.Landed? ==> hs.vpc.VIdle?
    // the server rewrites its slot only when the last message has left it
    ensures hs.vpc.VMr? || hs.vpc.VPost? || hs.vpc.VReady? ==> !hs.ctl
    // a control message is delivered into an empty slot and says MR or READY
    ensures hs.ctl ==> hs.msgIn == NoMsg && hs.outMsg != NoMsg && !WithServer(hs.vpc)
  {
  }

  // ---------- Counters ----------

  lemma ClientKeepsCounts(ch: Chan)
    requires CreditInv(ch.hs) && CountInv(ch) && CanClient(ch)
    ensures CountInv(DoClient(ch))
  {
  }

  lemma WireKeepsCounts(ch: Chan)
    requires CreditInv(ch.hs) && CountInv(ch) && CanWire(ch)
    ensures CountInv(DoWire(ch))
  {
  }

  lemma ServerKeepsCounts(ch: Chan)
    requires CreditInv(ch.hs) && CountInv(ch) && CanServer(ch)
    ensures CountInv(DoServer(ch))
  {
  }

  lemma SenderKeepsCounts(ch: Chan, may: bool, stamps: bool, src: seq<Cell>, ch': Chan)
    requires CountInv(ch) && CanSender(ch, may) && ch' == DoSender(ch, may, stamps, src).0
    requires !ch.spc.SCount? ==> Flagged(ch) == ch.unpacked
    ensures CountInv(ch')
  {
  }

  lemma ReceiverKeepsCounts(ch: Chan, dst: seq<Cell>, ch': Chan)
    requires CountInv(ch) && CanReceiver(ch) && ch' == DoReceiver(ch, dst)
    ensures CountInv(ch')
  {
  }

  // ---------- All of it, step by step ----------

  lemma ClientKeeps(ch: Chan, x: seq<Cell>)
    requires LinkInv(ch, x) && CanClient(ch) && Flagged(ch) <= ch.unpacked + 1
    ensures LinkInv(DoClient(ch), x) && ThreadsSame(ch, DoClient(ch))
    ensures DoClient(ch).rbuf == ch.rbuf && DoClient(ch).sbuf == ch.sbuf
  {
    ClientKeepsCredit(ch);
    ClientKeepsCounts(ch);
  }

  lemma CtlKeeps(ch: Chan, x: seq<Cell>)
    requires LinkInv(ch, x) && CanCtl(ch)
    ensures LinkInv(DoCtl(ch), x) && ThreadsSame(ch, DoCtl(ch))
    ensures DoCtl(ch).rbuf == ch.rbuf && DoCtl(ch).sbuf == ch.sbuf
  {
    CtlKeepsCredit(ch);
  }

  /** Cells are copied only while the receiving thread is not reading the buffer. */
  lemma WireKeeps(ch: Chan, x: seq<Cell>)
    requires LinkInv(ch, x) && CanWire(ch) && Flagged(ch) <= ch.unpacked + 1
    ensures LinkInv(DoWire(ch), x) && ThreadsSame(ch, DoWire(ch))
    ensures DoWire(ch).sbuf == ch.sbuf
    ensures !ch.upc.UCopy?
  {
    WireKeepsCredit(ch);
    WireKeepsCounts(ch);
  }

  lemma ServerKeeps(ch: Chan, x: seq<Cell>)
    requires LinkInv(ch, x) && CanServer(ch)
    ensures LinkInv(DoServer(ch), x) && ThreadsSame(ch, DoServer(ch))
    ensures DoServer(ch).rbuf == ch.rbuf && DoServer(ch).sbuf == ch.sbuf
  {
    ServerKeepsCredit(ch);
    ServerKeepsCounts(ch);
    ServerKeepsData(ch, x);
    ServerLeavesThreads(ch);
    hide CreditInv, CountInv, DataInv, ThreadsSame, CanServer, DoServer;
  }

  lemma ServerLeavesThreads(ch: Chan)
    requires CanServer(ch)
    ensures ThreadsSame(ch, DoServer(ch))
    ensures DoServer(ch).rbuf == ch.rbuf && DoServer(ch).sbuf == ch.sbuf
  {
  }

  lemma ServerKeepsData(ch: Chan, x: seq<Cell>)
    requires DataInv(ch, x) && CanServer(ch)
    ensures DataInv(DoServer(ch), x)
  {
    ServerKeepsSizes(ch, |x|);
  }

  lemma ServerKeepsSizes(ch: Chan, n: nat)
    requires SizesInv(ch, n) && CanServer(ch)
    ensures SizesInv(DoServer(ch), n)
  {
  }

  /** Packing and flagging, when nothing is outstanding and the source holds the frame. */
  lemma SenderKeeps(ch: Chan, may: bool, stamps: bool, src: seq<Cell>, x: seq<Cell>, ch': Chan)
    requires LinkInv(ch, x) && CanSender(ch, may) && IsFrame(x)
    requires !ch.spc.SCount? ==> Flagged(ch) == ch.unpacked
    requires ch.spc.SPack? || ch.spc.SFlag? ==> src == x
    requires ch' == DoSender(ch, may, stamps, src).0
    ensures LinkInv(ch', x)
    ensures ch'.upc == ch.upc && ch'.unpacked == ch.unpacked && ch'.posted == ch.posted && ch'.rcvd == ch.rcvd
    ensures |ch'.sbuf| == |ch.sbuf| && ch'.rbuf == ch.rbuf && ch'.got == ch.got && ch'.hs == ch.hs
    ensures ch.spc.SFlag? ==> ch'.sent == ch.sent + [x]
    ensures !ch.spc.SFlag? ==> ch'.sent == ch.sent
  {
    SenderKeepsCounts(ch, may, stamps, src, ch');
    SenderKeepsData(ch, may, stamps, src, x, ch');
  }

  lemma SenderKeepsData(ch: Chan, may: bool, stamps: bool, src: seq<Cell>, x: seq<Cell>, ch': Chan)
    requires DataInv(ch, x) && CanSender(ch, may) && IsFrame(x)
    requires ch.spc.SPack? ==> Flagged(ch) <= ch.rcvd
    requires ch.spc.SPack? || ch.spc.SFlag? ==> src == x
    requires ch' == DoSender(ch, may, stamps, src).0
    ensures DataInv(ch', x)
    ensures ch.spc.SFlag? ==> ch'.sent == ch.sent + [x]
  {
    match ch.spc
    case SIdle =>
    case SStampP =>
    case SStampQ =>
    case SPack(k) =>
      if k < |x| {
        assert ch'.sbuf[..k + 1] == ch.sbuf[..k] + [x[k]];
        assert x[..k + 1] == x[..k] + [x[k]];
      }
    case SFlag => assert Staged(ch) == x[..|x|] == x;
    case SCount =>
  }

  lemma ReceiverKeeps(ch: Chan, x: seq<Cell>, dst: seq<Cell>, ch': Chan)
    requires LinkInv(ch, x) && CanReceiver(ch)
    requires ch' == DoReceiver(ch, dst)
    ensures LinkInv(ch', x)
    ensures ch'.staged == ch.staged && ch'.spc == ch.spc && ch'.posted == ch.posted && ch'.rcvd == ch.rcvd
    ensures ch'.sbuf == ch.sbuf && ch'.rbuf == ch.rbuf && ch'.sent == ch.sent && ch'.hs == ch.hs
  {
    ReceiverKeepsCounts(ch, dst, ch');
    ReceiverKeepsData(ch, x, dst, ch');
    hide CountInv, DataInv, CreditInv;
  }

  lemma ReceiverKeepsData(ch: Chan, x: seq<Cell>, dst: seq<Cell>, ch': Chan)
    requires DataInv(ch, x) && CanReceiver(ch) && ch' == DoReceiver(ch, dst)
    ensures DataInv(ch', x)
  {
    assert ch'.unpacked >= ch.unpacked && ch' == ch.(upc := ch'.upc, unpacked := ch'.unpacked, got := ch'.got,
                                                     canRecv := ch'.canRecv);
    hide DoReceiver, CanReceiver, Starts;
  }
}
