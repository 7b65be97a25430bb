/**
 The contexts of one connection as the objects the handlers and threads update in place
 (rdma_two_sided_client_op.h:11-25, rdma_two_sided_server_op.h:11-22). Each method performs one access
 to shared memory and is proved to be the corresponding step of `Link`; `moved` is false while the
 source would spin or sleep.
 */
module Connections {
  import opened Cells
  import opened Link
  import opened Rounds

  class ClientContext {
    const buffer: array<Cell>
    var bufLen: nat
    var canSend: bool
    var bufWriteCounter: nat
    // the completion handler and its message slot
    var pc: ClientPc
    var receives: nat
    var msg: Msg
    var peerKnown: bool

    constructor (size: nat)
      ensures fresh(buffer) && buffer.Length == size && bufLen == 0 && !canSend && bufWriteCounter == 0
      ensures pc == CRecv && receives == 1 && msg == NoMsg && !peerKnown
    {
      buffer := new Cell[size](_ => Int(0));
      bufLen, canSend, bufWriteCounter := 0, false, 0;
      pc, receives, msg, peerKnown := CRecv, 1, NoMsg, false;
    }
  }

  class ConnContext {
    const buffer: array<Cell>
    var bufLen: nat
    var canRecv: bool
    var bufRecvCounter: nat
    var pc: ServerPc
    var receives: nat
    var msg: Msg

    constructor (size: nat)
      ensures fresh(buffer) && buffer.Length == size && bufLen == 0 && !canRecv && bufRecvCounter == 0
      ensures pc == VMr && receives == 1 && msg == NoMsg
    {
      buffer := new Cell[size](_ => Int(0));
      bufLen, canRecv, bufRecvCounter := 0, false, 0;
      pc, receives, msg := VMr, 1, NoMsg;
    }
  }

  ghost function Contents(blocks: seq<array<Cell>>): (r: seq<seq<Cell>>)
    reads blocks
    ensures |r| == |blocks|
    ensures forall k | 0 <= k < |r| :: r[k] == blocks[k][..]
  {
    seq(|blocks|, k requires 0 <= k < |blocks| reads blocks => blocks[k][..])
  }

  class Connection {
    const client: ClientContext
    const server: ConnContext
    // the network
    var wire: Wire
    var ctl: bool
    // rdma_sendTd and rdma_recvTd
    var toSend: nat
    var sendPc: SendPc
    var unpacked: nat
    var recvPc: RecvPc
    ghost var posted: nat
    ghost var sent: seq<seq<Cell>>
    ghost var got: seq<seq<Cell>>

    ghost predicate Valid() {
      client.buffer != server.buffer
    }

    ghost function Abs(): Chan
      reads this, client, server, client.buffer, server.buffer
    {
      Chan(toSend, sendPc, client.buffer[..], client.bufLen, client.canSend,
           Handshake(client.pc, client.receives, client.msg, client.peerKnown, wire, ctl,
                     server.pc, server.receives, server.msg),
           posted,
           server.buffer[..], server.bufLen, server.bufRecvCounter, server.canRecv,
           recvPc, unpacked, sent, got)
    }

    /** Both ends set up and the connection established: the server owes its MSG_MR. */
    constructor (size: nat)
      ensures Valid() && fresh(client) && fresh(server) && fresh(client.buffer) && fresh(server.buffer)
      ensures |Abs().sbuf| == |Abs().rbuf| == size
      ensures Abs() == Chan(0, SIdle, Abs().sbuf, 0, false,
                            Handshake(CRecv, 1, NoMsg, false, Quiet, false, VMr, 1, NoMsg), 0,
                            Abs().rbuf, 0, 0, false, UIdle, 0, [], [])
    {
      client := new ClientContext(size);
      server := new ConnContext(size);
      wire, ctl := Quiet, false;
      toSend, sendPc, unpacked, recvPc := 0, SIdle, 0, UIdle;
      posted, sent, got := 0, [], [];
    }

    /** client_on_completion (rdma_two_sided_client_op.cpp:108-174). */
    method ClientOnCompletion() returns (moved: bool)
      requires Valid()
      modifies this`wire, this`posted, client
      ensures moved == CanClient(old(Abs()))
      ensures Abs() == if moved then DoClient(old(Abs())) else old(Abs())
      ensures client.bufWriteCounter == old(client.bufWriteCounter) + if old(client.pc.CRepost?) then 1 else 0
    {
      moved := true;
      match client.pc
      case CRecv =>
        if client.msg == NoMsg { return false; }
        if client.msg == Mr { client.peerKnown := true; }
        client.msg := NoMsg;
        client.pc := CSpin;
      case CSpin =>
        if !client.canSend { return false; }
        wire := Moving(client.bufLen, 0);
        posted := posted + 1;
        client.pc := CClear;
      case CClear =>
        client.canSend := false;
        client.pc := CRepost;
      case CRepost =>
        client.bufWriteCounter := client.bufWriteCounter + 1;
        client.receives := client.receives + 1;
        client.pc := CRecv;
    }

    /** server_on_connection and server_on_completion (rdma_two_sided_server_op.cpp:66-134). */
    method ServerOnCompletion() returns (moved: bool)
      requires Valid()
      modifies this`wire, this`ctl, server
      ensures moved == CanServer(old(Abs()))
      ensures Abs() == if moved then DoServer(old(Abs())) else old(Abs())
    {
      moved := true;
      match server.pc
      case VMr =>
        server.msg := Mr;
        server.pc := VMrSend;
      case VMrSend =>
        ctl := true;
        server.pc := VIdle;
      case VIdle =>
        if !wire.Landed? { return false; }
        server.pc := VPost(wire.size);
        wire := Quiet;
      case VPost(size) =>
        if size == 0 { server.msg := Ready; }
        server.receives := server.receives + 1;
        server.pc := VCount(size);
      case VCount(size) =>
        server.bufLen := size;
        server.bufRecvCounter := server.bufRecvCounter + 1;
        server.pc := VSpin(size);
      case VSpin(size) =>
        if !server.canRecv { return false; }
        server.pc := if size == 0 then VSend else VReady;
      case VReady =>
        server.msg := Ready;
        server.pc := VSend;
      case VSend =>
        ctl := true;
        server.pc := VIdle;
    }

    /** The message in the server's slot reaches the client's, when a receive is posted there. */
    method DeliverControl() returns (moved: bool)
      requires Valid()
      modifies this`ctl, client`receives, client`msg
      ensures moved == CanCtl(old(Abs()))
      ensures Abs() == if moved then DoCtl(old(Abs())) else old(Abs())
    {
      moved := ctl && client.receives > 0;
      if moved {
        ctl := false;
        client.receives := client.receives - 1;
        client.msg := server.msg;
      }
    }

    /** One more cell of the RDMA write arrives, or its completion does. */
    method MoveWrite() returns (moved: bool)
      requires Valid()
      modifies this`wire, server, server.buffer
      ensures moved == CanWire(old(Abs()))
      ensures Abs() == if moved then DoWire(old(Abs())) else old(Abs())
    {
      moved := wire.Moving? && (wire.k < wire.len || server.receives > 0);
      if !moved { return; }
      var Moving(len, k) := wire;
      if k < len {
        if k < server.buffer.Length {
          server.buffer[k] := if k < client.buffer.Length then client.buffer[k] else Int(0);
        }
        wire := Moving(len, k + 1);
      } else {
        server.receives := server.receives - 1;
        wire := Landed(len);
      }
    }

    /** rdma_sendTd on the worker (worker.cu:309-336): pack what `src` holds and flag it. */
    method SendFrom(may: bool, src: seq<Cell>) returns (moved: bool)
      requires Valid()
      modifies this, client`bufLen, client`canSend, client.buffer
      ensures moved == CanSender(old(Abs()), may)
      ensures !old(sendPc).SStampP? && !old(sendPc).SStampQ? ==>
                Abs() == if moved then DoSender(old(Abs()), may, false, src).0 else old(Abs())
      ensures old(sendPc).SStampP? || old(sendPc).SStampQ? ==> Abs() == old(Abs())
    {
      moved := true;
      match sendPc
      case SIdle =>
        if !may { return false; }
        sendPc := SPack(0);
      case SPack(k) =>
        if k < FrameLen(src) {
          if k < client.buffer.Length {
            client.buffer[k] := if k < |src| then src[k] else Int(0);
          }
          sendPc := SPack(k + 1);
        } else {
          client.bufLen := FrameLen(src);
          sendPc := SFlag;
        }
      case SFlag =>
        sent := sent + [Staged(Abs())];
        client.canSend := true;
        sendPc := SCount;
      case SCount =>
        toSend := toSend + 1;
        sendPc := SIdle;
      case _ =>
    }

    /** rdma_sendTd on the PS (ps.cpp:293-326): stamp both ages in the block itself, then the same. */
    method SendStamped(may: bool, src: array<Cell>) returns (moved: bool)
      requires Valid() && src != client.buffer && src != server.buffer
      modifies this, client`bufLen, client`canSend, client.buffer, src
      ensures moved == CanSender(old(Abs()), may)
      ensures moved ==> (Abs(), src[..]) == DoSender(old(Abs()), may, true, old(src[..]))
      ensures !moved ==> Abs() == old(Abs()) && src[..] == old(src[..])
    {
      moved := true;
      match sendPc
      case SIdle =>
        if !may { return false; }
        sendPc := SStampP;
      case SStampP =>
        if AGE < src.Length { src[AGE] := Int(toSend); }
        sendPc := SStampQ;
      case SStampQ =>
        var q := QBase(src[..]);
        if q + AGE < src.Length { src[q + AGE] := Int(toSend); }
        sendPc := SPack(0);
      case _ =>
        moved := SendFrom(may, src[..]);
    }

    /** What every turn of rdma_recvTd does apart from copying a cell. */
    method ReceiveTurn(ghost dst: seq<Cell>) returns (moved: bool)
      requires Valid()
      modifies this`recvPc, this`unpacked, this`got, server
      ensures moved == CanReceiver(old(Abs()))
      ensures Abs() == if moved then DoReceiver(old(Abs()), dst) else old(Abs())
    {
      moved := true;
      match recvPc
      case UIdle =>
        if unpacked >= server.bufRecvCounter { return false; }
        recvPc := UCopy(0);
      case UCopy(k) =>
        recvPc := if k < FrameLen(server.buffer[..]) then UCopy(k + 1) else UCount;
      case UCount =>
        unpacked := unpacked + 1;
        got := got + [dst];
        recvPc := UFlag;
      case UFlag =>
        server.canRecv := true;
        recvPc := UIdle;
    }

    /** rdma_recvTd on the worker (worker.cu:349-400). */
    method ReceiveFresh(mem: seq<Cell>) returns (moved: bool, mem': seq<Cell>)
      requires Valid()
      modifies this`recvPc, this`unpacked, this`got, server
      ensures moved == CanReceiver(old(Abs()))
      ensures Abs() == if moved then DoReceiver(old(Abs()), mem) else old(Abs())
      ensures mem' == if moved then UnpackFresh(old(Abs()), mem) else mem
    {
      mem' := mem;
      if recvPc.UIdle? && unpacked < server.bufRecvCounter {
        mem' := [];
      } else if recvPc.UCopy? && recvPc.k < FrameLen(server.buffer[..]) {
        mem' := mem + [if recvPc.k < server.buffer.Length then server.buffer[recvPc.k] else Int(0)];
      }
      moved := ReceiveTurn(mem);
    }

    /** rdma_recvTd on the PS (ps.cpp:339-394): in place, into the block that the header names. */
    method ReceiveInPlace(blocks: seq<array<Cell>>, i: nat) returns (moved: bool)
      requires Valid() && i < |blocks|
      requires forall j, k | 0 <= j < k < |blocks| :: blocks[j] != blocks[k]
      requires forall j | 0 <= j < |blocks| :: blocks[j] != client.buffer && blocks[j] != server.buffer
      modifies this`recvPc, this`unpacked, this`got, server, blocks
      ensures moved == CanReceiver(old(Abs()))
      ensures Abs() == if moved then DoReceiver(old(Abs()), old(blocks[i][..])) else old(Abs())
      ensures Contents(blocks) ==
              if moved then UnpackInPlace(old(Abs()), old(Contents(blocks))) else old(Contents(blocks))
    {
      ghost var before, dst := Contents(blocks), blocks[i][..];
      if recvPc.UCopy? && recvPc.k < FrameLen(server.buffer[..]) {
        var k := recvPc.k;
        var o := OwnerOf(server.buffer[..], k);
        if 0 <= o < |blocks| && k < blocks[o].Length {
          blocks[o][k] := if k < server.buffer.Length then server.buffer[k] else Int(0);
        }
        assert Contents(blocks) == UnpackInPlace(old(Abs()), before);
      }
      assert !Copies(old(Abs())) ==> Contents(blocks) == before;
      moved := ReceiveTurn(dst);
    }
  }
}
