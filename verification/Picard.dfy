/** The serial link's end of the multiplexer: building requests, and sorting the
    frames the manager sends. */
module Picard {
  import opened Bytes
  import opened MuxMessage
  import opened Subscription
  import opened Manager

  const HELLO_RESPONSE: byte := 2
  const MGR_HELLO: byte := 3
  const SERIAL_API_HEADER_LEN: nat := 4
  const CONTROL_REQUEST: byte := 2
  const CONTROL_RESPONSE: byte := 3

  function RequestFrame(typ: byte, seqNo: byte, data: ByteVector): ByteVector
    requires |data| < 256
  {
    [CONTROL_REQUEST, typ, seqNo, |data|] + data
  }

  function ResponseFrame(typ: byte, seqNo: byte, code: byte, payload: ByteVector): ByteVector
    requires |payload| < 255
  {
    [CONTROL_RESPONSE, typ, seqNo, |payload| + 1, code] + payload
  }

  function NotificationFrame(reliable: bool, seqNo: byte, notifType: byte, payload: ByteVector): ByteVector
    requires |payload| < 255
  {
    [if reliable then 2 else 0, NOTIFICATION, seqNo, |payload| + 1, notifType] + payload
  }

  /** What a frame makes the link do beside updating its own fields. */
  datatype Callback =
    | NoCallback
    | Completed(typ: byte, seqNo: byte, code: byte, payload: ByteVector)
    | Notify(notifType: byte, payload: ByteVector)
    | Reset

  predicate KnownProtocol(version: byte) {
    version == 4 || version == 3
  }

  class CBasePicardIO {
    var connected: bool
    var protocolVersion: byte
    var seqNo: byte     // next sequence number to send
    var mgrSeqNo: byte  // last sequence number received
    var raw: seq<ByteVector>  // what has been handed to the port, in order
    const hasCallback: bool

    constructor (hasCallback: bool)
      ensures !connected && protocolVersion == 0 && seqNo == 0 && mgrSeqNo == 0 && raw == []
      ensures this.hasCallback == hasCallback
    {
      connected := false;
      protocolVersion := 0;
      seqNo, mgrSeqNo := 0, 0;
      raw := [];
      this.hasCallback := hasCallback;
    }

    /** The request carries the command's bytes, cut to the length modulo 256,
        and the number it is sent under is returned to the caller. */
    method SendCommand(cmd: Message) returns (sent: byte)
      modifies this`raw
      ensures sent == seqNo
      ensures raw == old(raw) + [RequestFrame(cmd.typ, seqNo, cmd.data[..|cmd.data| % 256])]
    {
      var cmdLen: nat := |cmd.data| % 256;
      var buf := new byte[cmdLen + SERIAL_API_HEADER_LEN];
      buf[0], buf[1], buf[2], buf[3] := CONTROL_REQUEST, cmd.typ, seqNo, cmdLen;
      for i := 0 to cmdLen
        modifies buf
        invariant buf[..4] == [CONTROL_REQUEST, cmd.typ, seqNo, cmdLen]
        invariant buf[4..4 + i] == cmd.data[..i]
      {
        buf[4 + i] := cmd.data[i];
        assert buf[4..4 + i + 1] == buf[4..4 + i] + [buf[4 + i]];
        assert cmd.data[..i + 1] == cmd.data[..i] + [cmd.data[i]];
      }
      sent := seqNo;
      assert buf[..] == buf[..4] + buf[4..4 + cmdLen];
      var packet := buf[..];
      assert packet == RequestFrame(cmd.typ, seqNo, cmd.data[..|cmd.data| % 256]);
      raw := raw + [packet];
    }

    method SendAck(typ: byte, number: byte)
      modifies this`raw, this`mgrSeqNo
      ensures mgrSeqNo == if number == 255 then 0 else number as int + 1
      ensures raw == old(raw) + [[3, typ, number, 1, 0]]
    {
      var buf: ByteVector := [];
      buf := buf + [CONTROL_RESPONSE];
      buf := buf + [typ];
      buf := buf + [number];
      buf := buf + [1];
      buf := buf + [0];
      mgrSeqNo := (number as int + 1) % 256;
      assert buf == [CONTROL_RESPONSE, typ, number, 1, 0];
      raw := raw + [buf];
    }

    /** One frame from the manager. A response moves the sequence number past
        its own and is passed on; a notification is passed on, and acknowledged
        first if it is reliable; a hello response sets both numbers; frames with
        a wrong length and requests of other types do nothing. */
    method FrameComplete(frame: ByteVector) returns (callback: Callback)
      modifies this
      ensures WrongLength(frame) ==> callback == NoCallback && unchanged(this)
      ensures IsResponse(frame) ==>
                && callback == (if hasCallback then Completed(frame[1], frame[2], frame[4], frame[5..]) else NoCallback)
                && seqNo == (if frame[2] == 255 then 0 else frame[2] as int + 1)
                && unchanged(`raw) && unchanged(`mgrSeqNo) && unchanged(`connected) && unchanged(`protocolVersion)
      ensures IsNotification(frame) ==>
                && callback == NotificationCallback(frame, hasCallback, old(mgrSeqNo))
                && mgrSeqNo == frame[2]
                && raw == old(raw) + (if IsReliable(frame) then [[3, 20, frame[2], 1, 0]] else [])
                && unchanged(`seqNo) && unchanged(`connected) && unchanged(`protocolVersion)
      ensures IsHelloResponse(frame) ==>
                && callback == NoCallback && unchanged(`raw)
                && protocolVersion == (if KnownProtocol(frame[5]) then frame[5] else old(protocolVersion))
                && (if frame[0] == 0 && frame[4] == 0
                    then seqNo == (if frame[7] == 255 then 0 else frame[7] as int + 1) && mgrSeqNo == frame[6] && connected
                    else unchanged(`seqNo) && unchanged(`mgrSeqNo) && unchanged(`connected))
      ensures IsManagerHello(frame) ==>
                && callback == (if connected then Reset else NoCallback)
                && protocolVersion == (if KnownProtocol(frame[4]) then frame[4] else old(protocolVersion))
                && unchanged(`raw) && unchanged(`seqNo) && unchanged(`mgrSeqNo) && unchanged(`connected)
      ensures !IsResponse(frame) && !IsNotification(frame) && !IsHelloResponse(frame) && !IsManagerHello(frame) ==>
                callback == NoCallback && unchanged(this)
    {
      callback := NoCallback;
      if |frame| > SERIAL_API_HEADER_LEN {
        var control := frame[0];
        var typ := frame[1];
        var number := frame[2];
        var len: nat := frame[3];
        if len + SERIAL_API_HEADER_LEN != |frame| {
          return;
        }
        if typ == HELLO_RESPONSE && len >= 5 {
          var successCode := frame[4];
          var version := frame[5];
          if KnownProtocol(version) {
            protocolVersion := version;
          }
          if control == 0 && successCode == 0 {
            mgrSeqNo := frame[6];
            seqNo := (frame[7] as int + 1) % 256;
            if !connected {
              connected := true;
            }
          }
        } else if typ == MGR_HELLO && len >= 2 {
          if KnownProtocol(frame[4]) {
            protocolVersion := frame[4];
          }
          if connected {
            callback := Reset;
          }
        } else if typ == NOTIFICATION && control % 2 == 0 && len > 1 {
          var isReliable := control / 2 % 2 == 1;
          if isReliable {
            SendAck(typ, number);
          }
          var notifType := frame[4];
          var notif := frame[5..];
          if hasCallback && (!isReliable || mgrSeqNo != number) {
            callback := Notify(notifType, notif);
          }
          mgrSeqNo := number;
        } else if typ > NOTIFICATION && len >= 1 && control == 3 {
          seqNo := (number as int + 1) % 256;
          if hasCallback {
            callback := Completed(typ, number, frame[4], frame[5..]);
          }
        }
      }
    }
  }

  predicate WrongLength(frame: ByteVector) {
    |frame| <= SERIAL_API_HEADER_LEN || (frame[3] as nat) + SERIAL_API_HEADER_LEN != |frame|
  }

  predicate IsResponse(frame: ByteVector) {
    !WrongLength(frame) && frame[1] > NOTIFICATION && frame[0] == CONTROL_RESPONSE
  }

  predicate IsNotification(frame: ByteVector) {
    !WrongLength(frame) && frame[1] == NOTIFICATION && frame[0] % 2 == 0 && |frame| > 5
  }

  predicate IsReliable(frame: ByteVector)
    requires |frame| > 0
  {
    frame[0] / 2 % 2 == 1
  }

  predicate IsHelloResponse(frame: ByteVector) {
    !WrongLength(frame) && frame[1] == HELLO_RESPONSE && |frame| >= 9
  }

  predicate IsManagerHello(frame: ByteVector) {
    !WrongLength(frame) && frame[1] == MGR_HELLO && |frame| >= 6
  }

  /** Which frames are which, over their bytes. */
  lemma FrameKinds(f: ByteVector)
    ensures WrongLength(f) <==> |f| < 5 || |f| != f[3] as int + 4
    ensures IsResponse(f) <==> |f| >= 5 && |f| == f[3] as int + 4 && f[0] == 3 && f[1] > 20
    ensures IsNotification(f) <==> |f| >= 6 && |f| == f[3] as int + 4 && f[0] % 2 == 0 && f[1] == 20
    ensures IsNotification(f) ==> (IsReliable(f) <==> f[0] % 4 == 2)
    ensures IsHelloResponse(f) <==> |f| >= 9 && |f| == f[3] as int + 4 && f[1] == 2
    ensures IsManagerHello(f) <==> |f| >= 6 && |f| == f[3] as int + 4 && f[1] == 3
    ensures forall v: byte :: KnownProtocol(v) <==> v == 3 || v == 4
  {
  }

  /** A request is its type, the number, the length and the data. */
  lemma RequestForm(typ: byte, seqNo: byte, data: ByteVector)
    requires |data| < 256
    ensures RequestFrame(typ, seqNo, data) == [2, typ, seqNo, |data|] + data
  {
  }

  /** The duplicate test as written: the last number, which an acknowledgement
      has just moved, is compared with the frame's. */
  function NotificationCallback(frame: ByteVector, hasCallback: bool, mgrSeqNo: byte): Callback
    requires IsNotification(frame)
  {
    var last := if IsReliable(frame) then (frame[2] as int + 1) % 256 else mgrSeqNo;
    if hasCallback && (!IsReliable(frame) || last != frame[2]) then Notify(frame[4], frame[5..]) else NoCallback
  }

  /** The duplicate filter never fires: every notification is passed on,
      whatever number was received before. */
  lemma DuplicatesPassOn(frame: ByteVector, mgrSeqNo: byte)
    requires IsNotification(frame)
    ensures NotificationCallback(frame, true, mgrSeqNo) == Notify(frame[4], frame[5..])
  {
  }

  /** Frames built as the protocol defines them are recognised, with their
      fields in place. */
  lemma ResponseRecognised(typ: byte, seqNo: byte, code: byte, payload: ByteVector)
    requires typ > NOTIFICATION && |payload| < 255
    ensures var f := ResponseFrame(typ, seqNo, code, payload);
            IsResponse(f) && f[1] == typ && f[2] == seqNo && f[4] == code && f[5..] == payload
  {
  }

  lemma NotificationRecognised(reliable: bool, seqNo: byte, notifType: byte, payload: ByteVector)
    requires 0 < |payload| < 255
    ensures var f := NotificationFrame(reliable, seqNo, notifType, payload);
            IsNotification(f) && IsReliable(f) == reliable && f[4] == notifType && f[5..] == payload
  {
  }

  /** A request the command loop lets through is sent whole. */
  lemma RequestNotCut(m: Message, seqNo: byte)
    requires Forwarded(m)
    ensures m.data[..|m.data| % 256] == m.data
    ensures var f := RequestFrame(m.typ, seqNo, m.data);
            f[0] == 2 && f[1] == m.typ && f[2] == seqNo && f[3] == |m.data| && f[4..] == m.data
  {
  }
}
