/**
 The messages between the primary and its replicas: a header of 20 bytes, then up to two arguments
 whose lengths the header announces.  Writer and reader each decide by the message type which
 arguments there are; `Layout` says what they must agree on.

 Numbers are in the byte order of the (little-endian) host that both ends share.
 */
module Message {
  import opened Common

  type Byte = x: int | 0 <= x < 0x100

  type U16 = x: int | 0 <= x < 0x1_0000

  type U32 = x: int | 0 <= x < 0x1_0000_0000

  type U64 = x: int | 0 <= x < 0x1_0000_0000_0000_0000

  /** The bytes of a string, as far as they are stored; strlen stops at the first 0. */
  type Name = seq<Byte>

  const PROTOCOL_VERSION: U32 := 0x0001
  const START_HASH: U16 := 0xECDE
  const MAX_NAME_LEN := 128
  const HEADER_SIZE := 20

  const UNKNOWN: U32 := 0
  const REQUEST_CONTEXT_RESTART: U32 := 1
  const REQUEST_PLATFORM_RESTART: U32 := 2
  const REQUEST_FACTORY_RESET: U32 := 3
  const ACTION_RESPONSE: U32 := 4
  const REPLICA_DESCRIPTOR: U32 := 5
  const INFORM_PROCESS_CRASH: U32 := 6
  const INFORM_CLIENT_SERVICE_FAILED: U32 := 7
  const INFORM_PRIMARY_SERVICE_FAILED: U32 := 8
  const INSTANCE_STATUS: U32 := 9

  datatype Header = Header(hsh: U16, session: U16, version: U32, kind: U32,
                           size1: U16, size2: U16, size3: U16, size4: U16)

  /** None is the null pointer. */
  datatype Data = Data(response: U64, status: U64, process: Option<Name>, service: Option<Name>, context: Option<Name>)

  datatype Msg = Msg(hdr: Header, data: Data)

  datatype Arg = ResponseArg | StatusArg | ProcessArg | ServiceArg | ContextArg

  function NewMsg(kind: U32, session: U16): Msg {
    Msg(Header(START_HASH, session, PROTOCOL_VERSION, kind, 0, 0, 0, 0), Data(0, 0, None, None, None))
  }

  // ---- Numbers as bytes ----

  function Pow256(n: nat): (r: nat)
    ensures r > 0
  {
    if n == 0 then 1 else 0x100 * Pow256(n - 1)
  }

  function ToBytes(x: nat, n: nat): (b: seq<Byte>)
    ensures |b| == n
  {
    if n == 0 then [] else [x % 0x100] + ToBytes(x / 0x100, n - 1)
  }

  function FromBytes(b: seq<Byte>): (x: nat)
    ensures x < Pow256(|b|)
  {
    if b == [] then 0 else b[0] + 0x100 * FromBytes(b[1..])
  }

  lemma {:induction false} BytesRoundTrip(x: nat, n: nat)
    requires x < Pow256(n)
    ensures FromBytes(ToBytes(x, n)) == x
  {
    if n > 0 {
      BytesRoundTrip(x / 0x100, n - 1);
      assert ToBytes(x, n)[1..] == ToBytes(x / 0x100, n - 1);
    }
  }

  lemma {:induction false} NumberRoundTrip(b: seq<Byte>)
    ensures ToBytes(FromBytes(b), |b|) == b
  {
    if b != [] { NumberRoundTrip(b[1..]); }
  }

  lemma Widths()
    ensures Pow256(2) == 0x1_0000 && Pow256(4) == 0x1_0000_0000 && Pow256(8) == 0x1_0000_0000_0000_0000
  {
    assert Pow256(1) == 0x100;
    assert Pow256(3) == 0x100_0000;
    assert Pow256(5) == 0x100_0000_0000;
    assert Pow256(6) == 0x1_0000_0000_0000;
    assert Pow256(7) == 0x100_0000_0000_0000;
  }

  function HeaderBytes(h: Header): (b: seq<Byte>)
    ensures |b| == HEADER_SIZE
  {
    HeaderFront(h) + HeaderSizes(h)
  }

  function HeaderFront(h: Header): (b: seq<Byte>)
    ensures |b| == 12
  {
    ToBytes(h.hsh, 2) + ToBytes(h.session, 2) + ToBytes(h.version, 4) + ToBytes(h.kind, 4)
  }

  function HeaderSizes(h: Header): (b: seq<Byte>)
    ensures |b| == 8
  {
    ToBytes(h.size1, 2) + ToBytes(h.size2, 2) + ToBytes(h.size3, 2) + ToBytes(h.size4, 2)
  }

  function U16At(b: seq<Byte>, i: nat): U16
    requires i + 2 <= |b|
  {
    Widths();
    FromBytes(b[i..i + 2])
  }

  function U32At(b: seq<Byte>, i: nat): U32
    requires i + 4 <= |b|
  {
    Widths();
    FromBytes(b[i..i + 4])
  }

  function HeaderFrom(b: seq<Byte>): Header
    requires |b| == HEADER_SIZE
  {
    Header(U16At(b, 0), U16At(b, 2), U32At(b, 4), U32At(b, 8),
           U16At(b, 12), U16At(b, 14), U16At(b, 16), U16At(b, 18))
  }

  lemma U16RoundTrip(b: seq<Byte>, i: nat, x: U16)
    requires i + 2 <= |b| && b[i..i + 2] == ToBytes(x, 2)
    ensures U16At(b, i) == x
  {
    Widths();
    BytesRoundTrip(x, 2);
  }

  lemma U32RoundTrip(b: seq<Byte>, i: nat, x: U32)
    requires i + 4 <= |b| && b[i..i + 4] == ToBytes(x, 4)
    ensures U32At(b, i) == x
  {
    Widths();
    BytesRoundTrip(x, 4);
  }

  lemma HeaderRoundTrip(h: Header)
    ensures HeaderFrom(HeaderBytes(h)) == h
  {
    var b := HeaderBytes(h);
    assert forall i, j :: 0 <= i <= j <= 12 ==> b[i..j] == HeaderFront(h)[i..j];
    assert forall i, j :: 0 <= i <= j <= 8 ==> b[i + 12..j + 12] == HeaderSizes(h)[i..j];
    U16RoundTrip(b, 0, h.hsh);
    U16RoundTrip(b, 2, h.session);
    U32RoundTrip(b, 4, h.version);
    U32RoundTrip(b, 8, h.kind);
    U16RoundTrip(b, 12, h.size1);
    U16RoundTrip(b, 14, h.size2);
    U16RoundTrip(b, 16, h.size3);
    U16RoundTrip(b, 18, h.size4);
  }

  lemma TwoBytes(x: U16)
    ensures ToBytes(x, 2) == [x % 0x100, x / 0x100]
  {
    assert ToBytes(x / 0x100, 1) == [x / 0x100 % 0x100] + ToBytes(x / 0x100 / 0x100, 0);
  }

  lemma FourBytes(x: U32)
    ensures ToBytes(x, 4) == [x % 0x100, x / 0x100 % 0x100, x / 0x1_0000 % 0x100, x / 0x100_0000]
  {
    var y := x / 0x1_0000;
    assert x / 0x100 / 0x100 == y && y / 0x100 == x / 0x100_0000;
    TwoBytes(y);
    assert ToBytes(x / 0x100, 3) == [x / 0x100 % 0x100] + ToBytes(y, 2);
  }

  /** The header on the wire: the fields in this order, each with its low byte first. */
  lemma HeaderBytesAre(h: Header)
    ensures HeaderBytes(h)
         == [h.hsh % 0x100, h.hsh / 0x100, h.session % 0x100, h.session / 0x100,
             h.version % 0x100, h.version / 0x100 % 0x100, h.version / 0x1_0000 % 0x100, h.version / 0x100_0000,
             h.kind % 0x100, h.kind / 0x100 % 0x100, h.kind / 0x1_0000 % 0x100, h.kind / 0x100_0000,
             h.size1 % 0x100, h.size1 / 0x100, h.size2 % 0x100, h.size2 / 0x100,
             h.size3 % 0x100, h.size3 / 0x100, h.size4 % 0x100, h.size4 / 0x100]
  {
    hide ToBytes;
    TwoBytes(h.hsh);
    TwoBytes(h.session);
    FourBytes(h.version);
    FourBytes(h.kind);
    TwoBytes(h.size1);
    TwoBytes(h.size2);
    TwoBytes(h.size3);
    TwoBytes(h.size4);
  }

  // ---- Arguments ----

  function StrNLen(s: Name, max: nat): (n: nat)
    ensures n <= |s| && n <= max
  {
    if s == [] || max == 0 || s[0] == 0 then 0 else 1 + StrNLen(s[1..], max - 1)
  }

  /** What of a name is sent: at most 129 bytes, none of them 0. */
  function Cut(s: Name): Name {
    s[..StrNLen(s, MAX_NAME_LEN + 1)]
  }

  lemma {:induction false} StrNLenIs(s: Name, max: nat)
    ensures 0 !in s[..StrNLen(s, max)]
    ensures StrNLen(s, max) == max || StrNLen(s, max) == |s| || s[StrNLen(s, max)] == 0
  {
    if s != [] && max > 0 && s[0] != 0 {
      StrNLenIs(s[1..], max - 1);
      assert s[..StrNLen(s, max)] == [s[0]] + s[1..][..StrNLen(s[1..], max - 1)];
    }
  }

  function Layout(kind: U32): (args: seq<Arg>)
    ensures |args| <= 2
    ensures StatusArg in args || ResponseArg in args ==> |args| == 1
  {
    if kind == ACTION_RESPONSE then [ResponseArg]
    else if kind == INSTANCE_STATUS then [StatusArg]
    else if kind == REQUEST_CONTEXT_RESTART || kind == REQUEST_PLATFORM_RESTART || kind == REQUEST_FACTORY_RESET
    then [ServiceArg, ContextArg]
    else if kind == INFORM_PROCESS_CRASH then [ProcessArg, ContextArg]
    else if kind == INFORM_CLIENT_SERVICE_FAILED || kind == INFORM_PRIMARY_SERVICE_FAILED
    then [ServiceArg, ContextArg]
    else if kind == REPLICA_DESCRIPTOR then [ContextArg]
    else []
  }

  predicate IsSet(d: Data, a: Arg) {
    match a
    case ResponseArg | StatusArg => true
    case ProcessArg => d.process.Some?
    case ServiceArg => d.service.Some?
    case ContextArg => d.context.Some?
  }

  /** The setters refuse null names: a message to be sent has the names its type needs. */
  predicate Writable(m: Msg) {
    var args := Layout(m.hdr.kind);
    (|args| > 0 ==> IsSet(m.data, args[0])) && (|args| > 1 ==> IsSet(m.data, args[1]))
  }

  function ArgBytes(d: Data, a: Arg): (b: seq<Byte>)
    requires IsSet(d, a)
    ensures |b| <= MAX_NAME_LEN + 1
  {
    match a
    case ResponseArg => ToBytes(d.response, 8)
    case StatusArg => ToBytes(d.status, 8)
    case ProcessArg => Cut(d.process.value)
    case ServiceArg => Cut(d.service.value)
    case ContextArg => Cut(d.context.value)
  }

  /** The n-th argument (0 or 1) as it is sent; empty when there is none. */
  function Sent(m: Msg, n: nat): (b: seq<Byte>)
    requires Writable(m)
    ensures |b| <= MAX_NAME_LEN + 1
  {
    var args := Layout(m.hdr.kind);
    if n < |args| then ArgBytes(m.data, args[n]) else []
  }

  /** The header goes out with the lengths of the arguments of its type. */
  function Sized(m: Msg): Msg
    requires Writable(m)
  {
    var args := Layout(m.hdr.kind);
    m.(hdr := m.hdr.(size1 := if |args| > 0 then |Sent(m, 0)| else m.hdr.size1,
                     size2 := if |args| > 1 then |Sent(m, 1)| else m.hdr.size2))
  }

  function Encoded(m: Msg): seq<Byte>
    requires Writable(m)
  {
    HeaderBytes(Sized(m).hdr) + Sent(m, 0) + Sent(m, 1)
  }

  /** A transfer of no bytes counts as a failure. */
  function WriteStatus(m: Msg): Status
    requires Writable(m)
  {
    if Layout(m.hdr.kind) != [] && Sent(m, 0) + Sent(m, 1) == [] then Error else Ok
  }

  // ---- Reading ----

  function Min(a: nat, b: nat): nat { if a < b then a else b }

  /** Reading into `buffer`: it is overwritten as far as there are bytes. */
  function Fill(stream: seq<Byte>, buffer: seq<Byte>): (b: seq<Byte>)
    ensures |b| == |buffer|
  {
    var n := Min(|stream|, |buffer|);
    stream[..n] + buffer[n..]
  }

  function Zeros(n: nat): (b: seq<Byte>)
    ensures |b| == n
  {
    seq(n, _ => 0)
  }

  /** The buffer an argument is read into: the number itself, or new zeroed memory for a name. */
  function Buffer(d: Data, a: Arg, size: U16): (b: seq<Byte>)
    requires a.ResponseArg? || a.StatusArg? ==> size <= 8
    ensures |b| == size
  {
    match a
    case ResponseArg => ToBytes(d.response, 8)[..size]
    case StatusArg => ToBytes(d.status, 8)[..size]
    case _ => Zeros(size)
  }

  function Number(x: U64, b: seq<Byte>): U64
    requires |b| <= 8
  {
    Widths();
    FromBytes(b + ToBytes(x, 8)[|b|..])
  }

  /** An allocation of 0 bytes is the null pointer. */
  function Allocated(b: seq<Byte>): Option<Name> {
    if b == [] then None else Some(b)
  }

  function WithArg(d: Data, a: Arg, b: seq<Byte>): Data
    requires a.ResponseArg? || a.StatusArg? ==> |b| <= 8
  {
    match a
    case ResponseArg => d.(response := Number(d.response, b))
    case StatusArg => d.(status := Number(d.status, b))
    case ProcessArg => d.(process := Allocated(b))
    case ServiceArg => d.(service := Allocated(b))
    case ContextArg => d.(context := Allocated(b))
  }

  /** What a read leaves behind; Overrun when a number is announced with more bytes than its field has. */
  datatype Outcome = Outcome(status: Status, msg: Msg, rest: seq<Byte>) | Overrun

  function HeaderRead(m: Msg, stream: seq<Byte>): Header {
    HeaderFrom(Fill(stream, HeaderBytes(m.hdr)))
  }

  /** A number is announced with at most its own 8 bytes; anything else is written past its field. */
  predicate Announced(h: Header) {
    ResponseArg in Layout(h.kind) || StatusArg in Layout(h.kind) ==> h.size1 <= 8
  }

  /** The memory for all arguments of a message with header h. */
  function Buffers(h: Header, d: Data): (b: seq<Byte>)
    requires Announced(h)
  {
    var args := Layout(h.kind);
    if args == [] then []
    else if |args| == 1 then Buffer(d, args[0], h.size1)
    else Buffer(d, args[0], h.size1) + Buffer(d, args[1], h.size2)
  }

  function WithArgs(h: Header, d: Data, b: seq<Byte>): Data
    requires Announced(h) && |b| == |Buffers(h, d)|
  {
    var args := Layout(h.kind);
    if args == [] then d
    else if |args| == 1 then WithArg(d, args[0], b)
    else WithArg(WithArg(d, args[0], b[..h.size1]), args[1], b[h.size1..])
  }

  /** The arguments that follow the header h. */
  function ArgsFrom(h: Header, d: Data, stream: seq<Byte>): Outcome
    requires Announced(h)
  {
    if Layout(h.kind) == [] then Outcome(Ok, Msg(h, d), stream)
    else
      var n := Min(|stream|, |Buffers(h, d)|);
      Outcome(if n == 0 then Error else Ok, Msg(h, WithArgs(h, d, Fill(stream, Buffers(h, d)))), stream[n..])
  }

  function ReadFrom(m: Msg, stream: seq<Byte>): Outcome {
    if stream == [] then Outcome(Error, m, stream)
    else if !Announced(HeaderRead(m, stream)) then Overrun
    else ArgsFrom(HeaderRead(m, stream), m.data, stream[Min(|stream|, HEADER_SIZE)..])
  }

  /** A transfer overwrites the first bytes of the buffer and leaves the others. */
  lemma FillAt(stream: seq<Byte>, buffer: seq<Byte>, i: nat)
    requires i < |buffer|
    ensures Fill(stream, buffer)[i] == if i < |stream| then stream[i] else buffer[i]
  {
  }

  /** A number announced with fewer than 8 bytes keeps its higher ones. */
  lemma NumberKeepsHighBytes(x: U64, b: seq<Byte>)
    requires |b| <= 8
    ensures ToBytes(Number(x, b), 8) == b + ToBytes(x, 8)[|b|..]
  {
    NumberRoundTrip(b + ToBytes(x, 8)[|b|..]);
  }

  /** The bytes announced for the arguments. */
  function AnnouncedLength(h: Header): nat {
    match |Layout(h.kind)| case 0 => 0 case 1 => h.size1 case _ => h.size1 + h.size2
  }

  /**
   What a read takes from any stream: the header and as many bytes as it announces, as far as there
   are any.  It fails exactly when the header or the announced arguments bring no byte at all.
   */
  lemma ReadTakes(m: Msg, stream: seq<Byte>)
    requires ReadFrom(m, stream).Outcome?
    ensures var r, h := ReadFrom(m, stream), HeaderRead(m, stream);
            && r.rest == stream[Min(|stream|, HEADER_SIZE + if stream == [] then 0 else AnnouncedLength(h))..]
            && (r.status == Ok <==>
                  && stream != []
                  && (Layout(h.kind) != [] ==> AnnouncedLength(h) > 0 && |stream| > HEADER_SIZE))
  {
    hide HeaderRead, Layout, WithArgs, Buffer;
  }

  // ---- The message object and its descriptor ----

  class Channel {
    var bytes: seq<Byte>

    constructor ()
      ensures bytes == []
    {
      bytes := [];
    }

    method ReadV(buffer: seq<Byte>) returns (n: nat, filled: seq<Byte>)
      modifies this
      ensures n == Min(|old(bytes)|, |buffer|) && bytes == old(bytes)[n..]
      ensures filled == Fill(old(bytes), buffer)
    {
      n := Min(|bytes|, |buffer|);
      filled := Fill(bytes, buffer);
      bytes := bytes[n..];
    }

    method WriteV(segments: seq<Byte>) returns (n: nat)
      modifies this
      ensures n == |segments| && bytes == old(bytes) + segments
    {
      n := |segments|;
      bytes := bytes + segments;
    }
  }

  class MessageObject {
    var hdr: Header
    var data: Data

    function View(): Msg
      reads this
    {
      Msg(hdr, data)
    }

    constructor (kind: U32, session: U16)
      ensures View() == NewMsg(kind, session)
    {
      hdr := Header(START_HASH, session, PROTOCOL_VERSION, kind, 0, 0, 0, 0);
      data := Data(0, 0, None, None, None);
    }

    method SetSizes()
      requires Writable(View())
      modifies this`hdr
      ensures View() == Sized(old(View()))
    {
      if hdr.kind == ACTION_RESPONSE || hdr.kind == INSTANCE_STATUS {
        hdr := hdr.(size1 := 8);
      } else if hdr.kind == REQUEST_CONTEXT_RESTART || hdr.kind == REQUEST_PLATFORM_RESTART
                || hdr.kind == REQUEST_FACTORY_RESET {
        assert Layout(hdr.kind) == [ServiceArg, ContextArg];
        hdr := hdr.(size1 := StrNLen(data.service.value, MAX_NAME_LEN + 1),
                    size2 := StrNLen(data.context.value, MAX_NAME_LEN + 1));
      } else if hdr.kind == INFORM_PROCESS_CRASH {
        assert Layout(hdr.kind) == [ProcessArg, ContextArg];
        hdr := hdr.(size1 := StrNLen(data.process.value, MAX_NAME_LEN + 1),
                    size2 := StrNLen(data.context.value, MAX_NAME_LEN + 1));
      } else if hdr.kind == INFORM_CLIENT_SERVICE_FAILED || hdr.kind == INFORM_PRIMARY_SERVICE_FAILED {
        assert Layout(hdr.kind) == [ServiceArg, ContextArg];
        hdr := hdr.(size1 := StrNLen(data.service.value, MAX_NAME_LEN + 1),
                    size2 := StrNLen(data.context.value, MAX_NAME_LEN + 1));
      } else if hdr.kind == REPLICA_DESCRIPTOR {
        assert Layout(hdr.kind) == [ContextArg];
        hdr := hdr.(size1 := StrNLen(data.context.value, MAX_NAME_LEN + 1));
      }
    }

    method Write(fd: Channel) returns (status: Status)
      requires Writable(View())
      modifies this`hdr, fd
      ensures View() == Sized(old(View()))
      ensures status == WriteStatus(old(View()))
      ensures fd.bytes == old(fd.bytes) + Encoded(old(View()))
    {
      SetSizes();
      var sz := fd.WriteV(HeaderBytes(hdr));
      var index, iov := DataSegments(old(View()));
      if index > 0 {
        sz := fd.WriteV(iov);
        if sz <= 0 { return Error; }
      }
      status := Ok;
    }

    /** The arguments to send: how many segments, and their bytes. */
    method DataSegments(ghost m: Msg) returns (index: nat, iov: seq<Byte>)
      requires Writable(m) && View() == Sized(m)
      ensures iov == Sent(m, 0) + Sent(m, 1) && index == |Layout(m.hdr.kind)|
    {
      index, iov := 0, [];
      if hdr.kind == ACTION_RESPONSE {
        index, iov := 1, ToBytes(data.response, 8)[..hdr.size1];
      } else if hdr.kind == INSTANCE_STATUS {
        index, iov := 1, ToBytes(data.status, 8)[..hdr.size1];
      } else if hdr.kind == REQUEST_CONTEXT_RESTART || hdr.kind == REQUEST_PLATFORM_RESTART
                || hdr.kind == REQUEST_FACTORY_RESET {
        assert Layout(hdr.kind) == [ServiceArg, ContextArg];
        index, iov := 2, data.service.value[..hdr.size1] + data.context.value[..hdr.size2];
      } else if hdr.kind == INFORM_PROCESS_CRASH {
        assert Layout(hdr.kind) == [ProcessArg, ContextArg];
        index, iov := 2, data.process.value[..hdr.size1] + data.context.value[..hdr.size2];
      } else if hdr.kind == INFORM_CLIENT_SERVICE_FAILED || hdr.kind == INFORM_PRIMARY_SERVICE_FAILED {
        assert Layout(hdr.kind) == [ServiceArg, ContextArg];
        index, iov := 2, data.service.value[..hdr.size1] + data.context.value[..hdr.size2];
      } else if hdr.kind == REPLICA_DESCRIPTOR {
        assert Layout(hdr.kind) == [ContextArg];
        index, iov := 1, data.context.value[..hdr.size1];
      }
    }

    /** None is an overrun: nothing is known of memory after it. */
    method Read(fd: Channel) returns (status: Option<Status>)
      modifies this, fd
      ensures match ReadFrom(old(View()), old(fd.bytes))
              case Outcome(s, m, rest) => status == Some(s) && View() == m && fd.bytes == rest
              case Overrun => status == None
    {
      var sz, b := fd.ReadV(HeaderBytes(hdr));
      if sz <= 0 {
        assert old(fd.bytes) == fd.bytes == [];
        return Some(Error);
      }
      hdr := HeaderFrom(b);
      if !Announced(hdr) { return None; }
      var s := ReadArgs(fd);
      status := Some(s);
    }

    method ReadArgs(fd: Channel) returns (status: Status)
      requires Announced(hdr)
      modifies this`data, fd
      ensures Outcome(status, View(), fd.bytes) == ArgsFrom(hdr, old(data), old(fd.bytes))
    {
      var index, buffer := Allocate();
      if index > 0 {
        var sz, b := fd.ReadV(buffer);
        Store(b);
        if sz <= 0 { return Error; }
      }
      status := Ok;
    }

    /** The memory for the announced arguments. */
    method Allocate() returns (index: nat, buffer: seq<Byte>)
      requires Announced(hdr)
      ensures index == |Layout(hdr.kind)| && buffer == Buffers(hdr, data)
    {
      index, buffer := 0, [];
      if hdr.kind == ACTION_RESPONSE {
        index, buffer := 1, ToBytes(data.response, 8)[..hdr.size1];
      } else if hdr.kind == INSTANCE_STATUS {
        index, buffer := 1, ToBytes(data.status, 8)[..hdr.size1];
      } else if hdr.kind == REQUEST_CONTEXT_RESTART || hdr.kind == REQUEST_PLATFORM_RESTART
                || hdr.kind == REQUEST_FACTORY_RESET || hdr.kind == INFORM_PROCESS_CRASH
                || hdr.kind == INFORM_CLIENT_SERVICE_FAILED || hdr.kind == INFORM_PRIMARY_SERVICE_FAILED {
        index, buffer := 2, Zeros(hdr.size1) + Zeros(hdr.size2);
      } else if hdr.kind == REPLICA_DESCRIPTOR {
        index, buffer := 1, Zeros(hdr.size1);
      }
    }

    /** The memory after the transfer, seen through the fields that point to it. */
    method Store(b: seq<Byte>)
      requires Announced(hdr) && |b| == |Buffers(hdr, data)|
      modifies this`data
      ensures data == WithArgs(hdr, old(data), b)
    {
      if hdr.kind == ACTION_RESPONSE {
        data := data.(response := Number(data.response, b));
      } else if hdr.kind == INSTANCE_STATUS {
        data := data.(status := Number(data.status, b));
      } else if hdr.kind == REQUEST_CONTEXT_RESTART || hdr.kind == REQUEST_PLATFORM_RESTART
                || hdr.kind == REQUEST_FACTORY_RESET || hdr.kind == INFORM_CLIENT_SERVICE_FAILED
                || hdr.kind == INFORM_PRIMARY_SERVICE_FAILED {
        data := data.(service := Allocated(b[..hdr.size1]), context := Allocated(b[hdr.size1..]));
      } else if hdr.kind == INFORM_PROCESS_CRASH {
        data := data.(process := Allocated(b[..hdr.size1]), context := Allocated(b[hdr.size1..]));
      } else if hdr.kind == REPLICA_DESCRIPTOR {
        data := data.(context := Allocated(b));
      }
    }
  }

  // ---- The wire ----

  /** Each type of message on the wire: the arguments after the header, their order and their announced lengths. */
  lemma WireFormat(m: Msg)
    requires Writable(m)
    ensures var k, h, d := m.hdr.kind, m.hdr, m.data;
            if k == REQUEST_CONTEXT_RESTART || k == REQUEST_PLATFORM_RESTART || k == REQUEST_FACTORY_RESET
               || k == INFORM_CLIENT_SERVICE_FAILED || k == INFORM_PRIMARY_SERVICE_FAILED
            then d.service.Some? && d.context.Some? && Framed(m, Cut(d.service.value), Some(Cut(d.context.value)))
            else if k == INFORM_PROCESS_CRASH
            then d.process.Some? && d.context.Some? && Framed(m, Cut(d.process.value), Some(Cut(d.context.value)))
            else if k == REPLICA_DESCRIPTOR then d.context.Some? && Framed(m, Cut(d.context.value), None)
            else if k == ACTION_RESPONSE then Framed(m, ToBytes(d.response, 8), None)
            else if k == INSTANCE_STATUS then Framed(m, ToBytes(d.status, 8), None)
            else Encoded(m) == HeaderBytes(h)
  {
    hide HeaderBytes;
  }

  ghost predicate Framed(m: Msg, first: seq<Byte>, second: Option<seq<Byte>>)
    requires Writable(m)
  {
    && |first| < 0x1_0000 && (second.Some? ==> |second.value| < 0x1_0000)
    && Encoded(m)
       == match second
          case Some(b) => HeaderBytes(m.hdr.(size1 := |first|, size2 := |b|)) + first + b
          case None => HeaderBytes(m.hdr.(size1 := |first|)) + first
  }

  // ---- Round trip ----

  /** What the reader's new message object holds after reading m. */
  function Received(m: Msg): Msg
    requires Writable(m)
  {
    var args, d := Layout(m.hdr.kind), NewMsg(UNKNOWN, 0).data;
    var d' := if |args| > 0 then Carried(d, m.data, args[0]) else d;
    Msg(Sized(m).hdr, if |args| > 1 then Carried(d', m.data, args[1]) else d')
  }

  function Carried(d: Data, from: Data, a: Arg): Data
    requires IsSet(from, a)
  {
    match a
    case ResponseArg => d.(response := from.response)
    case StatusArg => d.(status := from.status)
    case ProcessArg => d.(process := Allocated(Cut(from.process.value)))
    case ServiceArg => d.(service := Allocated(Cut(from.service.value)))
    case ContextArg => d.(context := Allocated(Cut(from.context.value)))
  }

  lemma FillExact(b: seq<Byte>, rest: seq<Byte>, buffer: seq<Byte>)
    requires |b| == |buffer|
    ensures Fill(b + rest, buffer) == b && Min(|b + rest|, |buffer|) == |b| && (b + rest)[|b|..] == rest
  {
  }

  lemma WithArgCarries(d: Data, from: Data, a: Arg)
    requires IsSet(from, a)
    ensures WithArg(d, a, ArgBytes(from, a)) == Carried(d, from, a)
  {
    Widths();
    match a
    case ResponseArg =>
      BytesRoundTrip(from.response, 8);
      assert ToBytes(from.response, 8) + [] == ToBytes(from.response, 8);
    case StatusArg =>
      BytesRoundTrip(from.status, 8);
      assert ToBytes(from.status, 8) + [] == ToBytes(from.status, 8);
    case _ =>
  }

  lemma HeaderArrives(m: Msg, rest: seq<Byte>)
    requires Writable(m)
    ensures HeaderRead(NewMsg(UNKNOWN, 0), Encoded(m) + rest) == Sized(m).hdr
    ensures (Encoded(m) + rest)[HEADER_SIZE..] == Sent(m, 0) + Sent(m, 1) + rest
  {
    var h := HeaderBytes(Sized(m).hdr);
    assert Encoded(m) + rest == h + (Sent(m, 0) + Sent(m, 1) + rest);
    FillExact(h, Sent(m, 0) + Sent(m, 1) + rest, HeaderBytes(NewMsg(UNKNOWN, 0).hdr));
    HeaderRoundTrip(Sized(m).hdr);
  }

  lemma ArgsArrive(m: Msg, rest: seq<Byte>)
    requires Writable(m)
    ensures ArgsFrom(Sized(m).hdr, NewMsg(UNKNOWN, 0).data, Sent(m, 0) + Sent(m, 1) + rest)
         == Outcome(WriteStatus(m), Received(m), rest)
  {
    var h, d, args := Sized(m).hdr, NewMsg(UNKNOWN, 0).data, Layout(m.hdr.kind);
    var b := Sent(m, 0) + Sent(m, 1);
    if args == [] {
      assert b + rest == rest;
    } else {
      assert |args| == 1 ==> b == Sent(m, 0);
      FillExact(b, rest, Buffers(h, d));
      WithArgCarries(d, m.data, args[0]);
      if |args| > 1 {
        assert b[..h.size1] == Sent(m, 0) && b[h.size1..] == Sent(m, 1);
        WithArgCarries(Carried(d, m.data, args[0]), m.data, args[1]);
      }
    }
  }

  /**
   One message.  Whatever follows it on the stream, the reader takes exactly the bytes that were
   written, agrees with the writer on the status, and holds the names cut to 129 bytes.
   */
  lemma MessageRoundTrip(m: Msg, rest: seq<Byte>)
    requires Writable(m)
    ensures ReadFrom(NewMsg(UNKNOWN, 0), Encoded(m) + rest) == Outcome(WriteStatus(m), Received(m), rest)
  {
    HeaderArrives(m, rest);
    ArgsArrive(m, rest);
  }

  function EncodedAll(ms: seq<Msg>): seq<Byte>
    requires forall m :: m in ms ==> Writable(m)
  {
    if ms == [] then [] else Encoded(ms[0]) + EncodedAll(ms[1..])
  }

  /** The messages ms are read one by one from the stream, and `rest` is left. */
  ghost predicate ReadsAs(stream: seq<Byte>, ms: seq<Msg>, rest: seq<Byte>)
    requires forall m :: m in ms ==> Writable(m)
  {
    if ms == [] then stream == rest
    else
      var r := ReadFrom(NewMsg(UNKNOWN, 0), stream);
      r.Outcome? && r.status == WriteStatus(ms[0]) && r.msg == Received(ms[0]) && ReadsAs(r.rest, ms[1..], rest)
  }

  /** A stream of messages stays in step, also across messages whose transfer counts as failed. */
  lemma {:induction false} StreamRoundTrip(ms: seq<Msg>, rest: seq<Byte>)
    requires forall m :: m in ms ==> Writable(m)
    ensures ReadsAs(EncodedAll(ms) + rest, ms, rest)
  {
    if ms == [] {
      assert EncodedAll(ms) + rest == rest;
    } else {
      assert EncodedAll(ms) + rest == Encoded(ms[0]) + (EncodedAll(ms[1..]) + rest);
      MessageRoundTrip(ms[0], EncodedAll(ms[1..]) + rest);
      StreamRoundTrip(ms[1..], rest);
    }
  }

  predicate Whole(name: Option<Name>) {
    name.Some? ==> 0 < |name.value| <= MAX_NAME_LEN + 1 && 0 !in name.value
  }

  /** Only what the type of the message carries is set. */
  predicate Lean(m: Msg) {
    var args, d := Layout(m.hdr.kind), m.data;
    && (ResponseArg !in args ==> d.response == 0) && (StatusArg !in args ==> d.status == 0)
    && (ProcessArg !in args ==> d.process == None) && (ServiceArg !in args ==> d.service == None)
    && (ContextArg !in args ==> d.context == None)
  }

  lemma CutIsWhole(s: Name)
    ensures Allocated(Cut(s)) == Some(s) <==> Whole(Some(s))
  {
    StrNLenIs(s, MAX_NAME_LEN + 1);
    var n := StrNLen(s, MAX_NAME_LEN + 1);
    assert n < |s| && s[n] == 0 ==> 0 in s;
    if n == |s| { assert s[..n] == s; }
  }

  /** The data of a message arrives unchanged exactly if its names are 1 to 129 bytes without a 0. */
  lemma DataSurvivesIff(m: Msg)
    requires Writable(m) && Lean(m)
    ensures Received(m).data == m.data <==> Whole(m.data.process) && Whole(m.data.service) && Whole(m.data.context)
  {
    match m.data.process { case Some(s) => CutIsWhole(s); case None => }
    match m.data.service { case Some(s) => CutIsWhole(s); case None => }
    match m.data.context { case Some(s) => CutIsWhole(s); case None => }
  }
}
