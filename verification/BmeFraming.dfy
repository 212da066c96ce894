/** The framed request/reply protocol of the battery management client
    (src/bme/bmeipc.c). Frames arrive in full: a read that does not fail returns all it asks
    for, or whatever is left of the stream. */
module BmeFraming {
  import opened Values

  type Byte = n: int | 0 <= n < 256

  const SYNC: UInt32 := 0x434e5953
  const HEADER: nat := 8
  const MSG_SIZE_MAX: nat := 0x80
  const EPROTO := 71
  const ENOMEM := 12

  // ---- 32-bit integers on the wire ----

  /** Little-endian bytes of a 32-bit word. */
  function Le32(u: UInt32): (b: seq<Byte>)
    ensures |b| == 4
  {
    [u % 256, u / 256 % 256, u / 256 / 256 % 256, u / 256 / 256 / 256]
  }

  function FromLe32(b: seq<Byte>): UInt32
    requires |b| == 4
  {
    Shift(b[0], Shift(b[1], Shift(b[2], b[3])))
  }

  /** One more low byte. */
  function Shift(low: Byte, high: int): int {
    low + 256 * high
  }

  /** The 32-bit word and the signed number with the same bits. */
  function Unsigned(n: int): UInt32 {
    n % 0x1_0000_0000
  }

  function Signed(u: UInt32): int {
    if u < 0x8000_0000 then u else u - 0x1_0000_0000
  }

  lemma ShiftInverts(low: Byte, high: int)
    ensures Shift(low, high) % 256 == low && Shift(low, high) / 256 == high
    ensures forall u :: Shift(u % 256, u / 256) == u
  {
  }

  lemma WordRoundTrip(u: UInt32, b: seq<Byte>)
    requires |b| == 4
    ensures FromLe32(Le32(u)) == u && Le32(FromLe32(b)) == b
  {
    BytesOfWord(u);
    var w2 := Shift(b[2], b[3]);
    var w1 := Shift(b[1], w2);
    ShiftInverts(b[0], w1);
    ShiftInverts(b[1], w2);
    ShiftInverts(b[2], b[3]);
  }

  lemma BytesOfWord(u: UInt32)
    ensures FromLe32(Le32(u)) == u
  {
    var v := u / 256;
    var w := v / 256;
    assert Shift(w % 256, w / 256) == w;
    assert Shift(v % 256, w) == v;
    assert Shift(u % 256, v) == u;
  }

  lemma SignedInverts(n: int)
    requires -0x8000_0000 <= n < 0x8000_0000
    ensures Signed(Unsigned(n)) == n
  {
  }

  // ---- Frames ----

  /** What `bme_send` writes for a message. */
  function Frame(payload: seq<Byte>): seq<Byte> {
    Le32(SYNC) + Le32(Unsigned(|payload|)) + payload
  }

  /** A short message on the wire: the sync word and the length, least significant byte
      first, and then the message. */
  lemma FrameOnTheWire(payload: seq<Byte>)
    requires |payload| < 256
    ensures Frame(payload) == [0x53, 0x59, 0x4e, 0x43, |payload|, 0, 0, 0] + payload
  {
    assert Le32(SYNC) == [0x53, 0x59, 0x4e, 0x43];
    assert Le32(Unsigned(|payload|)) == [|payload|, 0, 0, 0];
  }

  /** `bme_recv` of a given size accepts what comes next on the stream. */
  predicate Accepts(avail: seq<Byte>, size: nat) {
    && |avail| >= HEADER + size
    && FromLe32(avail[..4]) == SYNC
    && FromLe32(avail[4..8]) == Unsigned(size)
  }

  /** Receiving a size accepts exactly the streams that begin with what sending a message
      of that size writes, and yields that message. */
  lemma AcceptsIffSent(avail: seq<Byte>, size: nat)
    ensures Accepts(avail, size) <==>
      |avail| >= HEADER + size && Frame(avail[HEADER..HEADER + size]) <= avail
    ensures forall payload: seq<Byte> | |payload| == size && Frame(payload) <= avail ::
      Accepts(avail, size) && avail[HEADER..HEADER + size] == payload
  {
    WordRoundTrip(SYNC, Le32(SYNC));
    WordRoundTrip(Unsigned(size), Le32(Unsigned(size)));
    if Accepts(avail, size) {
      WordRoundTrip(SYNC, avail[..4]);
      WordRoundTrip(SYNC, avail[4..8]);
      assert avail[..HEADER + size] == avail[..4] + avail[4..8] + avail[HEADER..HEADER + size];
    }
    forall payload: seq<Byte> | |payload| == size && Frame(payload) <= avail
      ensures Accepts(avail, size) && avail[HEADER..HEADER + size] == payload
    {
      FrameParts(avail, payload);
    }
  }

  lemma FrameParts(avail: seq<Byte>, payload: seq<Byte>)
    requires Frame(payload) <= avail
    ensures |avail| >= HEADER + |payload|
    ensures avail[..4] == Le32(SYNC) && avail[4..8] == Le32(Unsigned(|payload|))
    ensures avail[HEADER..HEADER + |payload|] == payload
    ensures Accepts(avail, |payload|)
  {
    var f := Frame(payload);
    assert f[..4] == Le32(SYNC) && f[4..8] == Le32(Unsigned(|payload|)) && f[8..] == payload;
    assert avail[..|f|] == f;
    assert avail[..4] == f[..4] && avail[4..8] == f[4..8];
    WordRoundTrip(SYNC, f[..4]);
    WordRoundTrip(Unsigned(|payload|), f[4..8]);
  }

  // ---- Receiving, as functions of what the stream still holds ----

  /** A return code, the bytes delivered, and how far the cursor moves. */
  datatype Result = Result(rc: int, data: seq<Byte>, used: nat)

  function Recv(avail: seq<Byte>, size: nat): (r: Result)
    ensures r.used <= |avail|
    ensures r.rc >= 0 ==> |r.data| == size
  {
    if Accepts(avail, size) then
      Result(HEADER + size, avail[HEADER..HEADER + size], HEADER + size)
    else
      Result(-EPROTO, [], if |avail| < HEADER + size then |avail| else HEADER + size)
  }

  /** A read for which the system call returns `err`: a negative number is passed on and
      nothing is read. */
  function Read(err: int, avail: seq<Byte>, size: nat): (r: Result)
    ensures r.used <= |avail|
    ensures r.rc >= 0 ==> |r.data| == size
  {
    if err < 0 then Result(err, [], 0) else Recv(avail, size)
  }

  /** What the system call returns for each read of one query, if that is negative. */
  datatype Errors = Errors(status: int, drain: int, body: int)

  /** A query: the size of its result buffer, and what its reads return. */
  datatype Call = Call(want: nat, errs: Errors)

  /** Reads and discards a reply, unless it is too long for the buffer. */
  function Clean(avail: seq<Byte>, size: nat, err: int): (used: nat)
    ensures used <= |avail|
  {
    if size > MSG_SIZE_MAX then 0 else Read(err, avail, size).used
  }

  /** Reads the status frame. Zero means success without a length; a positive status is the
      length of the reply. */
  function RcRecv(avail: seq<Byte>, want: nat, errs: Errors): (r: Result)
    ensures r.used <= |avail|
  {
    var head := Read(errs.status, avail, 4);
    if head.rc < 0 then head.(data := [])
    else
      var status := Signed(FromLe32(head.data));
      if status < 0 then Result(-1, [], head.used)
      else if status == 0 then Result(Signed(Unsigned(want)), [], head.used)
      else if status != want then
        Result(-1, [], head.used + Clean(avail[head.used..], status, errs.drain))
      else Result(status, [], head.used)
  }

  /** A query after its request has been sent; `want` is zero without a result buffer. */
  function Answer(avail: seq<Byte>, want: nat, errs: Errors): (r: Result)
    ensures r.used <= |avail|
  {
    var status := RcRecv(avail, want, errs);
    if status.rc <= 0 then status
    else
      var body := Read(errs.body, avail[status.used..], want);
      body.(used := status.used + body.used)
  }

  // ---- The server's side ----

  /** A conforming reply: a refusal, a success under the old convention (zero status, then
      what the client asked for), or one under the new convention (length, then data). */
  datatype Reply = Refused(status: int) | Plain(data: seq<Byte>) | Sized(data: seq<Byte>)

  predicate Conforms(r: Reply, want: nat) {
    match r
    case Refused(status) => -0x8000_0000 <= status < 0
    case Plain(data) => |data| == want
    case Sized(data) => 0 < |data| < 0x8000_0000
  }

  function Status(r: Reply): int {
    match r
    case Refused(status) => status
    case Plain(_) => 0
    case Sized(data) => |data|
  }

  function Body(r: Reply): seq<Byte> {
    match r
    case Refused(_) => []
    case Plain(data) => if data == [] then [] else Frame(data)
    case Sized(data) => Frame(data)
  }

  function Encode(r: Reply): seq<Byte> {
    Frame(Le32(Unsigned(Status(r)))) + Body(r)
  }

  /** What the query should return for a reply. */
  function Meaning(r: Reply, want: nat): (int, seq<Byte>) {
    match r
    case Refused(_) => (-1, [])
    case Plain(data) => if want == 0 then (0, []) else (HEADER + want, data)
    case Sized(data) => if |data| == want then (HEADER + want, data) else (-1, [])
  }

  /** The query reads its whole reply: no read that it needs fails, and a reply of the wrong
      length is not too long for the drain buffer. */
  predicate InStep(r: Reply, want: nat, errs: Errors) {
    errs.status >= 0 &&
    match r
    case Refused(_) => true
    case Plain(data) => data == [] || errs.body >= 0
    case Sized(data) =>
      if |data| == want then errs.body >= 0 else |data| <= MSG_SIZE_MAX && errs.drain >= 0
  }

  lemma FrameIsRead(data: seq<Byte>, rest: seq<Byte>)
    ensures Recv(Frame(data) + rest, |data|) ==
      Result(HEADER + |data|, data, HEADER + |data|)
    ensures (Frame(data) + rest)[HEADER + |data|..] == rest && |Frame(data)| == HEADER + |data|
  {
    assert Frame(data) <= Frame(data) + rest;
    FrameParts(Frame(data) + rest, data);
  }

  lemma EncodeSplits(r: Reply, rest: seq<Byte>)
    ensures Encode(r) + rest == Frame(Le32(Unsigned(Status(r)))) + (Body(r) + rest)
    ensures |Encode(r)| == 12 + |Body(r)|
  {
    Associates(Frame(Le32(Unsigned(Status(r)))), Body(r), rest);
  }

  lemma StatusIsRead(r: Reply, want: nat, rest: seq<Byte>)
    requires Conforms(r, want) && want < 0x8000_0000
    ensures var head := Recv(Encode(r) + rest, 4);
      head.rc == 12 && head.used == 12 && Signed(FromLe32(head.data)) == Status(r)
    ensures (Encode(r) + rest)[12..] == Body(r) + rest && |Encode(r)| == 12 + |Body(r)|
  {
    var word := Unsigned(Status(r));
    EncodeSplits(r, rest);
    FrameIsRead(Le32(word), Body(r) + rest);
    BytesOfWord(word);
    SignedInverts(Status(r));
  }

  /** What a query does to a stream whose status frame reads as `status`, with `ahead` behind
      that frame. */
  function Rest(status: int, ahead: seq<Byte>, want: nat, errs: Errors): Result {
    if status < 0 then Result(-1, [], 12)
    else if status == 0 && Signed(Unsigned(want)) <= 0 then Result(Signed(Unsigned(want)), [], 12)
    else if status == 0 || status == want then
      var body := Read(errs.body, ahead, want);
      body.(used := 12 + body.used)
    else Result(-1, [], 12 + Clean(ahead, status, errs.drain))
  }

  lemma AnswerIsRest(avail: seq<Byte>, status: int, want: nat, errs: Errors)
    requires errs.status >= 0 && |avail| >= 12
    requires var head := Recv(avail, 4);
      head.rc == 12 && head.used == 12 && Signed(FromLe32(head.data)) == status
    ensures Answer(avail, want, errs) == Rest(status, avail[12..], want, errs)
  {
  }

  lemma RestOfRefusal(r: Reply, want: nat, rest: seq<Byte>, errs: Errors)
    requires r.Refused? && Conforms(r, want) && errs.status >= 0
    ensures Rest(Status(r), Body(r) + rest, want, errs) == Result(-1, [], 12)
  {
  }

  lemma RestOfPlain(r: Reply, want: nat, rest: seq<Byte>, errs: Errors)
    requires r.Plain? && Conforms(r, want) && want < 0x8000_0000 && errs.status >= 0
    ensures Rest(Status(r), Body(r) + rest, want, errs) ==
      if InStep(r, want, errs) then Result(Meaning(r, want).0, r.data, 12 + |Body(r)|)
      else Result(errs.body, [], 12)
  {
    SignedInverts(want);
    if want > 0 {
      FrameIsRead(r.data, rest);
    }
  }

  lemma RestOfSized(r: Reply, want: nat, rest: seq<Byte>, errs: Errors)
    requires r.Sized? && Conforms(r, want) && |r.data| == want && errs.status >= 0
    ensures Rest(Status(r), Body(r) + rest, want, errs) ==
      if InStep(r, want, errs) then Result(HEADER + want, r.data, 12 + |Body(r)|)
      else Result(errs.body, [], 12)
  {
    FrameIsRead(r.data, rest);
  }

  lemma RestOfWrongLength(r: Reply, want: nat, rest: seq<Byte>, errs: Errors)
    requires r.Sized? && Conforms(r, want) && |r.data| != want && errs.status >= 0
    ensures Rest(Status(r), Body(r) + rest, want, errs) ==
      Result(-1, [], if InStep(r, want, errs) then 12 + |Body(r)| else 12)
  {
    FrameIsRead(r.data, rest);
  }

  /** One query against a conforming server, whichever of its reads fail. If it stays in
      step it returns what the reply means and leaves the cursor right behind the reply.
      Otherwise it returns an error, and either the whole reply or, once the status has
      been read, its whole body is still ahead. */
  lemma QueryResynchronises(r: Reply, want: nat, rest: seq<Byte>, errs: Errors)
    requires Conforms(r, want) && want < 0x8000_0000
    ensures var a := Answer(Encode(r) + rest, want, errs);
      && (InStep(r, want, errs) ==> (a.rc, a.data) == Meaning(r, want) && a.used == |Encode(r)|)
      && (!InStep(r, want, errs) ==>
            && a.rc < 0 && a.used == (if errs.status < 0 then 0 else 12) < |Encode(r)|
            && (errs.status >= 0 ==> (Encode(r) + rest)[a.used..] == Body(r) + rest && Body(r) != []))
  {
    if errs.status >= 0 {
      StatusIsRead(r, want, rest);
      AnswerIsRest(Encode(r) + rest, Status(r), want, errs);
      RestOfReply(r, want, rest, errs);
    }
  }

  lemma RestOfReply(r: Reply, want: nat, rest: seq<Byte>, errs: Errors)
    requires Conforms(r, want) && want < 0x8000_0000 && errs.status >= 0
    ensures var a := Rest(Status(r), Body(r) + rest, want, errs);
      && (InStep(r, want, errs) ==> (a.rc, a.data) == Meaning(r, want) && a.used == 12 + |Body(r)|)
      && (!InStep(r, want, errs) ==> a.rc < 0 && a.used == 12 && Body(r) != [])
  {
    match r
    case Refused(_) => RestOfRefusal(r, want, rest, errs);
    case Plain(_) => RestOfPlain(r, want, rest, errs);
    case Sized(data) =>
      if |data| == want {
        RestOfSized(r, want, rest, errs);
      } else {
        RestOfWrongLength(r, want, rest, errs);
      }
  }

  /** A reply of the wrong length above the drain buffer also spoils the query after it: that
      one finds the left-over body where its status should be, reads twelve bytes of it and
      fails, whatever it asked for. */
  lemma TooLongSpoilsNext(r: Reply, want: nat, rest: seq<Byte>, errs: Errors, next: Call)
    requires Conforms(r, want) && want < 0x8000_0000
    requires r.Sized? && |r.data| != want && |r.data| > MSG_SIZE_MAX
    requires errs.status >= 0 && next.errs.status >= 0
    ensures var avail := Encode(r) + rest;
      var a := Answer(avail, want, errs);
      && a.rc == -1 && a.used == 12 && avail[12..] == Frame(r.data) + rest
      && Answer(avail[12..], next.want, next.errs) == Result(-EPROTO, [], 12)
  {
    StatusIsRead(r, want, rest);
    AnswerIsRest(Encode(r) + rest, Status(r), want, errs);
    RestOfWrongLength(r, want, rest, errs);
    LongFrameIsNoStatus(r.data, rest);
  }

  lemma SizeField(data: seq<Byte>, rest: seq<Byte>)
    requires |data| < 0x8000_0000
    ensures |Frame(data) + rest| >= HEADER + |data|
    ensures FromLe32((Frame(data) + rest)[4..8]) == |data|
  {
    assert Frame(data) <= Frame(data) + rest;
    FrameParts(Frame(data) + rest, data);
    SmallUnsigned(|data|);
  }

  lemma SmallUnsigned(n: nat)
    requires n < 0x8000_0000
    ensures Unsigned(n) == n
  {
  }

  lemma WrongSizeIsRefused(avail: seq<Byte>, size: nat)
    requires |avail| >= HEADER + size && FromLe32(avail[4..8]) != Unsigned(size)
    ensures Recv(avail, size) == Result(-EPROTO, [], HEADER + size)
  {
  }

  lemma LongFrameIsNoStatus(data: seq<Byte>, rest: seq<Byte>)
    requires 4 < |data| < 0x8000_0000
    ensures Recv(Frame(data) + rest, 4) == Result(-EPROTO, [], 12)
  {
    SizeField(data, rest);
    SmallUnsigned(4);
    WrongSizeIsRefused(Frame(data) + rest, 4);
  }

  /** 129 zero bytes instead of four. */
  lemma LongReplyIsLeft(rest: seq<Byte>, next: Call)
    requires next.errs.status >= 0
    ensures var data := seq(0x81, _ => 0);
      var avail := Encode(Sized(data)) + rest;
      var a := Answer(avail, 4, Errors(0, 0, 0));
      && (a.rc, a.data) == (-1, []) && avail[a.used..] == Frame(data) + rest
      && Answer(avail[a.used..], next.want, next.errs) == Result(-EPROTO, [], 12)
  {
    var r := Sized(seq(0x81, _ => 0));
    TooLongSpoilsNext(r, 4, rest, Errors(0, 0, 0), next);
    QueryResynchronises(r, 4, rest, Errors(0, 0, 0));
  }

  function EncodeAll(rs: seq<Reply>): seq<Byte>
    decreases |rs|
  {
    if rs == [] then [] else Encode(rs[0]) + EncodeAll(rs[1..])
  }

  /** Any number of queries, one after another. */
  function AnswerAll(avail: seq<Byte>, qs: seq<Call>): (r: (seq<(int, seq<Byte>)>, nat))
    ensures r.1 <= |avail|
    decreases |qs|
  {
    if qs == [] then ([], 0)
    else
      var a := Answer(avail, qs[0].want, qs[0].errs);
      var more := AnswerAll(avail[a.used..], qs[1..]);
      ([(a.rc, a.data)] + more.0, a.used + more.1)
  }

  predicate AllInStep(rs: seq<Reply>, qs: seq<Call>)
    requires |rs| == |qs|
  {
    forall i | 0 <= i < |rs| ::
      && Conforms(rs[i], qs[i].want) && qs[i].want < 0x8000_0000
      && InStep(rs[i], qs[i].want, qs[i].errs)
  }

  /** Against a conforming server the client stays on frame boundaries over any sequence of
      queries, refusals and wrong lengths included, and every query gets its own reply. */
  lemma {:induction false} SessionStaysInStep(rs: seq<Reply>, qs: seq<Call>, rest: seq<Byte>)
    requires |rs| == |qs| && AllInStep(rs, qs)
    ensures var a := AnswerAll(EncodeAll(rs) + rest, qs);
      && a.1 == |EncodeAll(rs)| && |a.0| == |rs|
      && forall i | 0 <= i < |rs| :: a.0[i] == Meaning(rs[i], qs[i].want)
    decreases |rs|
  {
    if rs != [] {
      var tail := EncodeAll(rs[1..]) + rest;
      var avail := EncodeAll(rs) + rest;
      FirstReply(rs, rest);
      ReplyThenTail(avail, rs[0], qs[0], tail);
      assert AllInStep(rs[1..], qs[1..]);
      SessionStaysInStep(rs[1..], qs[1..], rest);
      SessionSteps(avail, tail, rs, qs);
    }
  }

  lemma FirstReply(rs: seq<Reply>, rest: seq<Byte>)
    requires rs != []
    ensures EncodeAll(rs) + rest == Encode(rs[0]) + (EncodeAll(rs[1..]) + rest)
    ensures |EncodeAll(rs)| == |Encode(rs[0])| + |EncodeAll(rs[1..])|
  {
    Associates(Encode(rs[0]), EncodeAll(rs[1..]), rest);
  }

  lemma Associates(x: seq<Byte>, y: seq<Byte>, z: seq<Byte>)
    ensures (x + y) + z == x + (y + z)
  {
  }

  lemma ReplyThenTail(avail: seq<Byte>, r: Reply, q: Call, tail: seq<Byte>)
    requires avail == Encode(r) + tail
    requires Conforms(r, q.want) && q.want < 0x8000_0000 && InStep(r, q.want, q.errs)
    ensures var a := Answer(avail, q.want, q.errs);
      a.used == |Encode(r)| && avail[a.used..] == tail && (a.rc, a.data) == Meaning(r, q.want)
  {
    QueryResynchronises(r, q.want, tail, q.errs);
  }

  lemma SessionSteps(avail: seq<Byte>, tail: seq<Byte>, rs: seq<Reply>, qs: seq<Call>)
    requires |rs| == |qs| > 0
    requires var a := Answer(avail, qs[0].want, qs[0].errs);
      avail[a.used..] == tail && (a.rc, a.data) == Meaning(rs[0], qs[0].want)
    requires var more := AnswerAll(tail, qs[1..]);
      |more.0| == |rs| - 1
      && forall i | 0 <= i < |rs| - 1 :: more.0[i] == Meaning(rs[1..][i], qs[1..][i].want)
    ensures var a := AnswerAll(avail, qs);
      && a.1 == Answer(avail, qs[0].want, qs[0].errs).used + AnswerAll(tail, qs[1..]).1
      && |a.0| == |rs| && forall i | 0 <= i < |rs| :: a.0[i] == Meaning(rs[i], qs[i].want)
  {
    var a := AnswerAll(avail, qs);
    forall i | 0 <= i < |rs| ensures a.0[i] == Meaning(rs[i], qs[i].want) {
      if i > 0 {
        assert a.0[i] == AnswerAll(tail, qs[1..]).0[i - 1];
        assert rs[1..][i - 1] == rs[i] && qs[1..][i - 1] == qs[i];
      }
    }
  }

  // ---- The connection object ----

  class Connection {
    var incoming: seq<Byte>
    var cursor: nat
    var sent: seq<Byte>

    ghost predicate Valid()
      reads this
    {
      cursor <= |incoming|
    }

    function Ahead(): seq<Byte>
      reads this
      requires Valid()
    {
      incoming[cursor..]
    }

    constructor (incoming: seq<Byte>)
      ensures Valid() && Ahead() == incoming && sent == []
    {
      this.incoming, cursor, sent := incoming, 0, [];
    }

    /** `written` is what the system call returns. */
    method Send(msg: seq<Byte>, written: int) returns (rc: int)
      requires Valid() && written <= HEADER + |msg|
      modifies this`sent
      ensures Valid()
      ensures sent == old(sent) + if written < 0 then [] else Frame(msg)[..written]
      ensures rc == if 0 <= written < HEADER + |msg| then -ENOMEM else written
    {
      if written < 0 {
        return written;
      }
      sent := sent + Frame(msg)[..written];
      if written < HEADER + |msg| {
        return -ENOMEM;
      }
      return written;
    }

    /** `err` is what the system call returns, if that is negative. */
    method Receive(size: nat, err: int) returns (rc: int, data: seq<Byte>)
      requires Valid()
      modifies this`cursor
      ensures Valid() && cursor == old(cursor) + Read(err, old(Ahead()), size).used
      ensures rc == Read(err, old(Ahead()), size).rc && data == Read(err, old(Ahead()), size).data
    {
      if err < 0 {
        return err, [];
      }
      var avail := incoming[cursor..];
      var n := if |avail| < HEADER + size then |avail| else HEADER + size;
      cursor := cursor + n;
      data := [];
      if n < HEADER {
        return -EPROTO, [];
      }
      if n < HEADER + size {
        return -EPROTO, [];
      }
      if FromLe32(avail[..4]) != SYNC {
        return -EPROTO, [];
      }
      if FromLe32(avail[4..8]) != Unsigned(size) {
        return -EPROTO, [];
      }
      return n, avail[HEADER..n];
    }

    method CleanReply(size: nat, err: int)
      requires Valid()
      modifies this`cursor
      ensures Valid() && cursor == old(cursor) + Clean(old(Ahead()), size, err)
    {
      if size > MSG_SIZE_MAX {
        return;
      }
      var _, _ := Receive(size, err);
    }

    method ReceiveStatus(want: nat, errs: Errors) returns (rc: int)
      requires Valid()
      modifies this`cursor
      ensures Valid() && rc == RcRecv(old(Ahead()), want, errs).rc
      ensures cursor == old(cursor) + RcRecv(old(Ahead()), want, errs).used
    {
      ghost var avail := Ahead();
      var word;
      rc, word := Receive(4, errs.status);
      if rc < 0 {
        return;
      }
      var status := Signed(FromLe32(word));
      if status < 0 {
        return -1;
      }
      if status == 0 {
        status := Signed(Unsigned(want));
      } else if status != want {
        assert Ahead() == avail[Recv(avail, 4).used..];
        CleanReply(status, errs.drain);
        return -1;
      }
      return status;
    }

    /** Sends a request and reads the reply; without a result buffer `want` is zero. */
    method Query(msg: seq<Byte>, written: int, want: nat, errs: Errors) returns (rc: int, data: seq<Byte>)
      requires Valid() && written <= HEADER + |msg|
      modifies this
      ensures Valid() && incoming == old(incoming)
      ensures sent == old(sent) + if written < 0 then [] else Frame(msg)[..written]
      ensures written < HEADER + |msg| ==> rc < 0 && data == [] && cursor == old(cursor)
      ensures written == HEADER + |msg| ==>
        var a := Answer(old(Ahead()), want, errs);
        cursor == old(cursor) + a.used && rc == a.rc && data == a.data
    {
      data := [];
      rc := Send(msg, written);
      if rc < 0 {
        return;
      }
      ghost var avail := Ahead();
      rc := ReceiveStatus(want, errs);
      if rc <= 0 {
        return;
      }
      assert Ahead() == avail[RcRecv(avail, want, errs).used..];
      rc, data := Receive(want, errs.body);
    }
  }
}
