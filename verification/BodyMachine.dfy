/** What a bytes message should do, without streams, headers and compression: its body is the
    bytes written since the last store if there are any, and the stored bytes otherwise. */
module BodyMachines {
  import opened BigEndian
  import opened TypedValues

  /** Stored bytes, bytes written since, the mode, and how much of the body has been read. */
  datatype Body = Body(stored: seq<Byte>, pending: seq<Byte>, readOnly: bool, position: nat)

  const NEW_BODY := Body([], [], false, 0)

  ghost predicate WellFormed(s: Body) {
    && s.position <= |s.stored|
    && if s.readOnly then s.pending == [] else s.position == 0
  }

  /** The body a receiver would see. */
  function Contents(s: Body): seq<Byte> {
    if s.pending != [] then s.pending else s.stored
  }

  function Rest(s: Body): seq<Byte> {
    if s.position <= |s.stored| then s.stored[s.position..] else []
  }

  datatype Op =
    | Write(v: Value)
    | WriteSlice(value: seq<Byte>, offset: int, length: int)
    | SetBodyBytes(bytes: seq<Byte>)
    | Read(k: Kind)
    | ReadBytes(count: int)
    | GetBodyLength
    | GetBodyBytes
    | Clone
    | OnSend
    | Reset
    | ClearBody
    | SetConnection(useCompression: bool)

  datatype Answer =
    | Done
    | NotWriteable
    | NotReadable
    | EndOfStream
    | Failed
    | Got(v: Value)
    | GotBytes(count: int, bytes: seq<Byte>)
    | Length(n: int)
    | BodyRead(length: int, front: seq<Byte>)

  function Store(s: Body): Body {
    if s.pending != [] then s.(stored := s.pending, pending := []) else s
  }

  function Append(s: Body, bytes: seq<Byte>): (Body, Answer) {
    if s.readOnly then (s, NotWriteable) else (s.(pending := s.pending + bytes), Done)
  }

  /** A slice that lies within its array. */
  predicate InBounds(value: seq<Byte>, offset: int, length: int) {
    0 <= offset && 0 <= length && offset + length <= |value|
  }

  function Slice(value: seq<Byte>, offset: int, length: int): seq<Byte> {
    if InBounds(value, offset, length) then value[offset..offset + length] else []
  }

  /** Writing a part of an array; no bytes are never out of bounds. */
  function AppendSlice(s: Body, value: seq<Byte>, offset: int, length: int): (Body, Answer) {
    if s.readOnly then (s, NotWriteable)
    else if length == 0 || InBounds(value, offset, length) then Append(s, Slice(value, offset, length))
    else (s, Failed)
  }

  /** A typed read that finds too few bytes consumes them. */
  function ReadTyped(s: Body, k: Kind): (Body, Answer) {
    var rest := Rest(s);
    if !s.readOnly then (s, NotReadable)
    else if |rest| < Width(k) then (s.(position := s.position + |rest|), EndOfStream)
    else (s.(position := s.position + Width(k)), Got(Decoding(k, rest[..Width(k)])))
  }

  /** As many bytes as there are, up to `n`; -1 when some are wanted and there are none. */
  function ReadBlock(s: Body, n: int): (Body, Answer) {
    var rest := Rest(s);
    if !s.readOnly then (s, NotReadable)
    else if n < 0 then (s, Failed)
    else if n > 0 && rest == [] then (s, GotBytes(-1, []))
    else
      var k := if n < |rest| then n else |rest|;
      (s.(position := s.position + k), GotBytes(k, rest[..k]))
  }

  /** An array as long as the body, whose front holds the bytes not read yet. */
  function ReadBody(s: Body): (Body, Answer) {
    if s.readOnly then (s.(position := |s.stored|), BodyRead(|s.stored|, Rest(s))) else (s, NotReadable)
  }

  function Step(s: Body, op: Op): (Body, Answer) {
    match op
    case Write(v) => Append(s, Encoding(v))
    case WriteSlice(value, offset, length) => AppendSlice(s, value, offset, length)
    case SetBodyBytes(bytes) => Append(s, bytes)
    case Read(k) => ReadTyped(s, k)
    case ReadBytes(n) => ReadBlock(s, n)
    case GetBodyLength => (s, if s.readOnly then Length(|s.stored|) else NotReadable)
    case GetBodyBytes => ReadBody(s)
    case Clone => (Store(s), Done)
    case OnSend => (Store(s).(readOnly := true), Done)
    case Reset => (Store(s).(readOnly := true, position := 0), Done)
    case ClearBody => (NEW_BODY, Done)
    case SetConnection(_) => (s, Done)
  }

  function After(s: Body, ops: seq<Op>): Body
    decreases |ops|
  {
    if ops == [] then s else After(Step(s, ops[0]).0, ops[1..])
  }

  function Answers(s: Body, ops: seq<Op>): seq<Answer>
    decreases |ops|
  {
    if ops == [] then [] else [Step(s, ops[0]).1] + Answers(Step(s, ops[0]).0, ops[1..])
  }

  lemma {:induction false} RunsJoin(s: Body, a: seq<Op>, b: seq<Op>)
    ensures After(s, a + b) == After(After(s, a), b)
    ensures Answers(s, a + b) == Answers(s, a) + Answers(After(s, a), b)
    decreases |a|
  {
    if a == [] {
      assert a + b == b;
    } else {
      assert (a + b)[1..] == a[1..] + b;
      RunsJoin(Step(s, a[0]).0, a[1..], b);
    }
  }

  lemma StepWellFormed(s: Body, op: Op)
    requires WellFormed(s)
    ensures WellFormed(Step(s, op).0)
  {
  }

  /** Over every run the reader stays inside the body, and a body in read mode changes neither
      its bytes nor its mode until it is cleared. */
  lemma {:induction false} FrozenWhileReadOnly(s: Body, ops: seq<Op>)
    requires WellFormed(s)
    ensures WellFormed(After(s, ops))
    ensures s.readOnly && ClearBody !in ops ==> After(s, ops).readOnly && Contents(After(s, ops)) == Contents(s)
    decreases |ops|
  {
    if ops != [] {
      StepWellFormed(s, ops[0]);
      FrozenWhileReadOnly(Step(s, ops[0]).0, ops[1..]);
      assert ops == [ops[0]] + ops[1..];
    }
  }

  // ---- Storing, cloning and resetting keep the body ----

  /** Storing twice is storing once, and neither storing, cloning, sending nor resetting changes
      the body. */
  lemma StoringKeepsContents(s: Body)
    ensures Store(Store(s)) == Store(s)
    ensures Contents(Step(s, Clone).0) == Contents(Step(s, OnSend).0) == Contents(Step(s, Reset).0) == Contents(s)
  {
  }

  predicate ReadsOnly(op: Op) {
    op.Read? || op.ReadBytes? || op.GetBodyLength? || op.GetBodyBytes? || op.Clone? || op.OnSend? || op.Reset? || op.SetConnection?
  }

  /** However a body was read, stored, cloned or sent, a reset rewinds to the same bytes. */
  lemma {:induction false} ResetRewinds(s: Body, ops: seq<Op>)
    requires forall i :: 0 <= i < |ops| ==> ReadsOnly(ops[i])
    ensures Step(After(s, ops), Reset).0 == Body(Contents(s), [], true, 0)
    decreases |ops|
  {
    if ops != [] {
      assert ReadsOnly(ops[0]);
      ResetRewinds(Step(s, ops[0]).0, ops[1..]);
    }
  }

  /** The first bytes written after a store are a new body; further ones are added to it. */
  lemma FirstWriteStartsNewBody(s: Body, first: seq<Byte>, more: seq<Byte>)
    requires !s.readOnly && first != []
    ensures Contents(Append(Store(s), first).0) == first
    ensures Contents(Append(Append(Store(s), first).0, more).0) == first + more
  {
  }

  /** Setting the body adds to what is pending: it sets the body if and only if nothing is
      pending, and either some bytes are given or nothing was stored. */
  lemma SetBodyBytesExactly(s: Body, bytes: seq<Byte>)
    requires !s.readOnly
    ensures (Contents(Step(s, SetBodyBytes(bytes)).0) == bytes) <==>
            (s.pending == [] && (bytes == [] ==> s.stored == []))
  {
    assert |s.pending + bytes| == |s.pending| + |bytes|;
    assert s.pending == [] ==> s.pending + bytes == bytes;
  }

  // ---- Writing values and reading them back ----

  function Writes(values: seq<Value>): seq<Op> {
    if values == [] then [] else [Write(values[0])] + Writes(values[1..])
  }

  function ReadOf(v: Value): Op {
    if v.Block? then ReadBytes(|v.bytes|) else Read(KindOf(v))
  }

  function Reads(values: seq<Value>): seq<Op> {
    if values == [] then [] else [ReadOf(values[0])] + Reads(values[1..])
  }

  function AnswerOf(v: Value): Answer {
    if v.Block? then GotBytes(|v.bytes|, v.bytes) else Got(v)
  }

  function Expected(values: seq<Value>): seq<Answer> {
    if values == [] then [] else [AnswerOf(values[0])] + Expected(values[1..])
  }

  function Encodings(values: seq<Value>): seq<Byte> {
    if values == [] then [] else Encoding(values[0]) + Encodings(values[1..])
  }

  function WidthOf(v: Value): nat {
    if v.Block? then |v.bytes| else Width(KindOf(v))
  }

  function TotalWidth(values: seq<Value>): nat {
    if values == [] then 0 else WidthOf(values[0]) + TotalWidth(values[1..])
  }

  lemma {:induction false} EncodingsWidth(values: seq<Value>)
    ensures |Encodings(values)| == TotalWidth(values)
  {
    if values != [] {
      if !values[0].Block? { ValueRoundTrip(values[0]); }
      EncodingsWidth(values[1..]);
    }
  }

  lemma {:induction false} WritesAppend(s: Body, values: seq<Value>)
    requires !s.readOnly
    ensures After(s, Writes(values)) == s.(pending := s.pending + Encodings(values))
    decreases |values|
  {
    hide Encoding;
    if values == [] {
      assert s.pending + [] == s.pending;
    } else {
      var e := Encoding(values[0]);
      WritesAppend(s.(pending := s.pending + e), values[1..]);
      assert s.pending + e + Encodings(values[1..]) == s.pending + Encodings(values);
      assert Writes(values) == [Write(values[0])] + Writes(values[1..]);
    }
  }

  lemma ReadsOne(s: Body, v: Value, rest: seq<Byte>)
    requires WellFormed(s) && s.readOnly && Rest(s) == Encoding(v) + rest
    ensures Step(s, ReadOf(v)) == (s.(position := s.position + |Encoding(v)|), AnswerOf(v))
    ensures Rest(s.(position := s.position + |Encoding(v)|)) == rest
  {
    if !v.Block? { ValueRoundTrip(v); }
    assert (Encoding(v) + rest)[..|Encoding(v)|] == Encoding(v);
    assert |Rest(s)| == |s.stored| - s.position;
    var after := s.(position := s.position + |Encoding(v)|);
    assert Rest(after) == Rest(s)[|Encoding(v)|..];
  }

  lemma {:induction false} ReadsAll(s: Body, values: seq<Value>)
    requires WellFormed(s) && s.readOnly && Rest(s) == Encodings(values)
    ensures Answers(s, Reads(values)) == Expected(values)
    ensures After(s, Reads(values)) == s.(position := |s.stored|)
    decreases |values|
  {
    hide Encoding;
    if values != [] {
      ReadsOne(s, values[0], Encodings(values[1..]));
      assert Reads(values)[1..] == Reads(values[1..]);
      ReadsAll(Step(s, ReadOf(values[0])).0, values[1..]);
    }
  }

  lemma WrittenAndReset(values: seq<Value>)
    ensures After(NEW_BODY, Writes(values) + [Reset]) == Body(Encodings(values), [], true, 0)
  {
    hide Encoding;
    WritesAppend(NEW_BODY, values);
    assert [] + Encodings(values) == Encodings(values);
    RunsJoin(NEW_BODY, Writes(values), [Reset]);
    var t := NEW_BODY.(pending := Encodings(values));
    assert After(t, [Reset]) == Step(t, Reset).0;
  }

  lemma EndAfterwards(e: Body, further: Kind)
    requires e.readOnly && WellFormed(e) && Rest(e) == []
    ensures Answers(e, [Read(further)]) == [EndOfStream]
  {
    assert [Read(further)][1..] == [];
  }

  lemma AskLengthFirst(s: Body, ops: seq<Op>)
    requires s.readOnly
    ensures Answers(s, [GetBodyLength] + ops) == [Length(|s.stored|)] + Answers(s, ops)
  {
    assert ([GetBodyLength] + ops)[1..] == ops;
  }

  lemma LengthThenReads(s: Body, values: seq<Value>, further: Kind)
    requires s == Body(Encodings(values), [], true, 0)
    ensures Answers(s, [GetBodyLength] + Reads(values) + [Read(further)]) ==
            [Length(|s.stored|)] + Expected(values) + [EndOfStream]
  {
    hide Encoding, Step, Answers, After;
    var back := Reads(values);
    assert Rest(s) == s.stored;
    ReadsAll(s, values);
    EndAfterwards(s.(position := |s.stored|), further);
    RunsJoin(s, back, [Read(further)]);
    AskLengthFirst(s, back + [Read(further)]);
    assert [GetBodyLength] + back + [Read(further)] == [GetBodyLength] + (back + [Read(further)]);
  }

  /** Typed values written to a new message and read back after a reset come out as they went
      in; the length is the sum of their widths; after the last one the stream has ended. */
  lemma TypedRoundTrip(values: seq<Value>, further: Kind)
    ensures var s := After(NEW_BODY, Writes(values) + [Reset]);
            && Answers(s, [GetBodyLength] + Reads(values) + [Read(further)]) ==
               [Length(TotalWidth(values))] + Expected(values) + [EndOfStream]
  {
    hide Encoding;
    EncodingsWidth(values);
    WrittenAndReset(values);
    LengthThenReads(After(NEW_BODY, Writes(values) + [Reset]), values, further);
  }

  // ---- Reading in chunks ----

  /** The bytes that block reads of the given sizes return, one after the other. */
  function Chunks(s: Body, sizes: seq<nat>): seq<Byte>
    decreases |sizes|
  {
    if sizes == [] then []
    else
      var (s', a) := ReadBlock(s, sizes[0]);
      (if a.GotBytes? then a.bytes else []) + Chunks(s', sizes[1..])
  }

  function Sum(sizes: seq<nat>): nat {
    if sizes == [] then 0 else sizes[0] + Sum(sizes[1..])
  }

  lemma OneChunk(s: Body, n: nat)
    requires WellFormed(s) && s.readOnly
    ensures var (s', a) := ReadBlock(s, n);
            var k := if n < |Rest(s)| then n else |Rest(s)|;
            && WellFormed(s') && s'.readOnly && Rest(s') == Rest(s)[k..]
            && (if a.GotBytes? then a.bytes else []) == Rest(s)[..k]
  {
  }

  /** Up to `n` bytes from the front. */
  function Front(bytes: seq<Byte>, n: nat): seq<Byte> {
    if n < |bytes| then bytes[..n] else bytes
  }

  lemma FrontSplits(bytes: seq<Byte>, m: nat, n: nat)
    ensures Front(bytes, m + n) == Front(bytes, m) + Front(bytes[|Front(bytes, m)|..], n)
  {
  }

  /** Any chunking of a body yields its bytes in order: all of them when the sizes add up. */
  lemma {:induction false} ChunksConcatenate(s: Body, sizes: seq<nat>)
    requires WellFormed(s) && s.readOnly
    ensures Chunks(s, sizes) == Front(Rest(s), Sum(sizes))
    decreases |sizes|
  {
    hide ReadBlock, Rest;
    if sizes == [] {
      assert Front(Rest(s), 0) == [];
    } else {
      var s' := ReadBlock(s, sizes[0]).0;
      OneChunk(s, sizes[0]);
      ChunksConcatenate(s', sizes[1..]);
      FrontSplits(Rest(s), sizes[0], Sum(sizes[1..]));
    }
  }

  /** getBodyBytes reads the unread bytes into a buffer as long as the whole body, and leaves
      the rest of it as it happens to be. */
  function Overlay(front: seq<Byte>, buffer: seq<Byte>): seq<Byte>
    requires |front| <= |buffer|
  {
    front + buffer[|front|..]
  }

  /** So it yields the body, whatever the buffer held, if and only if nothing has been read yet
      or there is nothing to read. */
  lemma BodyBytesExactly(s: Body)
    requires WellFormed(s)
    ensures (forall buffer: seq<Byte> :: |buffer| == |s.stored| ==> Overlay(Rest(s), buffer) == s.stored)
            <==> (s.position == 0 || s.stored == [])
  {
    var n := |s.stored|;
    if s.position == 0 || s.stored == [] {
      forall buffer: seq<Byte> | |buffer| == n ensures Overlay(Rest(s), buffer) == s.stored {
        assert Rest(s) == s.stored;
      }
    } else {
      var last := s.stored[n - 1];
      var buffer := seq(n, i => if last == 0 then 1 else 0);
      assert Overlay(Rest(s), buffer)[n - 1] == buffer[n - 1];
      assert Overlay(Rest(s), buffer) != s.stored;
    }
  }

  // ---- What each operation answers ----

  /** In read mode nothing can be written, in write mode nothing can be read, and trying changes
      nothing. */
  lemma ModesExclude(s: Body, v: Value, bytes: seq<Byte>, offset: int, length: int, k: Kind, n: int)
    ensures s.readOnly ==>
              && Step(s, Write(v)) == (s, NotWriteable) && Step(s, SetBodyBytes(bytes)) == (s, NotWriteable)
              && Step(s, WriteSlice(bytes, offset, length)) == (s, NotWriteable)
    ensures !s.readOnly ==>
              && Step(s, Read(k)) == (s, NotReadable) && Step(s, ReadBytes(n)) == (s, NotReadable)
              && Step(s, GetBodyLength) == (s, NotReadable) && Step(s, GetBodyBytes) == (s, NotReadable)
  {
  }

  /** Sending and resetting put a message into read mode, clearing into write mode, a clone leaves
      the mode; only a reset and a clear move the reader back. */
  lemma ModesSpelledOut(s: Body)
    ensures var t := Step(s, OnSend).0; t.readOnly && t.pending == [] && t.position == s.position
    ensures var t := Step(s, Reset).0; t.readOnly && t.pending == [] && t.position == 0
    ensures var t := Step(s, Clone).0; t.readOnly == s.readOnly && t.pending == [] && t.position == s.position
    ensures Step(s, ClearBody).0 == Body([], [], false, 0)
    ensures Step(s, OnSend).1 == Step(s, Reset).1 == Step(s, Clone).1 == Step(s, ClearBody).1 == Done
  {
  }

  /** After onSend every write is refused, and the body stays what it was. */
  lemma SentIsReadOnly(s: Body, v: Value, bytes: seq<Byte>)
    ensures var t := Step(s, OnSend).0;
            && Step(t, Write(v)) == (t, NotWriteable) && Step(t, SetBodyBytes(bytes)) == (t, NotWriteable)
            && t.stored == (if s.pending != [] then s.pending else s.stored)
  {
  }

  /** Whatever state a message is in: after clearing it all writes succeed, and a reset leaves
      exactly the bytes written. */
  lemma ClearThenWrite(s: Body, values: seq<Value>)
    ensures var ops := [ClearBody] + Writes(values) + [Reset];
            && After(s, ops) == Body(Encodings(values), [], true, 0)
            && |Answers(s, ops)| == |values| + 2
            && forall i :: 0 <= i < |values| + 2 ==> Answers(s, ops)[i] == Done
  {
    hide Encoding;
    var ops := Writes(values) + [Reset];
    assert [ClearBody] + Writes(values) + [Reset] == [ClearBody] + ops;
    var clear := Body([], [], false, 0);
    assert Step(s, ClearBody) == (clear, Done);
    RunsJoin(s, [ClearBody], ops);
    assert After(s, [ClearBody]) == clear && Answers(s, [ClearBody]) == [Done];
    WrittenAndReset(values);
    WritesDone(clear, values);
    RunsJoin(clear, Writes(values), [Reset]);
    assert Answers(After(clear, Writes(values)), [Reset]) == [Done];
  }

  lemma {:induction false} WritesDone(s: Body, values: seq<Value>)
    requires !s.readOnly
    ensures |Answers(s, Writes(values))| == |values|
    ensures forall i :: 0 <= i < |values| ==> Answers(s, Writes(values))[i] == Done
    decreases |values|
  {
    hide Encoding;
    if values != [] {
      WritesDone(s.(pending := s.pending + Encoding(values[0])), values[1..]);
      assert Writes(values) == [Write(values[0])] + Writes(values[1..]);
    }
  }

  /** A block read takes what is there up to what is wanted, says -1 exactly if something is wanted
      and nothing is there, and refuses a negative count. */
  lemma BlockSpelledOut(s: Body, n: int)
    requires WellFormed(s) && s.readOnly
    ensures var left := |s.stored| - s.position;
            var (t, a) := Step(s, ReadBytes(n));
            && (n < 0 ==> a == Failed && t == s)
            && (n > 0 && left == 0 ==> a == GotBytes(-1, []) && t == s)
            && (0 <= n <= left ==> a == GotBytes(n, s.stored[s.position..s.position + n]) && t.position == s.position + n)
            && (0 < left < n ==> a == GotBytes(left, s.stored[s.position..]) && t.position == |s.stored|)
  {
  }

  /** A typed read decodes the next bytes, or uses up too few of them. */
  lemma TypedSpelledOut(s: Body, k: Kind)
    requires WellFormed(s) && s.readOnly
    ensures var left := |s.stored| - s.position;
            var (t, a) := Step(s, Read(k));
            if Width(k) <= left then
              && a == Got(Decoding(k, s.stored[s.position..s.position + Width(k)])) && t.position == s.position + Width(k)
            else
              a == EndOfStream && t.position == |s.stored|
  {
    hide Decoding, Width;
    if Width(k) <= |s.stored| - s.position {
      assert Rest(s)[..Width(k)] == s.stored[s.position..s.position + Width(k)];
    }
  }

  /** Reading the whole body gives the bytes not read yet and leaves none. */
  lemma BodySpelledOut(s: Body, k: Kind, n: nat)
    requires WellFormed(s) && s.readOnly && n > 0
    ensures var (t, a) := Step(s, GetBodyBytes);
            && a == BodyRead(|s.stored|, s.stored[s.position..]) && t == s.(position := |s.stored|)
            && Step(t, Read(k)).1 == EndOfStream && Step(t, ReadBytes(n)).1 == GotBytes(-1, [])
  {
    hide Decoding;
  }

  /** A slice in bounds is written as it is, nothing is written for no bytes, and any other slice
      is refused. */
  lemma SliceSpelledOut(s: Body, value: seq<Byte>, offset: int, length: int)
    requires !s.readOnly
    ensures var (t, a) := Step(s, WriteSlice(value, offset, length));
            && (length == 0 ==> a == Done && t == s)
            && (0 <= offset && 0 < length && offset + length <= |value| ==>
                  a == Done && t == s.(pending := s.pending + value[offset..offset + length]))
            && (length < 0 || (length > 0 && (offset < 0 || offset + length > |value|)) ==> a == Failed && t == s)
  {
    assert s.pending + [] == s.pending;
  }
}
