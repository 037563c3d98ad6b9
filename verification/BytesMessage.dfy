/** ActiveMQBytesMessage: a body behind lazily created streams, stored with a length header when
    it is compressed. */
module BytesMessages {
  import opened Wrappers
  import opened BigEndian
  import opened TypedValues
  import opened BodyMachines

  /** What an input stream still delivers; one that is not sound then throws instead of ending. */
  datatype Stream = Stream(rest: seq<Byte>, sound: bool)

  datatype Zip = Zip(deflate: seq<Byte> -> seq<Byte>, inflate: seq<Byte> -> Stream)

  ghost predicate Lossless(z: Zip) {
    forall bytes: seq<Byte> :: z.inflate(z.deflate(bytes)) == Stream(bytes, true)
  }

  /** Inflating undoes deflating; what inflating does to other bytes is left open. */
  type Codec = z: Zip | Lossless(z)
    witness Zip((bytes: seq<Byte>) => bytes, (bytes: seq<Byte>) => Stream(bytes, true))

  /** The output side: whether bytes go through the deflater and the byte counter, and what has
      been written. */
  datatype Writer = Writer(deflating: bool, written: seq<Byte>)

  const HEADER := 4
  const MAX_INT := 0x7fff_ffff

  function Header(n: int): seq<Byte> { Encode(ToUnsigned(n, HEADER), HEADER) }

  function HeaderOf(content: seq<Byte>): int
    requires |content| >= HEADER
  {
    ToSigned(UnsignedOf(content[..HEADER]), HEADER)
  }

  /** What storing leaves in the message: the bytes themselves, or the header and the deflated
      bytes. The flag decides on the header, the writer on the deflating. */
  function Stored(codec: Codec, w: Writer, length: int, compressed: bool): seq<Byte> {
    var out := if w.deflating then codec.deflate(w.written) else w.written;
    if compressed then Header(length) + out else out
  }

  /** These stored bytes are read back as `body`, with its length. */
  ghost predicate Represents(codec: Codec, content: seq<Byte>, compressed: bool, body: seq<Byte>) {
    && |body| <= MAX_INT
    && if compressed then
         && |content| >= HEADER && HeaderOf(content) == |body|
         && codec.inflate(content[HEADER..]) == Stream(body, true)
       else content == body
  }

  /** What reading starts from: a length, and the bytes to come. */
  datatype Reading = Reading(length: int, stream: Stream)

  /** What stored bytes are opened as: the length from the header and the inflated rest when
      compressed, nothing if there is no header; otherwise the bytes and their number. */
  function Opening(codec: Codec, content: seq<Byte>, compressed: bool): Option<Reading> {
    if !compressed then Some(Reading(ToInt32(|content|), Stream(content, true)))
    else if |content| < HEADER then None
    else Some(Reading(HeaderOf(content), codec.inflate(content[HEADER..])))
  }

  lemma RepresentsExactly(codec: Codec, content: seq<Byte>, compressed: bool, body: seq<Byte>)
    ensures Represents(codec, content, compressed, body) <==>
            (|body| <= MAX_INT && Opening(codec, content, compressed) == Some(Reading(|body|, Stream(body, true))))
  {
  }

  function BlockFrom(st: Stream, n: int): Answer {
    if n < 0 || (|st.rest| < n && !st.sound) then Failed
    else if n > 0 && st.rest == [] then GotBytes(-1, [])
    else
      var k := if n < |st.rest| then n else |st.rest|;
      GotBytes(k, st.rest[..k])
  }

  function BlockLeaves(st: Stream, n: int): Stream {
    if n < 0 then st
    else if n <= |st.rest| then st.(rest := st.rest[n..])
    else Stream([], true)
  }

  function TypedFrom(st: Stream, k: Kind): Answer {
    if Width(k) <= |st.rest| then Got(Decoding(k, st.rest[..Width(k)]))
    else if st.sound then EndOfStream
    else Failed
  }

  function TypedLeaves(st: Stream, k: Kind): Stream {
    if Width(k) <= |st.rest| then st.(rest := st.rest[Width(k)..]) else Stream([], true)
  }

  /** What a reader is told, whatever is there to read. */
  function AnswerFrom(src: Option<Reading>, op: Op): Answer
    requires IsRead(op)
  {
    match src
    case None => Failed
    case Some(r) =>
      match op
      case GetBodyLength => Length(r.length)
      case ReadBytes(n) => BlockFrom(r.stream, n)
      case GetBodyBytes =>
        if r.length == 0 then BodyRead(0, [])
        else
          var a := BlockFrom(r.stream, r.length);
          if a.GotBytes? then BodyRead(r.length, a.bytes) else Failed
      case Read(k) => TypedFrom(r.stream, k)
  }

  /** And what he leaves to be read. */
  function Leaves(src: Option<Reading>, op: Op): Option<Reading>
    requires IsRead(op)
  {
    match src
    case None => None
    case Some(r) =>
      match op
      case GetBodyLength => src
      case ReadBytes(n) => Some(r.(stream := BlockLeaves(r.stream, n)))
      case GetBodyBytes => if r.length <= 0 then src else Some(r.(stream := BlockLeaves(r.stream, r.length)))
      case Read(k) => Some(r.(stream := TypedLeaves(r.stream, k)))
  }

  /** Asking for the length and for more bytes than there should be tells a readable body from an
      unreadable one: both answers are the plain body's if and only if it can be read back. */
  lemma ReadBackExactly(codec: Codec, content: seq<Byte>, compressed: bool, body: seq<Byte>, count: nat)
    requires |body| < count
    ensures var src := Opening(codec, content, compressed);
            (AnswerFrom(src, GetBodyLength) == Length(|body|)
             && AnswerFrom(src, ReadBytes(count)) == ReadBlock(Body(body, [], true, 0), count).1) <==>
            Represents(codec, content, compressed, body)
  {
    RepresentsExactly(codec, content, compressed, body);
    var src := Opening(codec, content, compressed);
    assert Rest(Body(body, [], true, 0)) == body;
    if src.Some? {
      var st := src.value.stream;
      assert st.rest[..|st.rest|] == st.rest && body[..|body|] == body;
      assert src.value.length <= MAX_INT by { HeaderBounded(content); }
    }
  }

  lemma HeaderBounded(content: seq<Byte>)
    ensures |content| >= HEADER ==> HeaderOf(content) <= MAX_INT
  {
    Powers();
  }

  /** The bytes written so far will be stored so that they can be read back. */
  predicate Storable(w: Writer, compressed: bool) {
    w.deflating == compressed && |w.written| <= MAX_INT
  }

  lemma HeaderRoundTrip(n: int)
    requires 0 <= n <= MAX_INT
    ensures |Header(n)| == HEADER && ToSigned(UnsignedOf(Header(n)), HEADER) == n
  {
    Powers();
    SignedRoundTrip(n, 4);
    UnsignedRoundTrip(ToUnsigned(n, 4), 4);
  }

  /** Storing makes the written bytes readable if and only if the flag says what the writer did
      and the length fits. In particular a raw writer under the flag leaves a header of 0. */
  lemma StoredExactly(codec: Codec, w: Writer, length: int, compressed: bool)
    requires w.written != [] && (w.deflating ==> compressed)
    requires length == if w.deflating then ToInt32(|w.written|) else 0
    ensures Represents(codec, Stored(codec, w, length, compressed), compressed, w.written) <==> Storable(w, compressed)
  {
    if compressed && |w.written| <= MAX_INT {
      HeaderRoundTrip(length);
      var out := if w.deflating then codec.deflate(w.written) else w.written;
      assert (Header(length) + out)[..HEADER] == Header(length);
      assert (Header(length) + out)[HEADER..] == out;
    }
  }

  lemma CountWraps(n: int, k: int)
    ensures ToInt32(ToInt32(n) + k) == ToInt32(n + k)
  {
    var q := (n + 0x8000_0000) / 0x1_0000_0000;
    assert ToInt32(n) == n - q * 0x1_0000_0000;
    ModuloUnique(n + k + 0x8000_0000, 0x1_0000_0000,
                 (n + k + 0x8000_0000) / 0x1_0000_0000, (n + k + 0x8000_0000) % 0x1_0000_0000);
    ModuloUnique(ToInt32(n) + k + 0x8000_0000, 0x1_0000_0000,
                 (n + k + 0x8000_0000) / 0x1_0000_0000 - q, (n + k + 0x8000_0000) % 0x1_0000_0000);
  }

  /** A typed read of the plain body is one of a sound stream of what is left. */
  lemma TypedShape(s: Body, k: Kind)
    requires WellFormed(s)
    ensures var (s', a) := ReadTyped(s, k);
            && WellFormed(s') && s' == s.(position := s'.position)
            && (!s.readOnly ==> s' == s && a == NotReadable)
            && (s.readOnly ==>
                  && a == TypedFrom(Stream(Rest(s), true), k)
                  && Stream(Rest(s'), true) == TypedLeaves(Stream(Rest(s), true), k))
  {
    hide Decoding, Width;
  }

  /** So is a block read. */
  lemma BlockShape(s: Body, n: int)
    requires WellFormed(s)
    ensures var (s', a) := ReadBlock(s, n);
            && WellFormed(s') && s' == s.(position := s'.position)
            && (!s.readOnly ==> s' == s && a == NotReadable)
            && (s.readOnly ==>
                  && a == BlockFrom(Stream(Rest(s), true), n)
                  && Stream(Rest(s'), true) == BlockLeaves(Stream(Rest(s), true), n))
  {
  }

  /** And getBodyBytes, when its length is known. */
  lemma BodyShape(s: Body)
    requires WellFormed(s)
    ensures var (s', a) := ReadBody(s);
            && WellFormed(s') && s' == s.(position := s'.position)
            && (!s.readOnly ==> s' == s && a == NotReadable)
            && (s.readOnly ==>
                  var src := Some(Reading(|s.stored|, Stream(Rest(s), true)));
                  && a == AnswerFrom(src, GetBodyBytes)
                  && Some(Reading(|s.stored|, Stream(Rest(s'), true))) == Leaves(src, GetBodyBytes))
  {
    var n := |s.stored|;
    assert |Rest(s)| == n - s.position;
    assert s.readOnly ==> Rest(s)[..|Rest(s)|] == Rest(s) && Rest(ReadBody(s).0) == [];
    assert n == |Rest(s)| ==> Rest(s)[n..] == [];
  }

  class ActiveMQBytesMessage {
    const codec: Codec
    var useCompression: bool
    var content: seq<Byte>
    var compressed: bool
    var readOnlyBody: bool
    var length: int
    var dataOut: Option<Writer>
    var dataIn: Option<Stream>

    /** The body this message should have. */
    ghost var body: Body

    /** The stored or written bytes can still be read back as the body. */
    ghost predicate Faithful()
      reads this
    {
      if dataOut.Some? && dataOut.value.written != [] then Storable(dataOut.value, compressed)
      else Represents(codec, content, compressed, body.stored)
    }

    /** The input stream stands where the reader does. */
    ghost predicate InStep()
      reads this
    {
      if dataIn.None? then body.position == 0
      else dataIn.value == Stream(Rest(body), true) && length == |body.stored|
    }

    /** What the next read starts from. */
    ghost function Source(): Option<Reading>
      reads this
    {
      if dataIn.Some? then Some(Reading(length, dataIn.value)) else Opening(codec, content, compressed)
    }

    ghost predicate Valid()
      reads this
    {
      && WellFormed(body) && readOnlyBody == body.readOnly
      && (!compressed ==> content == body.stored)
      && (dataOut.None? ==> body.pending == [])
      && (dataOut.Some? ==>
            && dataOut.value.written == body.pending
            && (dataOut.value.deflating ==> compressed)
            && (!readOnlyBody ==> length == if dataOut.value.deflating then ToInt32(|body.pending|) else 0))
      && (dataIn.Some? ==> readOnlyBody)
      && (Faithful() ==> InStep())
    }

    constructor (codec: Codec, useCompression: bool)
      ensures Valid() && Faithful() && body == NEW_BODY && !compressed && dataOut.None?
      ensures this.codec == codec && this.useCompression == useCompression
    {
      this.codec := codec;
      this.useCompression := useCompression;
      compressed := false;
      content, readOnlyBody := [], false;
      dataOut, dataIn, length := None, None, 0;
      body := NEW_BODY;
    }

    /** The connection the message belongs to from now on, or none. */
    method SetConnection(use: bool)
      requires Valid()
      modifies this`useCompression
      ensures Valid() && useCompression == use && (Faithful() <==> old(Faithful()))
    {
      useCompression := use;
    }

    method StoreContent()
      requires Valid()
      modifies this`content, this`dataOut, this`body
      ensures Valid() && body == Store(old(body))
      ensures Faithful() <==> old(Faithful())
      ensures dataOut == if old(body).pending != [] then None else old(dataOut)
      ensures content == if old(body).pending != [] then Stored(codec, old(dataOut).value, old(length), compressed)
                         else old(content)
    {
      if dataOut.Some? && dataOut.value.written != [] {
        StoredExactly(codec, dataOut.value, length, compressed);
        content := Stored(codec, dataOut.value, length, compressed);
        dataOut := None;
        body := Store(body);
      }
    }

    /** Opens the output side if it is closed. With compression on, the message is compressed
        from now on; nothing ever makes it uncompressed again. */
    method InitializeWriting() returns (ok: bool)
      requires Valid()
      modifies this`length, this`dataOut, this`compressed
      ensures ok == !readOnlyBody
      ensures WellFormed(body) && readOnlyBody == body.readOnly && (dataIn.Some? ==> readOnlyBody)
      ensures !ok ==> Valid() && (Faithful() <==> old(Faithful())) && dataOut == old(dataOut) && compressed == old(compressed)
      ensures ok ==>
                && dataOut.Some? && dataOut.value.written == body.pending
                && dataOut.value.deflating == (if old(dataOut).Some? then old(dataOut).value.deflating else useCompression)
                && compressed == (old(compressed) || (old(dataOut).None? && useCompression))
                && (dataOut.value.deflating ==> compressed)
                && (!compressed ==> content == body.stored)
                && length == (if dataOut.value.deflating then ToInt32(|body.pending|) else 0)
    {
      if readOnlyBody { return false; }
      if dataOut.None? {
        length := 0;
        if useCompression { compressed := true; }
        dataOut := Some(Writer(useCompression, []));
      }
      ok := true;
    }

    /** Appending to the body. It stays readable if and only if the bytes written so far will be
        stored in the way the flag says; or, as long as there are none, the flag still suits
        the stored bytes. */
    method Append(bytes: seq<Byte>) returns (a: Answer)
      requires Valid()
      modifies this`length, this`dataOut, this`compressed, this`body
      ensures Valid() && (body, a) == BodyMachines.Append(old(body), bytes)
      ensures a.NotWriteable? ==> (Faithful() <==> old(Faithful())) && dataOut == old(dataOut) && compressed == old(compressed)
      ensures a.Done? ==>
                && Mode() == Opened(old(Mode()))
                && (Faithful() <==> FaithfulAppend(codec, old(Mode()), old(body), old(Faithful()), bytes))
    {
      var ok := InitializeWriting();
      if !ok { return NotWriteable; }
      CountWraps(|body.pending|, |bytes|);
      if dataOut.value.deflating { length := ToInt32(length + |bytes|); }
      dataOut := Some(dataOut.value.(written := dataOut.value.written + bytes));
      body := body.(pending := body.pending + bytes);
      a := Done;
    }

    /** The typed writes append the encoding of the value. */
    method WriteValue(v: Value) returns (a: Answer)
      requires Valid()
      modifies this`length, this`dataOut, this`compressed, this`body
      ensures Valid() && Did(old(Mode()), old(body), old(Faithful()), Write(v), a)
    {
      a := Append(Encoding(v));
    }

    /** setBodyBytes adds the bytes to what is pending. */
    method PutBodyBytes(bytes: seq<Byte>) returns (a: Answer)
      requires Valid()
      modifies this`length, this`dataOut, this`compressed, this`body
      ensures Valid() && Did(old(Mode()), old(body), old(Faithful()), SetBodyBytes(bytes), a)
    {
      a := Append(bytes);
    }

    /** writeBytes with an offset. The length is passed on for the size of the array, so that in
        write mode a slice within the array is written as it should be if and only if it is
        empty or starts at 0; the others are rejected. The caller vouches for the array. */
    method WriteRange(value: seq<Byte>, offset: int, length: int) returns (a: Answer)
      requires Valid() && length <= |value|
      modifies this`length, this`dataOut, this`compressed, this`body
      ensures Valid() && Did(old(Mode()), old(body), old(Faithful()), AsJudged(WriteSlice(value, offset, length)), a)
      ensures !readOnlyBody && InBounds(value, offset, length) ==>
                ((body, a) == AppendSlice(old(body), value, offset, length) <==> (length == 0 || offset == 0))
    {
      var size := length;
      ghost var before := body;
      if length == 0 {
        a := Append([]);
      } else if size < 0 || offset > size || offset < 0 || length < 0 || length > size - offset {
        a := Append([]);
        if a.Done? { a := Failed; }
      } else {
        a := Append(value[offset..offset + length]);
      }
      assert before.pending + [] == before.pending;
    }

    /** onSend stores the body and turns the message read-only, where the reader stands. */
    method Send()
      requires Valid()
      modifies this`content, this`dataOut, this`body, this`readOnlyBody
      ensures Valid() && Did(old(Mode()), old(body), old(Faithful()), OnSend, Done)
      ensures readOnlyBody && body == Body(Contents(old(body)), [], true, old(body).position)
    {
      StoreContent();
      readOnlyBody := true;
      body := body.(readOnly := true);
    }

    /** reset: stores, forgets both streams and turns the message read-only. */
    method Rewind()
      requires Valid()
      modifies this`content, this`dataOut, this`dataIn, this`length, this`body, this`readOnlyBody
      ensures Valid() && Did(old(Mode()), old(body), old(Faithful()), Reset, Done)
      ensures readOnlyBody && body == Body(Contents(old(body)), [], true, 0)
      ensures dataIn.None? && dataOut.None?
      ensures content == if old(body).pending != [] then Stored(codec, old(dataOut).value, old(length), compressed)
                         else old(content)
    {
      StoreContent();
      dataIn, dataOut, length := None, None, 0;
      readOnlyBody := true;
      body := body.(readOnly := true, position := 0);
    }

    /** clearBody: an empty body in write mode. A message that was compressed stays flagged, and
        its empty content has no header to read. */
    method Clear()
      requires Valid()
      modifies this`content, this`dataOut, this`dataIn, this`length, this`body, this`readOnlyBody
      ensures Valid() && Did(old(Mode()), old(body), old(Faithful()), ClearBody, Done)
      ensures content == [] && dataIn.None? && dataOut.None? && (Faithful() <==> !compressed)
      ensures !readOnlyBody && body == Body([], [], false, 0)
    {
      content := [];
      readOnlyBody := false;
      dataOut, dataIn, length := None, None, 0;
      body := NEW_BODY;
    }

    /** copyDataStructure: the source is stored first; then its content, flag, mode and
        connection are taken over. Streams that were open in this message stay as they are, so
        that only a message without any becomes the source's copy. */
    method CopyDataStructure(src: ActiveMQBytesMessage)
      requires Valid() && src.Valid() && src != this && src.codec == codec
      modifies this, src`content, src`dataOut, src`body
      ensures src.Valid() && src.Did(old(src.Mode()), old(src.body), old(src.Faithful()), Clone, Done)
      ensures content == src.content && compressed == src.compressed && readOnlyBody == src.readOnlyBody
      ensures useCompression == src.useCompression
      ensures dataOut == old(dataOut) && dataIn == old(dataIn) && length == old(length)
      ensures old(dataOut).None? && old(dataIn).None? ==>
                && Valid() && (Faithful() <==> old(src.Faithful()))
                && body == Body(src.body.stored, [], src.readOnlyBody, 0)
    {
      src.StoreContent();
      content := src.content;
      compressed := src.compressed;
      readOnlyBody := src.readOnlyBody;
      useCompression := src.useCompression;
      body := Body(src.body.stored, [], src.readOnlyBody, 0);
    }

    /** cloneDataStructure: the same body in the same mode, to be read from the start. */
    method CloneDataStructure() returns (c: ActiveMQBytesMessage)
      requires Valid()
      modifies this`content, this`dataOut, this`body
      ensures Valid() && Did(old(Mode()), old(body), old(Faithful()), Clone, Done)
      ensures fresh(c) && c.Valid() && (c.Faithful() <==> old(Faithful())) && c.dataIn.None?
      ensures c.body == Body(Contents(old(body)), [], readOnlyBody, 0)
      ensures c.Mode() == Layout(compressed, None, useCompression)
    {
      c := new ActiveMQBytesMessage(codec, useCompression);
      c.CopyDataStructure(this);
    }

    /** clone: a copy that can be written to, which starts a new body. */
    method MakeClone() returns (c: ActiveMQBytesMessage)
      requires Valid()
      modifies this`content, this`dataOut, this`body
      ensures Valid() && Did(old(Mode()), old(body), old(Faithful()), Clone, Done)
      ensures fresh(c) && c.Valid() && (c.Faithful() <==> old(Faithful()))
      ensures c.body == Body(Contents(old(body)), [], false, 0)
    {
      c := CloneDataStructure();
      c.readOnlyBody := false;
      c.body := c.body.(readOnly := false);
    }

    // ---- reading ----

    /** Opens the input side if it is closed: the length from the header, when compressed, and
        the inflated rest; otherwise the content and its size. */
    method InitializeReading() returns (a: Answer)
      requires Valid()
      modifies this`dataIn, this`length
      ensures Valid() && (Faithful() <==> old(Faithful()))
      ensures a == if !readOnlyBody then NotReadable
                   else if old(dataIn).None? && compressed && |content| < HEADER then Failed else Done
      ensures readOnlyBody ==> Source() == old(Source()) && (a.Failed? <==> old(Source()).None?)
      ensures a.Done? ==> dataIn.Some? && old(Source()) == Some(Reading(length, dataIn.value))
      ensures Faithful() && readOnlyBody ==> a == Done
    {
      if !readOnlyBody { return NotReadable; }
      if dataIn.None? {
        if compressed {
          if |content| < HEADER { return Failed; }
          length := HeaderOf(content);
          dataIn := Some(codec.inflate(content[HEADER..]));
        } else {
          length := ToInt32(|content|);
          dataIn := Some(Stream(content, true));
        }
      }
      a := Done;
    }

    /** One read of the input stream: some bytes, at least one if any are wanted and left, but
        perhaps fewer than wanted; -1 at the end. */
    method ReadSome(max: nat) returns (count: int, bytes: seq<Byte>, failed: bool)
      requires dataIn.Some?
      modifies this`dataIn
      ensures dataIn.Some?
      ensures failed ==> old(dataIn).value == Stream([], false) && dataIn.value == Stream([], true) && max > 0
      ensures !failed && count < 0 ==> count == -1 && old(dataIn).value == Stream([], true) && dataIn == old(dataIn) && max > 0
      ensures !failed && count >= 0 ==>
                && count <= max && count <= |old(dataIn).value.rest| && (max > 0 ==> count > 0)
                && bytes == old(dataIn).value.rest[..count]
                && dataIn.value == old(dataIn).value.(rest := old(dataIn).value.rest[count..])
    {
      var rest := dataIn.value.rest;
      failed := false;
      if max == 0 { return 0, [], false; }
      if rest == [] {
        if dataIn.value.sound { return -1, [], false; }
        dataIn := Some(Stream([], true));
        return 0, [], true;
      }
      count :| 1 <= count <= max && count <= |rest|;
      bytes := rest[..count];
      dataIn := Some(dataIn.value.(rest := rest[count..]));
    }

    /** readAllData: reads on until `width` bytes have come. A stream that ends before that is
        used up. */
    method ReadAllData(width: nat) returns (a: Answer, buffer: seq<Byte>)
      requires dataIn.Some?
      modifies this`dataIn
      ensures dataIn.Some?
      ensures var st := old(dataIn).value;
              if width <= |st.rest| then
                a == Done && buffer == st.rest[..width] && dataIn.value == st.(rest := st.rest[width..])
              else
                a == (if st.sound then EndOfStream else Failed) && dataIn.value == Stream([], true)
    {
      ghost var st := dataIn.value;
      buffer := [];
      while |buffer| < width
        invariant |buffer| <= width && |buffer| <= |st.rest| && buffer == st.rest[..|buffer|]
        invariant dataIn == Some(st.(rest := st.rest[|buffer|..]))
      {
        var count, bytes, failed := ReadSome(width - |buffer|);
        if failed { return Failed, buffer; }
        if count < 0 { return EndOfStream, buffer; }
        buffer := buffer + bytes;
      }
      a := Done;
    }

    /** The typed reads take the width of the type from the stream. */
    method ReadValue(k: Kind) returns (a: Answer)
      requires Valid()
      modifies this`dataIn, this`length, this`body
      ensures Valid() && Answered(old(Mode()), old(body), old(Faithful()), old(Source()), Read(k), a)
    {
      hide Represents, Storable, ReadTyped, Rest, Opening, TypedFrom, TypedLeaves;
      TypedShape(body, k);
      a := InitializeReading();
      if a.Done? {
        a := TypedFromStream(k);
      }
      body := ReadTyped(body, k).0;
    }

    /** The bytes of one value, decoded. */
    method TypedFromStream(k: Kind) returns (a: Answer)
      requires dataIn.Some?
      modifies this`dataIn
      ensures a == TypedFrom(old(dataIn).value, k) && dataIn == Some(TypedLeaves(old(dataIn).value, k))
    {
      hide Decoding, Width;
      var buffer;
      a, buffer := ReadAllData(Width(k));
      if a.Done? { a := Got(Decoding(k, buffer)); }
    }

    /** readBytes: fills the buffer as far as the stream goes. */
    method ReadInto(buffer: array<Byte>, count: int) returns (a: Answer)
      requires Valid() && count <= buffer.Length
      modifies this`dataIn, this`length, this`body, buffer
      ensures Valid() && Answered(old(Mode()), old(body), old(Faithful()), old(Source()), ReadBytes(count), a)
      ensures a.GotBytes? && a.count >= 0 ==> a.count <= count && buffer[..a.count] == a.bytes
      ensures old(dataIn).Some? ==> dataIn.Some?
      ensures a.GotBytes? ==> forall i :: Filled(a.count) <= i < buffer.Length ==> buffer[i] == old(buffer[i])
    {
      hide Represents, Storable, ReadBlock, Rest, Opening, BlockFrom, BlockLeaves;
      BlockShape(body, count);
      a := InitializeReading();
      if a.Done? {
        a := BlockFromStream(buffer, count);
      }
      body := ReadBlock(body, count).0;
    }

    /** readBytes once the input side is open. */
    method BlockFromStream(buffer: array<Byte>, count: int) returns (a: Answer)
      requires dataIn.Some? && count <= buffer.Length
      modifies this`dataIn, buffer
      ensures a == BlockFrom(old(dataIn).value, count) && dataIn == Some(BlockLeaves(old(dataIn).value, count))
      ensures a.GotBytes? && a.count >= 0 ==> a.count <= count && buffer[..a.count] == a.bytes
      ensures a.GotBytes? ==> forall i :: Filled(a.count) <= i < buffer.Length ==> buffer[i] == old(buffer[i])
    {
      if count < 0 { return Failed; }
      ghost var st := dataIn.value;
      var n, failed := FillFromStream(buffer, count);
      assert n == |st.rest| ==> st.rest[n..] == [];
      a := if failed then Failed else GotBytes(if n == 0 && count > 0 then -1 else n, buffer[..n]);
    }

    /** The loop of readBytes, whatever the sizes of the pieces that the stream delivers. */
    method FillFromStream(buffer: array<Byte>, count: nat) returns (n: nat, failed: bool)
      requires dataIn.Some? && count <= buffer.Length
      modifies this`dataIn, buffer
      ensures dataIn.Some? && n <= count
      ensures var st := old(dataIn).value;
              && failed == (|st.rest| < count && !st.sound)
              && (!failed ==>
                    && n == (if |st.rest| < count then |st.rest| else count)
                    && buffer[..n] == st.rest[..n] && dataIn.value == st.(rest := st.rest[n..]))
              && (failed ==> dataIn.value == Stream([], true))
      ensures forall i :: n <= i < buffer.Length ==> buffer[i] == old(buffer[i])
    {
      ghost var st := dataIn.value;
      n := 0;
      while n < count
        invariant n <= count && n <= |st.rest| && buffer[..n] == st.rest[..n]
        invariant dataIn == Some(st.(rest := st.rest[n..]))
        invariant forall i :: n <= i < buffer.Length ==> buffer[i] == old(buffer[i])
      {
        var k, bytes, broken := ReadSome(count - n);
        if broken { return n, true; }
        if k < 0 { break; }
        Fill(buffer, n, bytes);
        n := n + k;
      }
      failed := false;
    }

    static method Fill(buffer: array<Byte>, n: nat, bytes: seq<Byte>)
      requires n + |bytes| <= buffer.Length
      modifies buffer
      ensures buffer[..] == old(buffer[..n]) + bytes + old(buffer[n + |bytes|..])
    {
      forall i | 0 <= i < |bytes| {
        buffer[n + i] := bytes[i];
      }
    }

    method BodyLength() returns (a: Answer)
      requires Valid()
      modifies this`dataIn, this`length
      ensures Valid() && Answered(old(Mode()), old(body), old(Faithful()), old(Source()), GetBodyLength, a)
      ensures a.Length? || a.Failed? || a.NotReadable?
      ensures a.Length? ==> dataIn.Some?
      ensures !readOnlyBody ==> a == NotReadable
    {
      a := InitializeReading();
      if a.Done? { a := Length(length); }
    }

    /** getBodyBytes: nothing for an empty body, else a new array as long as the body, filled
        with what has not been read yet. The answer says how much that was. */
    method BodyBytes() returns (a: Answer, buffer: array?<Byte>)
      requires Valid()
      modifies this`dataIn, this`length, this`body
      ensures Valid() && Answered(old(Mode()), old(body), old(Faithful()), old(Source()), GetBodyBytes, a)
      ensures !readOnlyBody ==> a == NotReadable && buffer == null
      ensures a.BodyRead? ==> if buffer == null then a.length == 0 && a.front == []
                              else fresh(buffer) && buffer.Length == a.length && a.front <= buffer[..]
      ensures Faithful() && readOnlyBody ==>
                && (buffer == null <==> body.stored == [])
                && (buffer != null ==> buffer[..] == Overlay(Rest(old(body)), buffer[..]))
    {
      hide Represents, Storable, Encode, Decode, ReadBlock, Rest, Opening, BlockLeaves, WellFormed;
      buffer := null;
      ghost var s := body;
      BodyShape(s);
      a := BodyLength();
      if a.Length? {
        if a.n == 0 {
          a := BodyRead(0, []);
        } else if a.n < 0 {
          a := Failed;
        } else {
          buffer := new Byte[a.n];
          var r := ReadInto(buffer, a.n);
          if r.GotBytes? {
            var filled := Filled(r.count);
            a := BodyRead(buffer.Length, buffer[..filled]);
          } else {
            a, buffer := Failed, null;
          }
        }
      }
      body := ReadBody(s).0;
    }

    // ---- any sequence of operations ----

    /** What a read did: it changed no bytes, it answered from what there was to read, and that
        is the plain body's answer if the bytes are readable. */
    ghost predicate Answered(l: Layout, s: Body, faithful: bool, src: Option<Reading>, op: Op, a: Answer)
      requires IsRead(op)
      reads this
    {
      && body == Step(s, op).0 && Mode() == l && (Faithful() <==> faithful)
      && (faithful ==> a == Step(s, op).1)
      && (if s.readOnly then a == AnswerFrom(src, op) && Source() == Leaves(src, op) else a == NotReadable)
    }

    /** What an operation did: the body moved as it should and the compression state as the mode
        says; the body is readable now exactly when it should be; and the client got the answer
        he should unless he read an unreadable body. */
    ghost predicate Did(l: Layout, s: Body, faithful: bool, op: Op, a: Answer)
      reads this
    {
      && body == Step(s, op).0 && Mode() == LayoutAfter(l, s, op)
      && (Faithful() <==> FaithfulStep(codec, l, s, faithful, op))
      && (faithful || !IsRead(op) ==> a == Step(s, op).1)
    }

    method Apply(op: Op) returns (a: Answer)
      requires Valid() && (op.WriteSlice? ==> op.length <= |op.value|)
      modifies this
      ensures Valid() && Did(old(Mode()), old(body), old(Faithful()), AsJudged(op), a)
      ensures IsRead(op) ==> Answered(old(Mode()), old(body), old(Faithful()), old(Source()), op, a)
    {
      match op
      case Write(v) => a := WriteValue(v);
      case WriteSlice(value, offset, length) => a := WriteRange(value, offset, length);
      case SetBodyBytes(bytes) => a := PutBodyBytes(bytes);
      case Read(k) => a := ReadValue(k);
      case ReadBytes(n) =>
        var buffer := new Byte[Filled(n)];
        a := ReadInto(buffer, n);
      case GetBodyLength => a := BodyLength();
      case GetBodyBytes =>
        var buffer;
        a, buffer := BodyBytes();
      case Clone =>
        var c := MakeClone();
        a := Done;
      case OnSend => Send(); a := Done;
      case Reset => Rewind(); a := Done;
      case ClearBody => Clear(); a := Done;
      case SetConnection(use) => SetConnection(use); a := Done;
    }

    /** Over every interleaving of operations, with the slices that the bounds check misjudges
        rejected, the message is readable exactly when the sequence of operations says so, and as
        long as it is read only then the client cannot tell it from the plain body. */
    method Run(ops: seq<Op>) returns (answers: seq<Answer>)
      requires Valid() && forall i :: 0 <= i < |ops| && ops[i].WriteSlice? ==> ops[i].length <= |ops[i].value|
      modifies this
      ensures Valid() && body == After(old(body), AllJudged(ops))
      ensures Faithful() <==> FaithfulRun(codec, old(Mode()), old(body), old(Faithful()), AllJudged(ops))
      ensures ReadableRun(codec, old(Mode()), old(body), old(Faithful()), AllJudged(ops)) ==>
                answers == Answers(old(body), AllJudged(ops))
      decreases |ops|
    {
      if ops == [] { return []; }
      var a := Apply(ops[0]);
      var more := Run(ops[1..]);
      answers := [a] + more;
    }

    /** Length and bytes of a message that has been rewound. */
    method ReadBack(count: nat) returns (n: Answer, all: Answer)
      requires Valid() && readOnlyBody && dataIn.None? && body.position == 0 && |body.stored| < count
      modifies this`dataIn, this`length, this`body
      ensures Valid() && (Faithful() <==> old(Faithful()))
      ensures (n == Length(|old(body).stored|) && all == ReadBlock(old(body), count).1) <==> old(Faithful())
    {
      ReadBackExactly(codec, content, compressed, body.stored, count);
      n := BodyLength();
      var buffer := new Byte[count];
      all := ReadInto(buffer, count);
    }

    /** After any operations and a reset, the client is told the length of the body and its bytes
        if and only if the sequence of operations left it readable. */
    method RunAndReadBack(ops: seq<Op>, count: nat) returns (n: Answer, all: Answer)
      requires Valid() && forall i :: 0 <= i < |ops| && ops[i].WriteSlice? ==> ops[i].length <= |ops[i].value|
      requires |Contents(After(body, AllJudged(ops)))| < count
      modifies this
      ensures var s := After(old(body), AllJudged(ops));
              (n == Length(|Contents(s)|) && all == ReadBlock(Body(Contents(s), [], true, 0), count).1) <==>
              FaithfulRun(codec, old(Mode()), old(body), old(Faithful()), AllJudged(ops))
    {
      var answers := Run(ops);
      Rewind();
      n, all := ReadBack(count);
    }

    /** The compression state of a message. */
    function Mode(): Layout
      reads this
    {
      Layout(compressed, if dataOut.Some? then Some(dataOut.value.deflating) else None, useCompression)
    }
  }

  /** How much of a buffer a block read has filled. */
  function Filled(count: int): nat { if count < 0 then 0 else count }

  /** The compression flag, whether the open output side deflates, and what the connection wants. */
  datatype Layout = Layout(compressed: bool, writer: Option<bool>, useCompression: bool)

  function Opened(l: Layout): Layout {
    if l.writer.Some? then l else Layout(l.compressed || l.useCompression, Some(l.useCompression), l.useCompression)
  }

  function LayoutAfter(l: Layout, s: Body, op: Op): Layout {
    match op
    case Write(_) => if s.readOnly then l else Opened(l)
    case WriteSlice(_, _, _) => if s.readOnly then l else Opened(l)
    case SetBodyBytes(_) => if s.readOnly then l else Opened(l)
    case Clone => if s.pending != [] then l.(writer := None) else l
    case OnSend => if s.pending != [] then l.(writer := None) else l
    case Reset => l.(writer := None)
    case ClearBody => l.(writer := None)
    case SetConnection(use) => l.(useCompression := use)
    case _ => l
  }

  predicate IsRead(op: Op) { op.Read? || op.ReadBytes? || op.GetBodyLength? || op.GetBodyBytes? }

  /** A non-empty slice at a positive offset, which the bounds check takes to be outside. */
  predicate Misjudged(op: Op) {
    op.WriteSlice? && op.offset > 0 && op.length > 0 && InBounds(op.value, op.offset, op.length)
  }

  /** The operation as the bounds check judges it: a misjudged slice is as one of negative length. */
  function AsJudged(op: Op): Op {
    if Misjudged(op) then WriteSlice(op.value, op.offset, -1) else op
  }

  function AllJudged(ops: seq<Op>): (r: seq<Op>)
    ensures |r| == |ops| && forall i :: 0 <= i < |ops| ==> r[i] == AsJudged(ops[i])
    ensures (forall i :: 0 <= i < |ops| ==> !Misjudged(ops[i])) ==> r == ops
  {
    if ops == [] then [] else [AsJudged(ops[0])] + AllJudged(ops[1..])
  }

  /** After appending, the body is readable if and only if the bytes written so far go through
      the deflater exactly when the message is flagged as compressed, and their length fits; as
      long as there are none, opening the output side must not have set the flag over bytes
      that were stored without it (unless they happen to be their own compressed form). */
  ghost predicate FaithfulAppend(codec: Codec, l: Layout, s: Body, faithful: bool, bytes: seq<Byte>) {
    var now := Opened(l);
    if s.pending + bytes != [] then
      now.writer == Some(now.compressed) && |s.pending + bytes| <= MAX_INT
    else if now.compressed == l.compressed then faithful
    else Represents(codec, s.stored, true, s.stored)
  }

  /** Whether the body is readable after an operation, given whether it was before. */
  ghost predicate FaithfulStep(codec: Codec, l: Layout, s: Body, faithful: bool, op: Op) {
    match op
    case Write(v) => if s.readOnly then faithful else FaithfulAppend(codec, l, s, faithful, Encoding(v))
    case WriteSlice(value, offset, length) =>
      if s.readOnly then faithful else FaithfulAppend(codec, l, s, faithful, Slice(value, offset, length))
    case SetBodyBytes(bytes) => if s.readOnly then faithful else FaithfulAppend(codec, l, s, faithful, bytes)
    case ClearBody => !l.compressed
    case _ => faithful
  }

  ghost predicate FaithfulRun(codec: Codec, l: Layout, s: Body, faithful: bool, ops: seq<Op>)
    decreases |ops|
  {
    if ops == [] then faithful
    else FaithfulRun(codec, LayoutAfter(l, s, ops[0]), Step(s, ops[0]).0, FaithfulStep(codec, l, s, faithful, ops[0]), ops[1..])
  }

  /** The body is readable whenever it is read. */
  ghost predicate ReadableRun(codec: Codec, l: Layout, s: Body, faithful: bool, ops: seq<Op>)
    decreases |ops|
  {
    ops == []
    || ((IsRead(ops[0]) ==> faithful)
        && ReadableRun(codec, LayoutAfter(l, s, ops[0]), Step(s, ops[0]).0, FaithfulStep(codec, l, s, faithful, ops[0]), ops[1..]))
  }

  function LayoutRun(l: Layout, s: Body, ops: seq<Op>): Layout
    decreases |ops|
  {
    if ops == [] then l else LayoutRun(LayoutAfter(l, s, ops[0]), Step(s, ops[0]).0, ops[1..])
  }

  lemma {:induction false} FaithfulRunsJoin(codec: Codec, l: Layout, s: Body, f: bool, a: seq<Op>, b: seq<Op>)
    ensures var f' := FaithfulRun(codec, l, s, f, a);
            && FaithfulRun(codec, l, s, f, a + b) == FaithfulRun(codec, LayoutRun(l, s, a), After(s, a), f', b)
            && (ReadableRun(codec, l, s, f, a + b) <==>
                (ReadableRun(codec, l, s, f, a) && ReadableRun(codec, LayoutRun(l, s, a), After(s, a), f', b)))
    decreases |a|
  {
    if a == [] {
      assert a + b == b;
    } else {
      assert (a + b)[1..] == a[1..] + b;
      FaithfulRunsJoin(codec, LayoutAfter(l, s, a[0]), Step(s, a[0]).0, FaithfulStep(codec, l, s, f, a[0]), a[1..], b);
    }
  }

  /** One more write through an output side that was opened in agreement with the flag. */
  lemma WriteFaithful(codec: Codec, l: Layout, s: Body, f: bool, v: Value)
    requires !s.readOnly && l.writer == Some(l.compressed)
    ensures Step(s, Write(v)).0 == s.(pending := s.pending + Encoding(v)) && LayoutAfter(l, s, Write(v)) == l
    ensures FaithfulStep(codec, l, s, f, Write(v)) <==>
            (if s.pending + Encoding(v) == [] then f else |s.pending + Encoding(v)| <= MAX_INT)
  {
    hide Encoding;
  }

  /** What counts is the length of the bytes written, or `initial` as long as there are none. */
  predicate Fits(pending: seq<Byte>, initial: bool) {
    if pending == [] then initial else |pending| <= MAX_INT
  }

  /** Writes through such an output side. */
  lemma {:induction false} WritesFaithful(codec: Codec, l: Layout, s: Body, f: bool, initial: bool, values: seq<Value>)
    requires !s.readOnly && l.writer == Some(l.compressed) && f == Fits(s.pending, initial)
    ensures FaithfulRun(codec, l, s, f, Writes(values)) <==> Fits(s.pending + Encodings(values), initial)
    ensures ReadableRun(codec, l, s, f, Writes(values))
    decreases |values|
  {
    hide Encoding, FaithfulStep, Step, LayoutAfter;
    if values == [] {
      assert s.pending + [] == s.pending;
    } else {
      var e := Encoding(values[0]);
      var f' := FaithfulStep(codec, l, s, f, Write(values[0]));
      WriteFaithful(codec, l, s, f, values[0]);
      WritesFaithful(codec, l, s.(pending := s.pending + e), f', initial, values[1..]);
      assert s.pending + e + Encodings(values[1..]) == s.pending + Encodings(values);
      assert Writes(values) == [Write(values[0])] + Writes(values[1..]);
    }
  }

  /** Values written to a new message are readable after a reset if and only if their total
      length fits and, when compression is on, either nothing was written or some byte was. */
  lemma NewMessageFaithful(codec: Codec, use: bool, values: seq<Value>)
    ensures var l := Layout(false, None, use);
            && (FaithfulRun(codec, l, NEW_BODY, true, Writes(values) + [Reset]) <==>
                (TotalWidth(values) <= MAX_INT && (use && values != [] ==> TotalWidth(values) > 0)))
            && ReadableRun(codec, l, NEW_BODY, true, Writes(values) + [Reset])
  {
    hide Encoding;
    var l := Layout(false, None, use);
    EncodingsWidth(values);
    FaithfulRunsJoin(codec, l, NEW_BODY, true, Writes(values), [Reset]);
    if values != [] {
      var s := Step(NEW_BODY, Write(values[0])).0;
      var f := FaithfulStep(codec, l, NEW_BODY, true, Write(values[0]));
      assert Writes(values)[1..] == Writes(values[1..]);
      assert [] + Encoding(values[0]) == Encoding(values[0]);
      WritesFaithful(codec, Opened(l), s, f, !use, values[1..]);
      assert s.pending + Encodings(values[1..]) == Encodings(values);
    }
    var g := FaithfulRun(codec, l, NEW_BODY, true, Writes(values));
    var l1, s1 := LayoutRun(l, NEW_BODY, Writes(values)), After(NEW_BODY, Writes(values));
    assert FaithfulRun(codec, l1, s1, g, [Reset]) == g;
    assert ReadableRun(codec, l1, s1, g, [Reset]);
  }

  /** Reading a readable body, in whatever way. */
  lemma {:induction false} ReadsReadable(codec: Codec, l: Layout, s: Body, ops: seq<Op>)
    requires forall i :: 0 <= i < |ops| ==> IsRead(ops[i])
    ensures ReadableRun(codec, l, s, true, ops) && FaithfulRun(codec, l, s, true, ops)
    decreases |ops|
  {
    if ops != [] {
      assert IsRead(ops[0]);
      ReadsReadable(codec, l, Step(s, ops[0]).0, ops[1..]);
    }
  }

  lemma {:induction false} ReadsAreReads(values: seq<Value>)
    ensures forall i :: 0 <= i < |Reads(values)| ==> IsRead(Reads(values)[i])
  {
    if values != [] { ReadsAreReads(values[1..]); }
  }

  /** Typed values written, stored with or without compression, and read back: the client gets
      the sum of the widths, the same values in the same order, and then the end of the stream. */
  method WriteAndReadBack(codec: Codec, use: bool, values: seq<Value>, further: Kind) returns (answers: seq<Answer>)
    requires TotalWidth(values) <= MAX_INT && (use && values != [] ==> TotalWidth(values) > 0)
    ensures answers == [Length(TotalWidth(values))] + Expected(values) + [EndOfStream]
  {
    hide Encoding, FaithfulRun, ReadableRun, FaithfulStep, After, Answers, Step, Represents;
    var m := new ActiveMQBytesMessage(codec, use);
    var front := Writes(values) + [Reset];
    var back := [GetBodyLength] + Reads(values) + [Read(further)];
    WritesAreWrites(values);
    var written := m.Run(front);
    NewMessageFaithful(codec, use, values);
    BackIsReads(values, further);
    ReadsReadable(codec, m.Mode(), m.body, back);
    TypedRoundTrip(values, further);
    answers := m.Run(back);
  }

  lemma BackIsReads(values: seq<Value>, further: Kind)
    ensures var back := [GetBodyLength] + Reads(values) + [Read(further)];
            forall i :: 0 <= i < |back| ==> IsRead(back[i])
  {
    ReadsAreReads(values);
  }

  lemma {:induction false} WritesAreWrites(values: seq<Value>)
    ensures forall i :: 0 <= i < |Writes(values)| ==> Writes(values)[i].Write?
  {
    if values != [] { WritesAreWrites(values[1..]); }
  }

  /** A body that is written to a message whose output side is closed can be read after a reset
      if and only if its length fits and the connection compresses or the message was never
      compressed before; nothing resets the flag, not even clearing the body. */
  lemma RewriteExactly(codec: Codec, l: Layout, s: Body, f: bool, bytes: seq<Byte>)
    requires !s.readOnly && l.writer.None? && s.pending == [] && bytes != []
    ensures FaithfulRun(codec, l, s, f, [SetBodyBytes(bytes), Reset]) <==>
            (|bytes| <= MAX_INT && (l.useCompression || !l.compressed))
    ensures After(s, [SetBodyBytes(bytes), Reset]) == Body(bytes, [], true, 0)
  {
    var ops := [SetBodyBytes(bytes), Reset];
    var s1, l1 := Step(s, SetBodyBytes(bytes)).0, LayoutAfter(l, s, SetBodyBytes(bytes));
    var f1 := FaithfulStep(codec, l, s, f, SetBodyBytes(bytes));
    assert [] + bytes == bytes;
    assert ops[1..] == [Reset];
    assert FaithfulRun(codec, l1, s1, f1, [Reset]) == f1;
    assert After(s1, [Reset]) == Step(s1, Reset).0;
  }

  /** Such a message: written with compression, cleared, moved to a connection without it, and
      written again. The client is told that its body has no bytes. */
  method StaleFlag(codec: Codec, first: seq<Byte>, second: seq<Byte>) returns (m: ActiveMQBytesMessage, n: Answer)
    requires first != [] && second != []
    ensures m.Valid() && m.body == Body(second, [], true, 0) && n == Length(0)
  {
    m := new ActiveMQBytesMessage(codec, true);
    var a := m.PutBodyBytes(first);
    m.Rewind();
    m.Clear();
    m.SetConnection(false);
    n := WriteRaw(m, second);
  }

  /** Writing over a connection without compression to a message that is flagged. */
  method WriteRaw(m: ActiveMQBytesMessage, bytes: seq<Byte>) returns (n: Answer)
    requires m.Valid() && m.body == NEW_BODY && m.Mode() == Layout(true, None, false) && bytes != []
    modifies m
    ensures m.Valid() && m.body == Body(bytes, [], true, 0) && n == Length(0)
  {
    hide Opening, Stored, Represents, Storable, FaithfulStep;
    var a := m.PutBodyBytes(bytes);
    assert [] + bytes == bytes;
    assert m.dataOut.value == Writer(false, bytes) && m.length == 0;
    m.Rewind();
    RawUnderHeader(m.codec, bytes);
    n := m.BodyLength();
  }

  /** Raw bytes under the flag are opened as an empty body. */
  lemma RawUnderHeader(codec: Codec, bytes: seq<Byte>)
    ensures var src := Opening(codec, Stored(codec, Writer(false, bytes), 0, true), true);
            src.Some? && src.value.length == 0
  {
    HeaderRoundTrip(0);
    assert (Header(0) + bytes)[..HEADER] == Header(0);
  }

  /** A compressed message that is cleared has a body whose length cannot be read. */
  method ClearedBody(m: ActiveMQBytesMessage) returns (n: Answer)
    requires m.Valid() && m.compressed
    modifies m
    ensures m.Valid() && m.body == Body([], [], true, 0) && n == Failed
  {
    m.Clear();
    m.Rewind();
    n := m.BodyLength();
  }

  /** So has a new message to which no bytes were written under compression. */
  method EmptyBlock(codec: Codec) returns (m: ActiveMQBytesMessage, n: Answer)
    ensures m.Valid() && m.body == Body([], [], true, 0) && n == Failed
  {
    m := new ActiveMQBytesMessage(codec, true);
    var a := m.WriteValue(Value.Block([]));
    m.Rewind();
    n := m.BodyLength();
  }

  // ---- The stored bytes themselves ----

  /** The first four bytes of compressed content: a number of 32 bits, most significant first. */
  lemma HeaderSpelledOut(n: int)
    requires 0 <= n <= 0x7fff_ffff
    ensures Header(n) == [n / 0x100_0000, n / 0x1_0000 % 256, n / 0x100 % 256, n % 256]
  {
    Powers();
    ModuloUnique(n, 0x1_0000_0000, 0, n);
    ByteAt(n, 4, 0);
    ByteAt(n, 4, 1);
    ByteAt(n, 4, 2);
    ByteAt(n, 4, 3);
    assert Pow256(1) == 0x100 && Pow256(2) == 0x1_0000 && Pow256(3) == 0x100_0000;
  }

  /** What one value leaves in a new message: without compression its own bytes. */
  method StoreOne(codec: Codec, v: Value) returns (m: ActiveMQBytesMessage)
    ensures m.Valid() && m.content == Encoding(v) && !m.compressed
    ensures v.Boolean? ==> m.content == [if v.flag then 1 else 0]
  {
    hide Encoding;
    OneByteValues(0);
    m := new ActiveMQBytesMessage(codec, false);
    var a := m.WriteValue(v);
    assert [] + Encoding(v) == Encoding(v);
    ghost var w := m.dataOut;
    m.Rewind();
    assert w == Some(Writer(false, Encoding(v)));
  }

  /** With compression, its length in four bytes and the deflated bytes. */
  method StoreOneCompressed(codec: Codec, bytes: seq<Byte>) returns (m: ActiveMQBytesMessage)
    requires bytes != [] && |bytes| <= 0x7fff_ffff
    ensures m.Valid() && m.compressed
    ensures var n := |bytes|;
            m.content == [n / 0x100_0000, n / 0x1_0000 % 256, n / 0x100 % 256, n % 256] + codec.deflate(bytes)
  {
    hide Opening, Represents, Storable, FaithfulStep;
    m := new ActiveMQBytesMessage(codec, true);
    var a := m.PutBodyBytes(bytes);
    assert [] + bytes == bytes;
    assert m.dataOut == Some(Writer(true, bytes)) && m.length == ToInt32(|bytes|);
    m.Rewind();
    ToInt32Exactly(|bytes|);
    HeaderSpelledOut(|bytes|);
  }

  /** Bytes put into a message are what it stores, and a boolean read of the first one tells
      whether it is not 0. */
  method PutAndReadBoolean(codec: Codec, bytes: seq<Byte>) returns (a: Answer)
    requires bytes != [] && |bytes| <= MAX_INT
    ensures a == Got(Boolean(bytes[0] != 0))
  {
    hide Opening, Represents, Storable;
    var m := new ActiveMQBytesMessage(codec, false);
    var b := m.PutBodyBytes(bytes);
    assert [] + bytes == bytes;
    m.Rewind();
    assert Rest(m.body)[..1] == [bytes[0]];
    OneByteReads(bytes[0]);
    a := m.ReadValue(ABoolean);
  }

  /** A run without reads has no unreadable ones. */
  lemma {:induction false} NothingRead(codec: Codec, l: Layout, s: Body, f: bool, ops: seq<Op>)
    requires forall i :: 0 <= i < |ops| ==> !IsRead(ops[i])
    ensures ReadableRun(codec, l, s, f, ops)
    decreases |ops|
  {
    if ops != [] {
      NothingRead(codec, LayoutAfter(l, s, ops[0]), Step(s, ops[0]).0, FaithfulStep(codec, l, s, f, ops[0]), ops[1..]);
    }
  }

  /** A message that was cleared takes any values and keeps exactly their bytes. */
  method ClearAndWrite(m: ActiveMQBytesMessage, values: seq<Value>) returns (answers: seq<Answer>)
    requires m.Valid()
    modifies m
    ensures m.Valid() && m.body == Body(Encodings(values), [], true, 0)
    ensures |answers| == |values| + 1 && forall i :: 0 <= i <= |values| ==> answers[i] == Done
  {
    hide Encoding, FaithfulRun, ReadableRun, Represents, Storable;
    m.Clear();
    ghost var clear := m.body;
    WritesAreWrites(values);
    WritesDone(clear, values);
    WrittenAndReset(values);
    RunsJoin(clear, Writes(values), [Reset]);
    assert Answers(After(clear, Writes(values)), [Reset]) == [Done] by { assert Step(After(clear, Writes(values)), Reset).1 == Done; }
    NothingRead(m.codec, m.Mode(), clear, m.Faithful(), Writes(values) + [Reset]);
    answers := m.Run(Writes(values) + [Reset]);
  }

  /** What the first four bytes of compressed content are read as. */
  lemma HeaderReadSpelledOut(content: seq<Byte>)
    requires |content| >= 4
    ensures var n := (content[0] as int) * 0x100_0000 + (content[1] as int) * 0x1_0000 + (content[2] as int) * 0x100 + content[3];
            HeaderOf(content) == if n <= 0x7fff_ffff then n else n - 0x1_0000_0000
  {
    Powers();
    var h := content[..4];
    assert h[..3][..2][..1][..0] == [] && h[..3][..2][..1] == [content[0]];
    assert h[..3][..2] == [content[0], content[1]] && h[..3] == [content[0], content[1], content[2]];
    assert Decode(h) == 256 * Decode(h[..3]) + content[3];
    assert Decode(h[..3]) == 256 * Decode(h[..3][..2]) + content[2];
    assert Decode(h[..3][..2]) == 256 * Decode(h[..3][..2][..1]) + content[1];
    assert Decode(h[..3][..2][..1]) == content[0];
  }
}
