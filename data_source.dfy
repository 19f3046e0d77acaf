/** snakeoil/data_source.py: where content comes from (an in-memory buffer
    or a file on disk), with explicit text/bytes conversion and mutability.
    A handle ("file object") is modelled as a `Stream`: a buffer with a
    position. Writable handles of an in-memory source hold a callback to it,
    and closing the handle commits the buffer back into the source. */
module DataSource {
  import opened Common
  import opened Utf8

  /** Python's two kinds of content. */
  datatype Kind = TextKind | BytesKind

  /** A Python `str` or `bytes` value. */
  datatype Payload = Text(text: string) | Bytes(bytes: seq<byte>)
  {
    function Kind(): Kind { if Text? then TextKind else BytesKind }

    function Length(): nat { if Text? then |text| else |bytes| }

    function Slice(i: nat, j: nat): (r: Payload)
      requires i <= j <= Length()
      ensures r.Kind() == Kind() && r.Length() == j - i
    {
      if Text? then Text(text[i..j]) else Bytes(bytes[i..j])
    }

    function Append(other: Payload): (r: Payload)
      requires other.Kind() == Kind()
      ensures r.Kind() == Kind() && r.Length() == Length() + other.Length()
    {
      if Text? then Text(text + other.text) else Bytes(bytes + other.bytes)
    }

    /** Writing `other` at `pos` into a stream holding this content: io's
        StringIO pads with NUL characters and BytesIO with zero bytes when
        `pos` lies beyond the end. */
    function Overwrite(pos: nat, other: Payload): (r: Payload)
      requires other.Kind() == Kind()
      ensures r.Kind() == Kind()
    {
      if Text? then Text(OverwriteSeq(text, pos, other.text, '\0'))
      else Bytes(OverwriteSeq(bytes, pos, other.bytes, 0))
    }
  }

  /** The buffer after writing `s` at `pos`: `s` occupies [pos, pos + |s|),
      the old content is kept elsewhere, and any gap is filled with `fill`. */
  function OverwriteSeq<T>(buf: seq<T>, pos: nat, s: seq<T>, fill: T): (r: seq<T>)
    ensures |r| == if pos + |s| > |buf| then pos + |s| else |buf|
  {
    if pos <= |buf| then
      buf[..pos] + s + (if pos + |s| <= |buf| then buf[pos + |s|..] else [])
    else
      buf + Fill(pos - |buf|, fill) + s
  }

  /** `n` copies of `x`. */
  function Fill<T>(n: nat, x: T): (r: seq<T>)
    ensures |r| == n
  {
    if n == 0 then [] else [x] + Fill(n - 1, x)
  }

  lemma {:induction false} FillAt<T>(n: nat, x: T)
    ensures forall i :: 0 <= i < n ==> Fill(n, x)[i] == x
  {
    if n > 0 {
      FillAt(n - 1, x);
      assert forall i :: 1 <= i < n ==> Fill(n, x)[i] == Fill(n - 1, x)[i - 1];
    }
  }

  /** What each item of the overwritten buffer is. */
  lemma OverwriteSeqAt<T>(buf: seq<T>, pos: nat, s: seq<T>, fill: T)
    ensures forall i :: 0 <= i < |OverwriteSeq(buf, pos, s, fill)| ==>
      OverwriteSeq(buf, pos, s, fill)[i] ==
        if pos <= i < pos + |s| then s[i - pos] else if i < |buf| then buf[i] else fill
  {
    if pos > |buf| {
      FillAt(pos - |buf|, fill);
    }
  }

  /** Two consecutive writes are one write of the concatenation. */
  lemma OverwriteSeqConcat<T>(buf: seq<T>, pos: nat, a: seq<T>, b: seq<T>, fill: T)
    ensures OverwriteSeq(OverwriteSeq(buf, pos, a, fill), pos + |a|, b, fill)
         == OverwriteSeq(buf, pos, a + b, fill)
  {
    var lhs := OverwriteSeq(OverwriteSeq(buf, pos, a, fill), pos + |a|, b, fill);
    var rhs := OverwriteSeq(buf, pos, a + b, fill);
    OverwriteSeqAt(buf, pos, a, fill);
    OverwriteSeqAt(OverwriteSeq(buf, pos, a, fill), pos + |a|, b, fill);
    OverwriteSeqAt(buf, pos, a + b, fill);
    assert |lhs| == |rhs|;
    forall i | 0 <= i < |lhs| ensures lhs[i] == rhs[i] {
      if pos <= i < pos + |a| {
        assert (a + b)[i - pos] == a[i - pos];
      } else if pos + |a| <= i < pos + |a| + |b| {
        assert (a + b)[i - pos] == b[i - pos - |a|];
      }
    }
  }

  lemma OverwriteConcat(p: Payload, pos: nat, a: Payload, b: Payload)
    requires a.Kind() == p.Kind() && b.Kind() == p.Kind()
    ensures p.Overwrite(pos, a).Overwrite(pos + a.Length(), b) == p.Overwrite(pos, a.Append(b))
  {
    if p.Text? {
      OverwriteSeqConcat(p.text, pos, a.text, b.text, '\0');
    } else {
      OverwriteSeqConcat(p.bytes, pos, a.bytes, b.bytes, 0);
    }
  }

  lemma SliceAppend(p: Payload, i: nat, j: nat, k: nat)
    requires i <= j <= k <= p.Length()
    ensures p.Slice(i, j).Append(p.Slice(j, k)) == p.Slice(i, k)
  {
    if p.Text? {
      assert p.text[i..j] + p.text[j..k] == p.text[i..k];
    } else {
      assert p.bytes[i..j] + p.bytes[j..k] == p.bytes[i..k];
    }
  }

  /** Writing the next slice of `src` after the slices already written
      extends what was written by that slice. */
  lemma OverwriteStep(w0: Payload, wpos0: nat, wcur: Payload, wpos: nat, src: Payload, s0: nat, done: nat, next: nat,
                      piece: Payload)
    requires s0 <= done <= next <= src.Length() && src.Kind() == w0.Kind()
    requires wcur == w0.Overwrite(wpos0, src.Slice(s0, done)) && wpos == wpos0 + (done - s0)
    requires piece == src.Slice(done, next)
    ensures wcur.Overwrite(wpos, piece) == w0.Overwrite(wpos0, src.Slice(s0, next))
  {
    OverwriteConcat(w0, wpos0, src.Slice(s0, done), src.Slice(done, next));
    SliceAppend(src, s0, done, next);
  }

  /** `_convert_data` of data_source: the content as the requested kind. Text
      is encoded, bytes are decoded (which fails on malformed UTF-8), and
      content already of that kind is returned as it is. */
  function Convert(p: Payload, k: Kind): (r: Result<Payload>)
    ensures r.Ok? ==> r.value.Kind() == k
    ensures p.Kind() == k ==> r == Ok(p)
    ensures p.Text? && k == BytesKind ==> r == Ok(Bytes(Encode(p.text)))
    ensures p.Bytes? && k == TextKind ==>
      (r.Ok? <==> Decode(p.bytes).Some?) && (r.Ok? ==> r.value.text == Decode(p.bytes).value)
    ensures r.Err? ==> r.error == UnicodeDecodeError
  {
    match (p, k)
    case (Text(_), TextKind) => Ok(p)
    case (Bytes(_), BytesKind) => Ok(p)
    case (Text(t), BytesKind) => Ok(Bytes(Encode(t)))
    case (Bytes(b), TextKind) =>
      match Decode(b)
      case None => Err(UnicodeDecodeError)
      case Some(t) => Ok(Text(t))
  }

  /** Converting and converting back gives the original content: text always
      converts to bytes, and bytes that convert to text come back unchanged. */
  lemma ConvertRoundTrip(p: Payload, k: Kind)
    requires Convert(p, k).Ok?
    ensures Convert(Convert(p, k).value, p.Kind()) == Ok(p)
  {
    if p.Kind() != k {
      if p.Text? {
        DecodeEncode(p.text);
      } else {
        EncodeDecode(p.bytes);
      }
    }
  }

  /** Text content can always be read as bytes: str.encode() does not fail. */
  lemma TextAlwaysConverts(p: Payload, k: Kind)
    requires p.Text?
    ensures Convert(p, k).Ok?
  {
  }

  /** Python's `callable(callback)` test on what a writable handle is given. */
  datatype CallbackArg = ResetDataOf(source: DataSource) | NotCallable

  /** A stream: snakeoil.stringio's read-only and writable buffers and the
      data-source handle classes built on them. */
  class Stream {
    var buf: Payload
    var pos: nat
    var closed: bool
    /** The writable handle's `_callback`; null once it has been invoked. */
    var callback: DataSource?
    const kind: Kind
    const writable: bool
    /** The handle's `exceptions` attribute. */
    const exceptions: set<PyError>
    /** Whether `close` begins with `flush()`, as the committing handle's does;
        io's own `close` on a closed stream does nothing. */
    const flushesOnClose: bool

    ghost predicate Valid()
      reads this
    {
      buf.Kind() == kind && (callback != null ==> writable)
    }

    /** Where the next read starts: the position, or the end if it lies beyond. */
    function Start(): nat
      reads this
    {
      if pos <= buf.Length() then pos else buf.Length()
    }

    /** Where `read(size)` stops; a negative size reads to the end. */
    function ChunkEnd(size: int): (e: nat)
      reads this
      ensures Start() <= e <= buf.Length()
    {
      if size < 0 || Start() + size >= buf.Length() then buf.Length() else Start() + size
    }

    /** What is still unread. */
    function Remaining(): (r: Payload)
      reads this
      ensures r.Kind() == buf.Kind()
    {
      buf.Slice(Start(), buf.Length())
    }

    /** text_ro_StringIO / bytes_ro_StringIO (and stringio's read-only base). */
    constructor ReadOnly(data: Payload)
      ensures Valid() && buf == data && pos == 0 && !closed && callback == null
      ensures kind == data.Kind() && !writable && exceptions == {MemoryError, TypeError} && !flushesOnClose
    {
      buf, pos, closed, callback := data, 0, false, null;
      kind, writable, exceptions, flushesOnClose := data.Kind(), false, {MemoryError, TypeError}, false;
    }

    /** stringio's writable buffer, which carries no callback. */
    constructor Writable(data: Payload)
      ensures Valid() && buf == data && pos == 0 && !closed && callback == null
      ensures kind == data.Kind() && writable && exceptions == {} && !flushesOnClose
    {
      buf, pos, closed, callback := data, 0, false, null;
      kind, writable, exceptions, flushesOnClose := data.Kind(), true, {}, false;
    }

    /** The writable handle class `_mk_writable_cls` builds, once its callback
        is known to be callable. */
    constructor Committing(target: DataSource, data: Payload)
      ensures Valid() && buf == data && pos == 0 && !closed && callback == target
      ensures kind == data.Kind() && writable && exceptions == {MemoryError} && flushesOnClose
    {
      buf, pos, closed, callback := data, 0, false, target;
      kind, writable, exceptions, flushesOnClose := data.Kind(), true, {MemoryError}, true;
    }

    /** `kls.__init__`: refuses a callback that is not callable. */
    static method NewCommitting(cb: CallbackArg, data: Payload) returns (r: Result<Stream>)
      ensures cb.NotCallable? ==> r == Err(TypeError)
      ensures cb.ResetDataOf? ==> r.Ok? && fresh(r.value) && r.value.Valid()
      ensures cb.ResetDataOf? ==> r.value.buf == data && r.value.pos == 0 && !r.value.closed
      ensures cb.ResetDataOf? ==> r.value.callback == cb.source && r.value.writable
      ensures cb.ResetDataOf? ==> r.value.exceptions == {MemoryError} && r.value.flushesOnClose
    {
      if cb.NotCallable? {
        return Err(TypeError);
      }
      var s := new Stream.Committing(cb.source, data);
      return Ok(s);
    }

    /** `read(size)`. */
    method Read(size: int) returns (r: Result<Payload>)
      requires Valid()
      modifies this`pos
      ensures Valid()
      ensures old(closed) ==> r == Err(ValueError) && pos == old(pos)
      ensures !old(closed) ==> r == Ok(old(buf.Slice(Start(), ChunkEnd(size))))
      ensures !old(closed) ==> pos == if old(pos) <= buf.Length() then old(ChunkEnd(size)) else old(pos)
    {
      if closed {
        return Err(ValueError);
      }
      var start, end := Start(), ChunkEnd(size);
      r := Ok(buf.Slice(start, end));
      if pos <= buf.Length() {
        pos := end;
      }
    }

    /** `write(s)`: overwrites from the current position and moves past what
        was written. */
    method Write(s: Payload) returns (r: Result<nat>)
      requires Valid()
      modifies this`buf, this`pos
      ensures Valid()
      ensures r.Err? ==> buf == old(buf) && pos == old(pos)
      ensures !writable ==> r == Err(TypeError)
      ensures writable && closed ==> r == Err(ValueError)
      ensures writable && !closed && s.Kind() != kind ==> r == Err(TypeError)
      ensures writable && !closed && s.Kind() == kind ==>
        r == Ok(s.Length()) && buf == old(buf).Overwrite(old(pos), s) && pos == old(pos) + s.Length()
    {
      if !writable || s.Kind() != kind {
        r := if !writable || !closed then Err(TypeError) else Err(ValueError);
        return;
      }
      if closed {
        return Err(ValueError);
      }
      buf := buf.Overwrite(pos, s);
      pos := pos + s.Length();
      return Ok(s.Length());
    }

    /** `seek(offset)` (whence 0). */
    method Seek(offset: int) returns (r: Result<nat>)
      requires Valid()
      modifies this`pos
      ensures Valid()
      ensures r.Ok? <==> !closed && offset >= 0
      ensures r.Ok? ==> r.value == offset && pos == offset
      ensures r.Err? ==> r.error == ValueError && pos == old(pos)
    {
      if closed || offset < 0 {
        return Err(ValueError);
      }
      pos := offset;
      return Ok(offset);
    }

    /** `tell()`. */
    method Tell() returns (r: Result<nat>)
      ensures r == if closed then Err(ValueError) else Ok(pos)
    {
      r := if closed then Err(ValueError) else Ok(pos);
    }

    /** `close()`. A plain stream just closes. A writable data-source handle
        rewinds, reads everything back and hands it to its callback, which
        commits it into the source; the callback is then cleared so that it
        runs once. If the callback raises, the exception escapes before the
        callback is cleared and before the stream is closed. Closing a closed
        committing handle fails in `flush()` with ValueError; closing any other
        closed stream succeeds. Either way nothing changes. */
    method Close() returns (r: Result<()>)
      requires Valid()
      modifies this, callback
      ensures Valid() && buf == old(buf)
      ensures old(closed) ==> r == (if flushesOnClose then Err(ValueError) else Ok(()))
      ensures old(closed) ==> closed && pos == old(pos) && callback == old(callback)
      ensures old(closed) && old(callback) != null ==> old(callback).data == old(callback.data)
      ensures !old(closed) && old(callback) == null ==> r.Ok? && closed && pos == old(pos) && callback == null
      ensures !old(closed) && old(callback) != null ==>
        pos == buf.Length() &&
        var committed := Convert(buf, old(callback.data).Kind());
        (r.Ok? <==> committed.Ok?) &&
        (r.Ok? ==> closed && callback == null && old(callback).data == committed.value) &&
        (r.Err? ==> !closed && callback == old(callback) && callback.data == old(callback.data)
                    && r.error == UnicodeDecodeError)
    {
      if closed {
        return if flushesOnClose then Err(ValueError) else Ok(());
      }
      if callback != null {
        pos := 0;
        var content := buf.Slice(0, buf.Length());
        assert content == buf by {
          if buf.Text? { assert buf.text[0..|buf.text|] == buf.text; }
          else { assert buf.bytes[0..|buf.bytes|] == buf.bytes; }
        }
        pos := buf.Length();
        var committed := callback.ResetData(content);
        if committed.Err? {
          return Err(committed.error);
        }
        callback := null;
      }
      closed := true;
      return Ok(());
    }
  }

  /** Which constructor made an in-memory source: data_source itself,
      text_data_source or bytes_data_source. */
  datatype Flavour = Generic | TextOnly | BytesOnly

  /** data_source: content held in memory, as text or as bytes. */
  class DataSource {
    var data: Payload
    const mutable: bool
    const flavour: Flavour

    ghost predicate Valid()
      reads this
    {
      (flavour == TextOnly ==> data.Text?) && (flavour == BytesOnly ==> data.Bytes?)
    }

    /** `data_source(data, mutable)`. */
    constructor (data: Payload, mutable: bool)
      ensures Valid() && this.data == data && this.mutable == mutable && flavour == Generic
    {
      this.data, this.mutable, flavour := data, mutable, Generic;
    }

    constructor Specialised(data: Payload, mutable: bool, flavour: Flavour)
      requires (flavour == TextOnly ==> data.Text?) && (flavour == BytesOnly ==> data.Bytes?)
      ensures Valid() && this.data == data && this.mutable == mutable && this.flavour == flavour
    {
      this.data, this.mutable, this.flavour := data, mutable, flavour;
    }

    /** `text_data_source(data, mutable)`: refuses anything but str. */
    static method NewText(data: Payload, mutable: bool) returns (r: Result<DataSource>)
      ensures r.Err? <==> !data.Text?
      ensures r.Err? ==> r.error == TypeError
      ensures r.Ok? ==> fresh(r.value) && r.value.Valid() && r.value.flavour == TextOnly
      ensures r.Ok? ==> r.value.data == data && r.value.mutable == mutable
    {
      if !data.Text? {
        return Err(TypeError);
      }
      var s := new DataSource.Specialised(data, mutable, TextOnly);
      return Ok(s);
    }

    /** `bytes_data_source(data, mutable)`: refuses anything but bytes. */
    static method NewBytes(data: Payload, mutable: bool) returns (r: Result<DataSource>)
      ensures r.Err? <==> !data.Bytes?
      ensures r.Err? ==> r.error == TypeError
      ensures r.Ok? ==> fresh(r.value) && r.value.Valid() && r.value.flavour == BytesOnly
      ensures r.Ok? ==> r.value.data == data && r.value.mutable == mutable
    {
      if !data.Bytes? {
        return Err(TypeError);
      }
      var s := new DataSource.Specialised(data, mutable, BytesOnly);
      return Ok(s);
    }

    /** `_convert_data(mode)`, with the overrides of text_data_source and
        bytes_data_source, which by their construction-time checks agree with
        the generic conversion. */
    function ConvertData(mode: Kind): (r: Result<Payload>)
      reads this
      requires Valid()
      ensures r == Convert(data, mode)
    {
      match flavour
      case Generic => Convert(data, mode)
      case TextOnly => if mode != BytesKind then Ok(data) else Ok(Bytes(Encode(data.text)))
      case BytesOnly => if mode == BytesKind then Ok(data) else Convert(data, TextKind)
    }

    /** `_reset_data(content)`: the callback of writable handles. The content is
        converted to the kind the source already stores and replaces `data`. */
    method ResetData(content: Payload) returns (r: Result<()>)
      modifies this
      ensures data.Kind() == old(data).Kind()
      ensures old(Valid()) ==> Valid()
      ensures r.Ok? <==> Convert(content, old(data).Kind()).Ok?
      ensures r.Ok? ==> data == Convert(content, old(data).Kind()).value
      ensures r.Err? ==> data == old(data) && r.error == UnicodeDecodeError
    {
      var converted := Convert(content, data.Kind());
      if converted.Err? {
        return Err(converted.error);
      }
      data := converted.value;
      return Ok(());
    }

    /** `text_fileobj(writable)` and `bytes_fileobj(writable)`, by the kind asked for. */
    method Fileobj(mode: Kind, writable: bool) returns (r: Result<Stream>)
      requires Valid()
      ensures writable && !mutable ==> r == Err(TypeError)
      ensures r.Err? <==> (writable && !mutable) || Convert(data, mode).Err?
      ensures r.Err? && !(writable && !mutable) ==> r.error == UnicodeDecodeError
      ensures r.Ok? ==> fresh(r.value) && r.value.Valid() && !r.value.closed && r.value.pos == 0
      ensures r.Ok? ==> r.value.kind == mode && r.value.buf == Convert(data, mode).value
      ensures r.Ok? ==> r.value.writable == writable
      ensures r.Ok? ==> r.value.callback == (if writable then this else null) && r.value.flushesOnClose == writable
      ensures r.Ok? ==> r.value.exceptions == if writable then {MemoryError} else {MemoryError, TypeError}
    {
      if writable && !mutable {
        return Err(TypeError);
      }
      var content := ConvertData(mode);
      if content.Err? {
        return Err(content.error);
      }
      if writable {
        r := Stream.NewCommitting(ResetDataOf(this), content.value);
      } else {
        var s := new Stream.ReadOnly(content.value);
        r := Ok(s);
      }
    }

    method TextFileobj(writable: bool) returns (r: Result<Stream>)
      requires Valid()
      ensures writable && !mutable ==> r == Err(TypeError)
      ensures r.Err? <==> (writable && !mutable) || Convert(data, TextKind).Err?
      ensures r.Err? && !(writable && !mutable) ==> r.error == UnicodeDecodeError
      ensures r.Ok? ==> fresh(r.value) && r.value.Valid() && !r.value.closed && r.value.pos == 0
      ensures r.Ok? ==> r.value.kind == TextKind && r.value.buf == Convert(data, TextKind).value
      ensures r.Ok? ==> r.value.writable == writable
      ensures r.Ok? ==> r.value.callback == (if writable then this else null) && r.value.flushesOnClose == writable
      ensures r.Ok? ==> r.value.exceptions == if writable then {MemoryError} else {MemoryError, TypeError}
    {
      r := Fileobj(TextKind, writable);
    }

    method BytesFileobj(writable: bool) returns (r: Result<Stream>)
      requires Valid()
      ensures writable && !mutable ==> r == Err(TypeError)
      ensures r.Err? <==> writable && !mutable
      ensures r.Ok? ==> fresh(r.value) && r.value.Valid() && !r.value.closed && r.value.pos == 0
      ensures r.Ok? ==> r.value.kind == BytesKind && r.value.buf == Convert(data, BytesKind).value
      ensures r.Ok? ==> r.value.writable == writable
      ensures r.Ok? ==> r.value.callback == (if writable then this else null) && r.value.flushesOnClose == writable
      ensures r.Ok? ==> r.value.exceptions == if writable then {MemoryError} else {MemoryError, TypeError}
    {
      r := Fileobj(BytesKind, writable);
    }
  }

  /** What local_source hands to `open_file`: path, mode and, for text, the
      encoding to force. */
  datatype OpenCall = OpenCall(path: string, mode: string, encoding: Option<string>)

  /** local_source: a file on disk. Only the mutability gate and the choice of
      open mode are modelled; opening the file is the caller's I/O. */
  datatype LocalSource = LocalSource(path: string, mutable: bool, encoding: Option<string>)
  {
    /** `text_fileobj(writable)`. An empty encoding string is falsy in Python
        and so means the platform default. */
    function TextFileobj(writable: bool): (r: Result<OpenCall>)
      ensures r.Err? <==> writable && !mutable
      ensures r.Err? ==> r.error == TypeError
      ensures r.Ok? ==> r.value.path == path && r.value.mode == (if writable then "r+" else "r")
      ensures r.Ok? ==> (r.value.encoding.Some? <==> encoding.Some? && encoding.value != "")
      ensures r.Ok? && r.value.encoding.Some? ==> r.value.encoding == encoding
    {
      if writable && !mutable then Err(TypeError)
      else
        var forced := if encoding.Some? && encoding.value != "" then encoding else None;
        Ok(OpenCall(path, if writable then "r+" else "r", forced))
    }

    /** `bytes_fileobj(writable)`: binary mode, never an encoding. */
    function BytesFileobj(writable: bool): (r: Result<OpenCall>)
      ensures r.Err? <==> writable && !mutable
      ensures r.Err? ==> r.error == TypeError
      ensures r.Ok? ==> r == Ok(OpenCall(path, if writable then "rb+" else "rb", None))
    {
      if writable then
        if !mutable then Err(TypeError) else Ok(OpenCall(path, "rb+", None))
      else Ok(OpenCall(path, "rb", None))
    }
  }

  /** The two handle requests of a local source refuse exactly the same
      requests, and open the file in the same mode up to the binary flag. */
  lemma LocalGatesAgree(src: LocalSource, writable: bool)
    ensures src.TextFileobj(writable).Err? <==> src.BytesFileobj(writable).Err?
    ensures src.TextFileobj(writable).Ok? ==>
      var t := src.TextFileobj(writable).value.mode;
      src.BytesFileobj(writable).value.mode == t[..1] + "b" + t[1..]
  {
  }

  /** `transfer_data(reader, writer, bufsize)`: copies what is left in the
      reader to the writer, chunk by chunk. A read returning nothing ends the
      loop, so a chunk size of 0 copies nothing. */
  method TransferData(reader: Stream, writer: Stream, bufsize: int) returns (r: Result<()>)
    requires reader != writer && reader.Valid() && writer.Valid()
    modifies reader`pos, writer`buf, writer`pos
    ensures reader.Valid() && writer.Valid() && reader.buf == old(reader.buf)
    ensures old(reader.closed) ==> r == Err(ValueError) && reader.pos == old(reader.pos)
    ensures old(reader.closed) || bufsize == 0 || old(reader.Remaining()).Length() == 0 ==>
      writer.buf == old(writer.buf) && writer.pos == old(writer.pos) && reader.pos == old(reader.pos)
    ensures !old(reader.closed) && (bufsize == 0 || old(reader.Remaining()).Length() == 0) ==> r == Ok(())
    ensures !old(reader.closed) && bufsize != 0 && old(reader.Remaining()).Length() > 0 ==>
      (r.Ok? <==> writer.writable && !writer.closed && writer.kind == reader.kind)
    ensures !old(reader.closed) && bufsize != 0 && old(reader.Remaining()).Length() > 0 && r.Ok? ==>
      reader.Remaining().Length() == 0 &&
      reader.pos == old(reader.pos) + old(reader.Remaining()).Length() &&
      writer.pos == old(writer.pos) + old(reader.Remaining()).Length() &&
      writer.buf == old(writer.buf).Overwrite(old(writer.pos), old(reader.Remaining()))
    ensures r.Err? ==> writer.buf == old(writer.buf) && writer.pos == old(writer.pos)
    ensures r.Err? && !old(reader.closed) ==> reader.pos == old(reader.ChunkEnd(bufsize))
  {
    ghost var s0, len, pos0 := reader.Start(), reader.buf.Length(), reader.pos;
    var chunk := reader.Read(bufsize);
    if chunk.Err? {
      return Err(chunk.error);
    }
    r := CopyChunks(reader, writer, bufsize, chunk.value, s0, pos0);
    if bufsize != 0 && len - s0 > 0 {
      assert old(reader.Remaining()) == reader.buf.Slice(s0, len);
    }
  }

  /** The `while data:` loop of `transfer_data`, entered with the first chunk
      `data`, which the reader has just returned from position `s0`. Writes
      either all succeed or the first one is refused, since nothing in the
      loop changes whether the writer accepts. */
  method CopyChunks(reader: Stream, writer: Stream, bufsize: int, data: Payload, ghost s0: nat, ghost pos0: nat)
    returns (r: Result<()>)
    requires reader != writer && reader.Valid() && writer.Valid() && !reader.closed
    requires s0 <= reader.Start() && data == reader.buf.Slice(s0, reader.Start())
    requires pos0 <= reader.buf.Length() ==> s0 == pos0 && reader.pos == reader.Start()
    requires pos0 > reader.buf.Length() ==> reader.pos == pos0 && s0 == reader.buf.Length()
    requires bufsize == 0 ==> data.Length() == 0
    requires bufsize != 0 && data.Length() == 0 ==> reader.Start() == reader.buf.Length()
    modifies reader`pos, writer`buf, writer`pos
    ensures reader.Valid() && writer.Valid() && reader.buf == old(reader.buf)
    ensures data.Length() == 0 ==>
      r == Ok(()) && writer.buf == old(writer.buf) && writer.pos == old(writer.pos) && reader.pos == old(reader.pos)
    ensures data.Length() > 0 ==> (r.Ok? <==> writer.writable && !writer.closed && writer.kind == reader.kind)
    ensures data.Length() > 0 && r.Ok? ==>
      reader.Start() == reader.buf.Length() &&
      reader.pos == (if pos0 <= reader.buf.Length() then reader.buf.Length() else pos0) &&
      writer.pos == old(writer.pos) + (reader.buf.Length() - s0) &&
      writer.buf == old(writer.buf).Overwrite(old(writer.pos), reader.buf.Slice(s0, reader.buf.Length()))
    ensures r.Err? ==> writer.buf == old(writer.buf) && writer.pos == old(writer.pos) && reader.pos == old(reader.pos)
  {
    ghost var src, len := reader.buf, reader.buf.Length();
    ghost var wbuf0, wpos0 := writer.buf, writer.pos;
    var cur := data;
    ghost var done, at := s0, reader.Start();
    ghost var first := true;
    while cur.Length() > 0
      invariant reader.Valid() && writer.Valid() && reader.buf == src && !reader.closed
      invariant at == reader.Start() && s0 <= done <= at <= len == src.Length()
      invariant cur == src.Slice(done, at)
      invariant bufsize == 0 || data.Length() == 0 ==> first
      invariant first ==> done == s0 && writer.buf == wbuf0 && writer.pos == wpos0 && reader.pos == old(reader.pos)
      invariant reader.pos == if pos0 <= len then at else pos0
      invariant !first ==> writer.writable && !writer.closed && writer.kind == reader.kind
      invariant !first ==> writer.pos == wpos0 + (done - s0)
      invariant !first ==> writer.buf == wbuf0.Overwrite(wpos0, src.Slice(s0, done))
      invariant bufsize != 0 && cur.Length() == 0 ==> at == len
      decreases len - done
    {
      var w := WriteChunk(writer, cur, wbuf0, wpos0, src, s0, done, at, first);
      if w.Err? {
        return Err(w.error);
      }
      first := false;
      done := at;
      var chunk := reader.Read(bufsize);
      cur := chunk.value;
      at := reader.Start();
    }
    if !first {
      assert done == len;
    }
    r := Ok(());
  }

  /** One `writer.write(data)` of the copy loop: when it succeeds, the writer
      holds its starting content overwritten with everything copied so far. */
  method WriteChunk(writer: Stream, cur: Payload, ghost wbuf0: Payload, ghost wpos0: nat, ghost src: Payload,
                    ghost s0: nat, ghost done: nat, ghost at: nat, ghost first: bool) returns (w: Result<nat>)
    requires writer.Valid() && s0 <= done <= at <= src.Length() && wbuf0.Kind() == writer.kind
    requires cur == src.Slice(done, at) && cur.Length() > 0
    requires first ==> done == s0 && writer.buf == wbuf0 && writer.pos == wpos0
    requires !first ==> writer.writable && !writer.closed && writer.kind == src.Kind()
    requires !first ==> writer.pos == wpos0 + (done - s0) && writer.buf == wbuf0.Overwrite(wpos0, src.Slice(s0, done))
    modifies writer`buf, writer`pos
    ensures writer.Valid()
    ensures w.Ok? <==> writer.writable && !writer.closed && writer.kind == src.Kind()
    ensures w.Err? ==> first && writer.buf == old(writer.buf) && writer.pos == old(writer.pos)
    ensures w.Ok? ==> writer.pos == wpos0 + (at - s0) && writer.buf == wbuf0.Overwrite(wpos0, src.Slice(s0, at))
  {
    if !first {
      OverwriteStep(wbuf0, wpos0, writer.buf, writer.pos, src, s0, done, at, cur);
    }
    w := writer.Write(cur);
    if first {
      assert w.Ok? ==> writer.buf == wbuf0.Overwrite(wpos0, src.Slice(s0, at));
    } else {
      assert w.Ok? && writer.buf == wbuf0.Overwrite(wpos0, src.Slice(s0, at));
    }
  }
}
