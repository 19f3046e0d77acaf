/** The scenarios of snakeoil/test/test_data_source.py, restated as verified
    methods over the model. */
module DataSourceScenarios {
  import opened Common
  import opened Utf8
  import opened DataSource

  /** Writing over the start of a buffer replaces exactly that prefix. */
  lemma OverwritePrefix<T>(x: seq<T>, y: seq<T>, z: seq<T>, fill: T)
    requires |x| == |z|
    ensures OverwriteSeq(x + y, 0, z, fill) == z + y
  {
    var r := OverwriteSeq(x + y, 0, z, fill);
    OverwriteSeqAt(x + y, 0, z, fill);
    assert |r| == |z + y|;
    forall i | 0 <= i < |r| ensures r[i] == (z + y)[i] {
    }
  }

  lemma {:induction false} EncodeConcat(a: string, b: string)
    ensures Encode(a + b) == Encode(a) + Encode(b)
  {
    if a == [] {
      assert a + b == b;
    } else {
      assert (a + b)[0] == a[0] && (a + b)[1..] == a[1..] + b;
      EncodeConcat(a[1..], b);
    }
  }

  /** ASCII text encodes one byte per character. */
  lemma {:induction false} EncodeAsciiLength(s: string)
    requires forall i :: 0 <= i < |s| ==> s[i] as int < 0x80
    ensures |Encode(s)| == |s|
  {
    if s != [] {
      EncodeAsciiLength(s[1..]);
    }
  }

  lemma DarOverFoonaniBytes()
    ensures OverwriteSeq(Encode("foonani"), 0, Encode("dar"), 0) == Encode("darnani")
  {
    EncodeConcat("foo", "nani");
    EncodeConcat("dar", "nani");
    assert "foo" + "nani" == "foonani" && "dar" + "nani" == "darnani";
    EncodeAsciiLength("foo");
    EncodeAsciiLength("dar");
    OverwritePrefix(Encode("foo"), Encode("nani"), Encode("dar"), 0);
  }

  /** `_test_fileobj("text_fileobj")`: an immutable source refuses a writable
      handle, its read-only handle gives the content and refuses writes with
      an exception it declares; on a mutable source, writing "dar" and closing
      commits "darnani", and a second close changes nothing. */
  method TextHandles() returns (writableRefused: bool, readBack: Payload, writeRefused: bool,
                                 committed: Payload, afterSecondClose: Payload)
    ensures writableRefused && writeRefused
    ensures readBack == Text("foonani")
    ensures committed == Text("darnani") && afterSecondClose == committed
  {
    var frozen := new DataSource(Text("foonani"), false);
    var refused := frozen.TextFileobj(true);
    assert refused == Err(TypeError);
    writableRefused := refused == Err(TypeError);
    var ro := frozen.TextFileobj(false);
    var h := ro.value;
    var got := h.Read(-1);
    assert h.buf.text[0..7] == "foonani";
    readBack := got.value;
    var w := h.Write(Text("monkey"));
    assert w.Err? && w.error in h.exceptions;
    writeRefused := w.Err? && w.error in h.exceptions;

    var src := new DataSource(Text("foonani"), true);
    var requested := src.TextFileobj(true);
    var f := requested.value;
    var _ := f.Write(Text("dar"));
    OverwritePrefix("foo", "nani", "dar", '\0');
    assert f.buf == Text("darnani");
    var c := f.Close();
    assert c.Ok?;
    committed := src.data;
    var again := f.Close();
    assert again == Err(ValueError);
    afterSecondClose := src.data;
  }

  /** `_test_fileobj("bytes_fileobj")` on a source that stores text: the
      handle holds the encoded content, and the commit decodes what was
      written so that the source still stores text. */
  method BytesHandleOnTextSource() returns (readBack: Payload, committed: Payload)
    ensures readBack == Bytes(Encode("foonani"))
    ensures committed == Text("darnani")
  {
    var src := new DataSource(Text("foonani"), true);
    readBack := ReadBytesOfText(src);
    committed := CommitBytesOntoText(src);
  }

  /** The read-only bytes handle of a source storing "foonani" reads back its
      encoding. */
  method ReadBytesOfText(src: DataSource) returns (readBack: Payload)
    requires src.Valid() && src.data == Text("foonani")
    ensures readBack == Bytes(Encode("foonani"))
  {
    var ro := src.BytesFileobj(false);
    var got := ro.value.Read(-1);
    assert ro.value.buf.bytes[0..|ro.value.buf.bytes|] == ro.value.buf.bytes;
    readBack := got.value;
  }

  /** Writing the bytes of "dar" through the writable bytes handle of a
      mutable source storing "foonani", then closing it, stores "darnani". */
  method CommitBytesOntoText(src: DataSource) returns (committed: Payload)
    requires src.Valid() && src.data == Text("foonani") && src.mutable
    modifies src
    ensures committed == Text("darnani")
  {
    var requested := src.BytesFileobj(true);
    var f := requested.value;
    WriteDar(f);
    DecodeEncode("darnani");
    assert Convert(f.buf, TextKind) == Ok(Text("darnani"));
    var c := f.Close();
    committed := src.data;
  }

  /** `f.write(b"dar")` on a fresh bytes handle holding the encoding of
      "foonani". */
  method WriteDar(f: Stream)
    requires f.Valid() && f.buf == Bytes(Encode("foonani")) && f.pos == 0 && f.writable && !f.closed
    modifies f`buf, f`pos
    ensures f.Valid() && f.buf == Bytes(Encode("darnani"))
  {
    var _ := f.Write(Bytes(Encode("dar")));
    DarOverFoonaniBytes();
  }

  /** A read-only handle closes quietly a second time: only the committing
      handle's `close` starts with `flush()`, which raises on a closed stream. */
  method ReadOnlyCloseTwice() returns (first: Result<()>, second: Result<()>)
    ensures first == Ok(()) && second == Ok(())
  {
    var h := new Stream.ReadOnly(Text("foonani"));
    first := h.Close();
    assert h.closed && !h.flushesOnClose;
    second := h.Close();
    assert first.Ok? && first.value == ();
  }

  /** Writing a text at offset 5 of itself keeps its first five characters
      and places the whole text after them. */
  lemma OverwriteAtFive(d: string)
    requires |d| >= 5
    ensures |OverwriteSeq(d, 5, d, '\0')| == |d| + 5
    ensures OverwriteSeq(d, 5, d, '\0')[..5] == d[..5] && OverwriteSeq(d, 5, d, '\0')[5..] == d
  {
    var out := OverwriteSeq(d, 5, d, '\0');
    OverwriteSeqAt(d, 5, d, '\0');
    assert forall i :: 0 <= i < 5 ==> out[i] == d[i];
    assert forall i :: 5 <= i < |out| ==> out[i] == d[i - 5];
  }

  /** `Test_transfer_data.test_it`: a whole transfer onto a copy of the same
      text, then a second transfer from the start of the reader to offset 5 of
      the writer; the writer then holds the first five characters followed by
      the whole text. */
  method TransferTwice(d: string) returns (out: string)
    requires |d| >= 5
    ensures |out| == |d| + 5
    ensures out[..5] == d[..5] && out[5..] == d
  {
    var reader := new Stream.ReadOnly(Text(d));
    var writer := new Stream.Writable(Text(d));
    assert reader.Remaining() == Text(d) by { assert d[0..|d|] == d; }
    var r1 := TransferData(reader, writer, 65536);
    assert r1.Ok? && writer.buf == Text(d).Overwrite(0, Text(d));
    OverwritePrefix(d, [], d, '\0');
    assert d + [] == d;
    assert writer.buf == Text(d);
    var _ := writer.Seek(5);
    var _ := reader.Seek(0);
    assert reader.Remaining() == Text(d) by { assert d[0..|d|] == d; }
    var r2 := TransferData(reader, writer, 65536);
    assert r2.Ok? && writer.buf == Text(d).Overwrite(5, Text(d));
    out := writer.buf.text;
    OverwriteAtFive(d);
  }
}
