/** The line splitter of src/transport/tap.ts: however a stream is cut into chunks, its listener hears
    the same lines. */
module LineSplitter {
  import opened Basics
  import opened TextLines

  /** A streaming decoder: what each byte adds to the text, given what is still pending. */
  datatype Decoder<!S> = Decoder(start: S, step: (S, byte) -> (S, string))

  /** The state and the text after some more bytes. */
  function Decode<S>(d: Decoder<S>, s: S, bytes: Bytes): (S, string)
    decreases |bytes|
  {
    if |bytes| == 0 then (s, "")
    else
      var (s1, text) := d.step(s, bytes[0]);
      var (s2, rest) := Decode(d, s1, bytes[1..]);
      (s2, text + rest)
  }

  lemma {:induction false} DecodeAppend<S>(d: Decoder<S>, s: S, a: Bytes, b: Bytes)
    ensures var (s1, text) := Decode(d, s, a);
      var (s2, rest) := Decode(d, s1, b);
      Decode(d, s, a + b) == (s2, text + rest)
    decreases |a|
  {
    if |a| == 0 {
      assert a + b == b;
      assert "" + Decode(d, s, b).1 == Decode(d, s, b).1;
    } else {
      TakeDrop(a, b);
      var (s1, text) := d.step(s, a[0]);
      DecodeAppend(d, s1, a[1..], b);
      Nest(text, Decode(d, s1, a[1..]).1, Decode(d, Decode(d, s1, a[1..]).0, b).1);
    }
  }

  /** The lines a listener hears of some pieces: trimmed, and none of them blank. */
  function Heard(pieces: seq<string>): seq<string> {
    if |pieces| == 0 then []
    else (if |Trim(pieces[0])| > 0 then [Trim(pieces[0])] else []) + Heard(pieces[1..])
  }

  lemma {:induction false} HeardAppend(a: seq<string>, b: seq<string>)
    ensures Heard(a + b) == Heard(a) + Heard(b)
  {
    hide Trim;
    if |a| == 0 {
      assert a + b == b;
    } else {
      TakeDrop(a, b);
      HeardAppend(a[1..], b);
      Nest(if |Trim(a[0])| > 0 then [Trim(a[0])] else [], Heard(a[1..]), Heard(b));
    }
  }

  /** Of one piece: nothing if it is blank, and otherwise what trimming leaves of it. */
  lemma HeardOne(piece: string)
    ensures Heard([piece]) == if |Trim(piece)| > 0 then [Trim(piece)] else []
    ensures Heard([piece]) == if Blank(piece) then [] else [Trim(piece)]
  {
    TrimEmptyIffBlank(piece);
  }

  function Concat(chunks: seq<Bytes>): Bytes {
    if |chunks| == 0 then [] else chunks[0] + Concat(chunks[1..])
  }

  /** `s.indexOf("\n")`. */
  function IndexOfNewline(s: string): (n: int)
    ensures -1 <= n < |s|
    ensures n == -1 ==> '\n' !in s
    ensures n >= 0 ==> s[n] == '\n' && '\n' !in s[..n]
  {
    if s == "" then -1
    else if s[0] == '\n' then 0
    else
      var n := IndexOfNewline(s[1..]);
      if n == -1 then -1
      else
        assert s[..n + 1] == [s[0]] + s[1..][..n];
        n + 1
  }

  /** What is buffered, and what the listener has heard, of the text so far. */
  ghost predicate Keeps(text: string, buffered: string, heard: seq<string>) {
    buffered == Tail(text) && heard == Heard(Whole(text))
  }

  class Splitter<S> {
    const decoder: Decoder<S>
    var pending: S
    var buffered: string
    var heard: seq<string>

    constructor (decoder: Decoder<S>)
      ensures this.decoder == decoder && pending == decoder.start && buffered == "" && heard == []
    {
      this.decoder := decoder;
      pending, buffered, heard := decoder.start, "", [];
    }

    method OnLine(line: string)
      modifies `heard
      ensures heard == old(heard) + [line]
    {
      heard := heard + [line];
    }

    method DecodeChunk(chunk: Bytes) returns (text: string)
      modifies `pending
      ensures (pending, text) == Decode(decoder, old(pending), chunk)
    {
      text := "";
      assert chunk[..|chunk|] == chunk;
      for i := 0 to |chunk|
        invariant (pending, text) == Decode(decoder, old(pending), chunk[..i])
      {
        ghost var before := pending;
        var (next, piece) := decoder.step(pending, chunk[i]);
        DecodeAppend(decoder, old(pending), chunk[..i], [chunk[i]]);
        assert chunk[..i] + [chunk[i]] == chunk[..i + 1];
        assert [chunk[i]][1..] == [];
        assert piece + "" == piece;
        pending := next;
        text := text + piece;
      }
    }

    /** `past` is the text of the chunks before this one. */
    method Push(chunk: Bytes, ghost past: string)
      requires Keeps(past, buffered, heard)
      modifies this
      ensures pending == Decode(decoder, old(pending), chunk).0
      ensures Keeps(past + Decode(decoder, old(pending), chunk).1, buffered, heard)
    {
      hide Heard, Split, Trim, Tail, Whole, IndexOfNewline;
      var text := DecodeChunk(chunk);
      ghost var all := past + text;
      MoreText(past, text);
      buffered := buffered + text;
      var cut := IndexOfNewline(buffered);
      while cut >= 0
        invariant cut == IndexOfNewline(buffered) && (pending, text) == Decode(decoder, old(pending), chunk)
        invariant Tail(all) == Tail(buffered) && Heard(Whole(all)) == heard + Heard(Whole(buffered))
        decreases |buffered|
      {
        var line := Trim(buffered[..cut]);
        CutLine(buffered, cut);
        ghost var rest := Heard(Whole(buffered[cut + 1..]));
        buffered := buffered[cut + 1..];
        if |line| > 0 {
          OnLine(line);
        }
        assert |line| == 0 ==> heard + [] == heard;
        cut := IndexOfNewline(buffered);
      }
      NothingToCut(buffered);
      assert heard + [] == heard;
    }

    /** The end of the stream. Bytes still pending in the decoder are not flushed. */
    method Flush(ghost past: string)
      requires Keeps(past, buffered, heard)
      modifies this
      ensures buffered == "" && pending == old(pending) && heard == Heard(Split(past))
    {
      var line := Trim(buffered);
      assert Split(past) == Whole(past) + [buffered];
      HeardAppend(Whole(past), [buffered]);
      buffered := "";
      if |line| > 0 {
        OnLine(line);
      }
    }
  }

  lemma MoreText(past: string, text: string)
    ensures Tail(past + text) == Tail(Tail(past) + text)
    ensures Heard(Whole(past + text)) == Heard(Whole(past)) + Heard(Whole(Tail(past) + text))
  {
    var buffered := Tail(past) + text;
    SplitContinues(past, text);
    hide Heard, Trim;
    assert Whole(past + text) == Whole(past) + Whole(buffered);
    HeardAppend(Whole(past), Whole(buffered));
  }

  /** A line taken off the front of the buffer. */
  lemma CutLine(buffered: string, cut: nat)
    requires cut < |buffered| && buffered[cut] == '\n' && '\n' !in buffered[..cut]
    ensures Tail(buffered) == Tail(buffered[cut + 1..])
    ensures var line := Trim(buffered[..cut]);
      Heard(Whole(buffered)) == (if |line| > 0 then [line] else []) + Heard(Whole(buffered[cut + 1..]))
  {
    var a, b := buffered[..cut], buffered[cut + 1..];
    assert buffered == a + "\n" + b;
    SplitAtNewline(a, b);
    SplitLine(a);
    assert Whole(buffered) == [a] + Whole(b);
    HeardAppend([a], Whole(b));
    HeardOne(a);
  }

  lemma NothingToCut(buffered: string)
    requires '\n' !in buffered
    ensures Tail(buffered) == buffered && Heard(Whole(buffered)) == []
  {
    SplitLine(buffered);
  }

  /** Chunking independence: pushing a stream chunk by chunk and flushing emits exactly the lines of
      the whole decoded text, split on newlines, trimmed, without the blank ones. */
  method SplitStream<S>(decoder: Decoder<S>, chunks: seq<Bytes>) returns (lines: seq<string>)
    ensures lines == Heard(Split(Decode(decoder, decoder.start, Concat(chunks)).1))
  {
    var splitter := new Splitter(decoder);
    ghost var past := "";
    ghost var fed: Bytes := [];
    NothingToCut("");
    assert chunks[0..] == chunks && [] + Concat(chunks) == Concat(chunks);
    for i := 0 to |chunks|
      invariant fresh(splitter) && splitter.decoder == decoder
      invariant Keeps(past, splitter.buffered, splitter.heard)
      invariant Decode(decoder, decoder.start, fed) == (splitter.pending, past)
      invariant fed + Concat(chunks[i..]) == Concat(chunks)
    {
      DecodeAppend(decoder, decoder.start, fed, chunks[i]);
      assert chunks[i..][0] == chunks[i] && chunks[i..][1..] == chunks[i + 1..];
      Nest(fed, chunks[i], Concat(chunks[i + 1..]));
      ghost var text := Decode(decoder, splitter.pending, chunks[i]).1;
      splitter.Push(chunks[i], past);
      past := past + text;
      fed := fed + chunks[i];
    }
    assert fed + [] == fed;
    splitter.Flush(past);
    lines := splitter.heard;
  }
}
