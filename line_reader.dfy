/**
 * The `reader` thread of the patched execute_command: it reads a pipe in
 * chunks, hands on every piece of text up to and including a "\r" or "\n",
 * and at end of file hands on what is left with `$/` appended.
 */
module LineReader {
  import opened RubyStrings

  /** `$/`, Ruby's input record separator. */
  const RecordSeparator := "\n"

  predicate IsSeparator(c: char) {
    c == '\r' || c == '\n'
  }

  predicate NoSeparator(s: string) {
    forall i | 0 <= i < |s| :: !IsSeparator(s[i])
  }

  /** A piece the reader hands on: exactly one separator, at its end. */
  predicate IsLine(p: string) {
    |p| > 0 && IsSeparator(p[|p| - 1]) && NoSeparator(p[..|p| - 1])
  }

  /**
   * String#partition(/[\r\n]/): the text before the first separator, that
   * separator, and the rest; the whole string and two empty ones when there
   * is no separator.
   */
  function Partition(s: string): (r: (string, string, string))
    ensures r.0 + r.1 + r.2 == s
    ensures NoSeparator(r.0)
    ensures r.1 == [] <==> NoSeparator(s)
    ensures r.1 == [] ==> r.0 == s && r.2 == []
    ensures r.1 != [] ==> |r.1| == 1 && IsSeparator(r.1[0])
  {
    if s == [] then ([], [], [])
    else if IsSeparator(s[0]) then ([], [s[0]], s[1..])
    else
      var (before, sep, after) := Partition(s[1..]);
      assert NoSeparator(s[1..]) ==> NoSeparator(s) by {
        if NoSeparator(s[1..]) {
          forall i | 0 <= i < |s| ensures !IsSeparator(s[i]) {
            if i > 0 { assert s[i] == s[1..][i - 1]; }
          }
        }
      }
      assert !NoSeparator(s[1..]) ==> !NoSeparator(s) by {
        if !NoSeparator(s[1..]) {
          var i :| 0 <= i < |s[1..]| && IsSeparator(s[1..][i]);
          assert IsSeparator(s[i + 1]);
        }
      }
      ([s[0]] + before, sep, after)
  }

  /**
   * What the reader hands on for a stream whose whole contents are `text`,
   * however the stream is cut into chunks (Reader below proves the
   * latter).
   */
  function Lines(text: string): (r: seq<string>)
    decreases |text|
  {
    var (before, sep, after) := Partition(text);
    if sep == [] then
      if before == [] then [] else [before + RecordSeparator]
    else
      [before + sep] + Lines(after)
  }

  /** The text after the last separator: what is still buffered at end of file. */
  function Remainder(text: string): (r: string)
    ensures NoSeparator(r)
    ensures |r| <= |text| && r == text[|text| - |r|..]
    ensures |r| == |text| || IsSeparator(text[|text| - |r| - 1])
    decreases |text|
  {
    var (before, sep, after) := Partition(text);
    if sep == [] then before
    else
      var r := Remainder(after);
      assert text[|text| - |r| - 1] == (sep + after)[|after| - |r|];
      r
  }

  /** Nothing is left over exactly when the text is empty or ends in a separator. */
  lemma RemainderEmpty(text: string)
    ensures Remainder(text) == [] <==> text == [] || IsSeparator(text[|text| - 1])
  {
  }

  /**
   * The joined pieces of a stream (`stdout.join` in execute_command): its
   * text, with `$/` added when it does not end in a separator.
   */
  function Collected(text: string): (r: string)
    ensures r == Concat(Lines(text))
    ensures text <= r && |r| <= |text| + 1
    ensures r == text <==> text == [] || IsSeparator(text[|text| - 1])
    ensures r != text ==> r == text + RecordSeparator
  {
    RemainderEmpty(text);
    LinesConcat(text);
    text + (if Remainder(text) == [] then [] else RecordSeparator)
  }

  /** Every piece the reader hands on holds exactly one separator, at its end. */
  lemma {:induction false} LinesShape(text: string)
    ensures forall p | p in Lines(text) :: IsLine(p)
    decreases |text|
  {
    var (before, sep, after) := Partition(text);
    if sep == [] {
      if before != [] {
        var p := before + RecordSeparator;
        assert p[..|p| - 1] == before;
      }
    } else {
      var p := before + sep;
      assert p[..|p| - 1] == before;
      LinesShape(after);
    }
  }

  /**
   * Round trip: the pieces handed on, put together, are the stream's text,
   * followed by `$/` exactly when text remains after the last separator.
   */
  lemma {:induction false} LinesConcat(text: string)
    ensures Concat(Lines(text)) == text + (if Remainder(text) == [] then [] else RecordSeparator)
    decreases |text|
  {
    var (before, sep, after) := Partition(text);
    if sep != [] {
      LinesConcat(after);
      assert Lines(text)[1..] == Lines(after);
    }
  }

  /** Text appended after a separator does not change what comes before it. */
  lemma {:induction false} PartitionAppend(s: string, t: string)
    requires !NoSeparator(s)
    ensures Partition(s + t) == (Partition(s).0, Partition(s).1, Partition(s).2 + t)
    decreases |s|
  {
    if !IsSeparator(s[0]) {
      assert (s + t)[1..] == s[1..] + t;
      assert !NoSeparator(s[1..]) by {
        var i :| 0 <= i < |s| && IsSeparator(s[i]);
        assert i > 0 && s[1..][i - 1] == s[i];
      }
      PartitionAppend(s[1..], t);
    } else {
      assert (s + t)[1..] == s[1..] + t;
    }
  }

  /** Handing on the first line of the buffer leaves the rest of the stream's pieces unchanged. */
  lemma LinesStep(buf: string, rest: string)
    requires !NoSeparator(buf)
    ensures Lines(buf + rest) == [Partition(buf).0 + Partition(buf).1] + Lines(Partition(buf).2 + rest)
  {
    PartitionAppend(buf, rest);
  }

  /** Concat over a suffix of the chunks peels off its first chunk. */
  lemma ConcatFrom(chunks: seq<string>, n: nat)
    requires n < |chunks|
    ensures Concat(chunks[n..]) == chunks[n] + Concat(chunks[n + 1..])
  {
    assert chunks[n..][1..] == chunks[n + 1..];
  }

  /**
   * The reader's inner loop: hand on every complete line of `buf` and keep
   * what follows the last separator. `rest`, the text still to be read, is
   * there only to state that the stream's pieces are unchanged.
   */
  method HandOnLines(buf: string, ghost rest: string) returns (lines: seq<string>, left: string)
    ensures NoSeparator(left)
    ensures lines + Lines(left + rest) == Lines(buf + rest)
  {
    lines, left := [], buf;
    while true
      invariant lines + Lines(left + rest) == Lines(buf + rest)
      decreases |left|
    {
      var (line, separator, after) := Partition(left);
      if separator == [] {
        left := line;
        break;
      }
      LinesStep(left, rest);
      lines := lines + [line + separator];
      left := after;
    }
  }

  /**
   * The reader over the chunks `readpartial` returns: the inner loop hands
   * on each complete line of the buffer; at end of file the remainder, if
   * any, goes out with `$/`.
   */
  method Reader(chunks: seq<string>) returns (output: seq<string>)
    ensures output == Lines(Concat(chunks))
  {
    var buf := "";
    output := [];
    var n := 0;
    assert buf + Concat(chunks[n..]) == Concat(chunks) by {
      assert chunks[n..] == chunks;
    }
    while n < |chunks|
      invariant n <= |chunks|
      invariant NoSeparator(buf)
      invariant output + Lines(buf + Concat(chunks[n..])) == Lines(Concat(chunks))
    {
      ConcatFrom(chunks, n);
      ghost var rest := Concat(chunks[n + 1..]);
      var lines, left := HandOnLines(buf + chunks[n], rest);
      ReaderStep(output, buf, chunks[n], rest, lines, left, Lines(Concat(chunks)));
      output, buf, n := output + lines, left, n + 1;
    }
    assert buf + Concat(chunks[n..]) == buf by {
      assert chunks[n..] == [];
    }
    if buf != [] {
      output := output + [buf + RecordSeparator];
    }
  }

  /** One iteration of the reader's outer loop keeps its invariant. */
  lemma ReaderStep(output: seq<string>, buf: string, chunk: string, rest: string,
                   lines: seq<string>, left: string, total: seq<string>)
    requires output + Lines(buf + (chunk + rest)) == total
    requires lines + Lines(left + rest) == Lines((buf + chunk) + rest)
    ensures (output + lines) + Lines(left + rest) == total
  {
    AppendAssociative(buf, chunk, rest);
    AppendAssociative(output, lines, Lines(left + rest));
  }

  lemma AppendAssociative<T>(a: seq<T>, b: seq<T>, c: seq<T>)
    ensures (a + b) + c == a + (b + c)
  {
  }
}
