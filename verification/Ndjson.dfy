/** The browser client's NDJSON reader: text arrives in chunks, values leave line by
    line.  Trimming and parsing of one line are the environment's. */
module Ndjson {
  import opened Options

  /** A parser of trimmed, non-blank lines; `None` is a line that throws. */
  type Parser<T> = string -> Option<T>

  /** Emitted values, and the line that failed, if any. */
  datatype Decoded<T> = Decoded(values: seq<T>, failed: Option<string>)

  /** White space is what `blank` says; trimming removes it at both ends. */
  function TrimStart(text: string, blank: char -> bool): (t: string)
    ensures |t| <= |text|
  {
    if text != [] && blank(text[0]) then TrimStart(text[1..], blank) else text
  }

  function TrimEnd(text: string, blank: char -> bool): (t: string)
    ensures |t| <= |text|
  {
    if text != [] && blank(text[|text| - 1]) then TrimEnd(text[..|text| - 1], blank) else text
  }

  function Trim(text: string, blank: char -> bool): string {
    TrimEnd(TrimStart(text, blank), blank)
  }

  /** The slice from `i` to `j` is what is left when the white space around it goes. */
  predicate IsTrimmed(text: string, blank: char -> bool, i: nat, j: nat) {
    && i <= j <= |text|
    && (forall k :: 0 <= k < i ==> blank(text[k]))
    && (forall k :: j <= k < |text| ==> blank(text[k]))
    && (i < j ==> !blank(text[i]) && !blank(text[j - 1]))
  }

  lemma {:induction false} TrimStartIsSlice(text: string, blank: char -> bool) returns (i: nat)
    ensures i <= |text| && TrimStart(text, blank) == text[i..]
    ensures (forall k :: 0 <= k < i ==> blank(text[k])) && (i < |text| ==> !blank(text[i]))
  {
    i := 0;
    if text != [] && blank(text[0]) {
      var rest := TrimStartIsSlice(text[1..], blank);
      i := rest + 1;
      forall k | 0 <= k < i ensures blank(text[k]) {
        if k > 0 {
          assert text[k] == text[1..][k - 1];
        }
      }
    }
  }

  lemma {:induction false} TrimEndIsSlice(text: string, blank: char -> bool) returns (j: nat)
    ensures j <= |text| && TrimEnd(text, blank) == text[..j]
    ensures (forall k :: j <= k < |text| ==> blank(text[k])) && (j > 0 ==> !blank(text[j - 1]))
  {
    j := |text|;
    if text != [] && blank(text[|text| - 1]) {
      j := TrimEndIsSlice(text[..|text| - 1], blank);
    }
  }

  /** Trimming keeps everything from the first to the last character that is not
      white space. */
  lemma TrimIsSlice(text: string, blank: char -> bool) returns (i: nat, j: nat)
    ensures IsTrimmed(text, blank, i, j) && Trim(text, blank) == text[i..j]
  {
    i := TrimStartIsSlice(text, blank);
    var n := TrimEndIsSlice(text[i..], blank);
    j := i + n;
    forall k | j <= k < |text| ensures blank(text[k]) {
      assert text[k] == text[i..][k - i];
    }
  }

  /** And there is only one such slice. */
  lemma TrimIsTheSlice(text: string, blank: char -> bool, i: nat, j: nat)
    requires IsTrimmed(text, blank, i, j)
    ensures Trim(text, blank) == text[i..j]
  {
    var k, m := TrimIsSlice(text, blank);
    if i < j {
      assert k == i && m == j;
    } else {
      assert k == m by {
        if k < m {
          assert false;
        }
      }
    }
  }

  /** The lines of a text, the last one without its newline. */
  function Lines(text: string): (lines: seq<string>)
    ensures lines != []
  {
    if text == [] then [[]]
    else
      var rest := Lines(text[1..]);
      if text[0] == '\n' then [[]] + rest else [[text[0]] + rest[0]] + rest[1..]
  }

  /** The lines with a newline between any two. */
  function WithNewlines(lines: seq<string>): string
    requires lines != []
  {
    if |lines| == 1 then lines[0] else lines[0] + ['\n'] + WithNewlines(lines[1..])
  }

  /** A text is its lines with newlines between them, and no line holds one. */
  lemma {:induction false} LinesMakeText(text: string)
    ensures WithNewlines(Lines(text)) == text
    ensures forall line :: line in Lines(text) ==> '\n' !in line
  {
    if text != [] {
      var rest := Lines(text[1..]);
      LinesMakeText(text[1..]);
      assert text == [text[0]] + text[1..];
      if text[0] == '\n' {
        assert ([[]] + rest)[1..] == rest;
      } else {
        var lines := [[text[0]] + rest[0]] + rest[1..];
        assert lines[1..] == rest[1..];
        forall line | line in lines ensures '\n' !in line {
          if line != lines[0] {
            assert line in rest;
          } else {
            assert rest[0] in rest;
          }
        }
      }
    }
  }

  /** Each non-blank line is trimmed and parsed, up to the first that fails. */
  function DecodeLines<T>(lines: seq<string>, blank: char -> bool, parse: Parser<T>): Decoded<T> {
    if lines == [] then Decoded([], None)
    else
      var line := Trim(lines[0], blank);
      if line == [] then DecodeLines(lines[1..], blank, parse)
      else
        match parse(line)
        case None => Decoded([], Some(line))
        case Some(value) =>
          var rest := DecodeLines(lines[1..], blank, parse);
          rest.(values := [value] + rest.values)
  }

  /** The reference: split the whole text, then decode its lines. */
  function DecodeText<T>(text: string, blank: char -> bool, parse: Parser<T>): Decoded<T> {
    DecodeLines(Lines(text), blank, parse)
  }

  function Joined(chunks: seq<string>): string {
    if chunks == [] then [] else chunks[0] + Joined(chunks[1..])
  }

  method IndexOfNewline(text: string) returns (index: int)
    ensures index == -1 ==> '\n' !in text
    ensures index != -1 ==> 0 <= index < |text| && text[index] == '\n' && '\n' !in text[..index]
  {
    index := 0;
    while index < |text|
      invariant 0 <= index <= |text| && '\n' !in text[..index]
    {
      if text[index] == '\n' {
        return;
      }
      index := index + 1;
    }
    index := -1;
  }

  lemma {:induction false} LinesOfOneLine(text: string)
    requires '\n' !in text
    ensures Lines(text) == [text]
  {
    if text != [] {
      LinesOfOneLine(text[1..]);
      assert [text[0]] + text[1..] == text;
    }
  }

  lemma {:induction false} LinesAtNewline(line: string, rest: string)
    requires '\n' !in line
    ensures Lines(line + ['\n'] + rest) == [line] + Lines(rest)
  {
    var text := line + ['\n'] + rest;
    if line == [] {
      assert text[1..] == rest;
    } else {
      LinesAtNewline(line[1..], rest);
      assert text[1..] == line[1..] + ['\n'] + rest;
      assert [line[0]] + line[1..] == line;
    }
  }

  /** What is left to decode, given what has been emitted. */
  function Resumed<T>(values: seq<T>, rest: Decoded<T>): Decoded<T> {
    rest.(values := values + rest.values)
  }

  lemma ResumedTwice<T>(values: seq<T>, more: seq<T>, rest: Decoded<T>)
    ensures Resumed(values, Resumed(more, rest)) == Resumed(values + more, rest)
  {
    assert values + (more + rest.values) == (values + more) + rest.values;
  }

  /** Lines are decoded one after another until one fails: a blank line gives nothing,
      any other its value, after those of the lines before it. */
  lemma {:induction false} DecodedInOrder<T>(before: seq<string>, line: string, rest: seq<string>,
                                             blank: char -> bool, parse: Parser<T>)
    ensures var earlier := DecodeLines(before, blank, parse);
            var trimmed := Trim(line, blank);
            DecodeLines(before + [line] + rest, blank, parse) ==
              if earlier.failed.Some? then earlier
              else if trimmed == [] then Resumed(earlier.values, DecodeLines(rest, blank, parse))
              else if parse(trimmed).None? then Decoded(earlier.values, Some(trimmed))
              else Resumed(earlier.values + [parse(trimmed).value], DecodeLines(rest, blank, parse))
  {
    var lines := before + [line] + rest;
    if before == [] {
      assert lines[1..] == rest;
      var later := DecodeLines(rest, blank, parse);
      assert [] + later.values == later.values;
    } else {
      assert lines[1..] == before[1..] + [line] + rest;
      DecodedInOrder(before[1..], line, rest, blank, parse);
      var first := Trim(before[0], blank);
      if first != [] && parse(first).Some? {
        OneValueFirst(parse(first).value, DecodeLines(before[1..], blank, parse).values, line, rest, blank, parse);
      }
    }
  }

  lemma OneValueFirst<T>(value: T, values: seq<T>, line: string, rest: seq<string>, blank: char -> bool, parse: Parser<T>)
    ensures var later := DecodeLines(rest, blank, parse);
            [value] + (values + later.values) == ([value] + values) + later.values
    ensures forall next: T :: ([value] + (values + [next])) == ([value] + values) + [next]
    ensures forall next: T :: var later := DecodeLines(rest, blank, parse);
              [value] + ((values + [next]) + later.values) == (([value] + values) + [next]) + later.values
  {
  }

  lemma DecodeFirstLine<T>(line: string, rest: string, blank: char -> bool, parse: Parser<T>)
    requires '\n' !in line
    ensures var trimmed := Trim(line, blank);
            var text := line + ['\n'] + rest;
            DecodeText(text, blank, parse) ==
              if trimmed == [] then DecodeText(rest, blank, parse)
              else if parse(trimmed).None? then Decoded([], Some(trimmed))
              else Resumed([parse(trimmed).value], DecodeText(rest, blank, parse))
  {
    LinesAtNewline(line, rest);
    assert ([line] + Lines(rest))[1..] == Lines(rest);
  }

  /** Taking the line that ends at `n` out of the buffer. */
  lemma ResumeAtLine<T>(buffer: string, n: nat, rest: string, values: seq<T>, blank: char -> bool, parse: Parser<T>)
    requires n < |buffer| && buffer[n] == '\n' && '\n' !in buffer[..n]
    ensures var line := Trim(buffer[..n], blank);
            var later := DecodeText(buffer[n + 1..] + rest, blank, parse);
            Resumed(values, DecodeText(buffer + rest, blank, parse)) ==
              if line == [] then Resumed(values, later)
              else if parse(line).None? then Decoded(values, Some(line))
              else Resumed(values + [parse(line).value], later)
  {
    var line := Trim(buffer[..n], blank);
    var left := buffer[n + 1..] + rest;
    DecodeFirstLine(buffer[..n], left, blank, parse);
    assert buffer + rest == buffer[..n] + ['\n'] + left;
    if line != [] && parse(line).Some? {
      ResumedTwice(values, [parse(line).value], DecodeText(left, blank, parse));
    } else {
      assert values + [] == values;
    }
  }

  lemma DecodeLastLine<T>(line: string, blank: char -> bool, parse: Parser<T>)
    requires '\n' !in line
    ensures var trimmed := Trim(line, blank);
            DecodeText(line, blank, parse) ==
              if trimmed == [] then Decoded([], None)
              else if parse(trimmed).None? then Decoded([], Some(trimmed))
              else Decoded([parse(trimmed).value], None)
  {
    LinesOfOneLine(line);
    assert DecodeLines([line][1..], blank, parse) == Decoded([], None);
  }

  /** Takes every complete line out of the buffer; `rest` is the text yet to come. */
  method TakeLines<T>(text: string, blank: char -> bool, parse: Parser<T>, ghost rest: string)
    returns (values: seq<T>, buffer: string, failed: Option<string>)
    ensures failed.Some? ==> DecodeText(text + rest, blank, parse) == Decoded(values, failed)
    ensures failed.None? ==> '\n' !in buffer
    ensures failed.None? ==>
              DecodeText(text + rest, blank, parse) == Resumed(values, DecodeText(buffer + rest, blank, parse))
  {
    values, buffer, failed := [], text, None;
    var newlineIndex := IndexOfNewline(buffer);
    while newlineIndex != -1
      invariant newlineIndex == -1 ==> '\n' !in buffer
      invariant newlineIndex != -1 ==> 0 <= newlineIndex < |buffer| && buffer[newlineIndex] == '\n'
      invariant newlineIndex != -1 ==> '\n' !in buffer[..newlineIndex]
      invariant DecodeText(text + rest, blank, parse) == Resumed(values, DecodeText(buffer + rest, blank, parse))
      decreases |buffer|, newlineIndex
    {
      ResumeAtLine(buffer, newlineIndex, rest, values, blank, parse);
      var line := Trim(buffer[..newlineIndex], blank);
      buffer := buffer[newlineIndex + 1..];
      if |line| > 0 {
        var parsed := parse(line);
        if parsed.None? {
          failed := Some(line);
          return;
        }
        values := values + [parsed.value];
      }
      newlineIndex := IndexOfNewline(buffer);
    }
  }

  /** However the text is cut into chunks, the values emitted and the first failing
      line are those of the whole text. */
  method StreamHttpNdjson<T>(chunks: seq<string>, blank: char -> bool, parse: Parser<T>) returns (decoded: Decoded<T>)
    ensures decoded == DecodeText(Joined(chunks), blank, parse)
  {
    var values: seq<T> := [];
    var buffer: string := [];
    var i := 0;
    assert buffer + Joined(chunks[i..]) == Joined(chunks) by {
      assert chunks[i..] == chunks;
    }
    while i < |chunks|
      invariant 0 <= i <= |chunks| && '\n' !in buffer
      invariant DecodeText(Joined(chunks), blank, parse)
                == Resumed(values, DecodeText(buffer + Joined(chunks[i..]), blank, parse))
    {
      ghost var rest := Joined(chunks[i + 1..]);
      assert buffer + Joined(chunks[i..]) == (buffer + chunks[i]) + rest;
      var taken, failed;
      taken, buffer, failed := TakeLines(buffer + chunks[i], blank, parse, rest);
      ResumedTwice(values, taken, DecodeText(buffer + rest, blank, parse));
      values := values + taken;
      if failed.Some? {
        return Decoded(values, failed);
      }
      i := i + 1;
    }
    assert buffer + Joined(chunks[i..]) == buffer;
    DecodeLastLine(buffer, blank, parse);
    var trailing := Trim(buffer, blank);
    if |trailing| > 0 {
      var parsed := parse(trailing);
      if parsed.None? {
        return Decoded(values, Some(trailing));
      }
      values := values + [parsed.value];
    }
    decoded := Decoded(values, None);
  }
}
