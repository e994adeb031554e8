/** The controller journal (crates/control/src/log.rs): one record per line, a newline as
    the record boundary, and a torn last line cut off on reading. */
module Journal {
  import opened ResourceGraph

  type Byte = x: int | 0 <= x < 256
  type Bytes = seq<Byte>

  const NEWLINE: Byte := 10

  predicate Whitespace(b: Byte) {
    b == 32 || b == 9 || b == 10 || b == 12 || b == 13
  }

  predicate Blank(line: Bytes) {
    forall i :: 0 <= i < |line| ==> Whitespace(line[i])
  }

  /** How records are written and read back. */
  datatype Codec<!R> = Codec(encode: R -> Bytes, decode: Bytes -> Option<R>)

  /** A record is one line: it has no newline in it, is not blank and reads back. */
  ghost predicate Faithful<R(!new)>(c: Codec<R>) {
    forall r :: c.decode(c.encode(r)) == Some(r) && NEWLINE !in c.encode(r) && !Blank(c.encode(r))
  }

  function Line<R>(c: Codec<R>, r: R): Bytes {
    c.encode(r) + [NEWLINE]
  }

  function Written<R>(c: Codec<R>, records: seq<R>): Bytes {
    if records == [] then [] else Line(c, records[0]) + Written(c, records[1..])
  }

  /** The position of the first newline, or the length. */
  function FindNewline(bytes: Bytes): (n: nat)
    ensures n <= |bytes| && NEWLINE !in bytes[..n] && (n < |bytes| ==> bytes[n] == NEWLINE)
  {
    if bytes == [] || bytes[0] == NEWLINE then 0
    else
      var rest := FindNewline(bytes[1..]);
      assert bytes[..rest + 1] == [bytes[0]] + bytes[1..][..rest];
      rest + 1
  }

  /** The complete lines of a file as records: `None` if one is corrupt. */
  function Parsed<R>(c: Codec<R>, bytes: Bytes): Option<seq<R>>
    decreases |bytes|
  {
    var end := FindNewline(bytes);
    if end == |bytes| then Some([])
    else
      var line := bytes[..end];
      var rest := Parsed(c, bytes[end + 1..]);
      if Blank(line) then rest
      else
        var r := c.decode(line);
        if r.None? || rest.None? then None else Some([r.value] + rest.value)
  }

  /** The file up to its last newline. */
  function WholeLines(bytes: Bytes): Bytes
    decreases |bytes|
  {
    var end := FindNewline(bytes);
    if end == |bytes| then [] else bytes[..end + 1] + WholeLines(bytes[end + 1..])
  }

  lemma {:induction false} FirstLine(line: Bytes, rest: Bytes)
    requires NEWLINE !in line
    ensures FindNewline(line + [NEWLINE] + rest) == |line|
  {
    var bytes := line + [NEWLINE] + rest;
    if line != [] {
      assert bytes[0] == line[0] && line[0] in line;
      assert bytes[1..] == line[1..] + [NEWLINE] + rest;
      FirstLine(line[1..], rest);
    }
  }

  /** Reading a journal gives exactly the newline-complete records and keeps exactly their
      lines, whatever incomplete tail follows. */
  lemma {:induction false} ReadsBack<R(!new)>(c: Codec<R>, records: seq<R>, tail: Bytes)
    requires Faithful(c) && NEWLINE !in tail
    ensures Parsed(c, Written(c, records) + tail) == Some(records)
    ensures WholeLines(Written(c, records) + tail) == Written(c, records)
  {
    hide Parsed, WholeLines, FindNewline, Blank;
    var bytes := Written(c, records) + tail;
    if records == [] {
      assert bytes == tail;
      NoNewline(tail);
      ParseEnd(c, tail, []);
      PrependNothing(Parsed(c, tail));
    } else {
      var line, rest := c.encode(records[0]), Written(c, records[1..]) + tail;
      assert bytes == line + [NEWLINE] + rest;
      FirstLine(line, rest);
      assert bytes[..|line|] == line && bytes[..|line| + 1] == Line(c, records[0]) && bytes[|line| + 1..] == rest;
      ReadsBack(c, records[1..], tail);
      ParseHere(c, bytes);
      assert records == [records[0]] + records[1..];
    }
  }

  lemma {:induction false} NoNewline(tail: Bytes)
    requires NEWLINE !in tail
    ensures FindNewline(tail) == |tail|
  {
  }

  lemma {:induction false} WrittenAppend<R(!new)>(c: Codec<R>, records: seq<R>, r: R)
    ensures Written(c, records + [r]) == Written(c, records) + Line(c, r)
  {
    if records != [] {
      WrittenAppend(c, records[1..], r);
      assert (records + [r])[1..] == records[1..] + [r];
    } else {
      assert Written(c, [r]) == Line(c, r) + Written(c, []);
    }
  }

  /** A torn append leaves either no newline or the whole record. */
  lemma TornLine<R(!new)>(c: Codec<R>, r: R, cut: nat)
    requires Faithful(c) && cut <= |Line(c, r)|
    ensures cut < |Line(c, r)| ==> NEWLINE !in Line(c, r)[..cut]
    ensures cut == |Line(c, r)| ==> Line(c, r)[..cut] == Line(c, r)
  {
  }

  /** The journal file. */
  class CommandLog<R(!new)> {
    const codec: Codec<R>
    var file: Bytes

    constructor (codec: Codec<R>, file: Bytes)
      ensures this.codec == codec && this.file == file
    {
      this.codec, this.file := codec, file;
    }

    method AppendValue(r: R)
      modifies this`file
      ensures file == old(file) + Line(codec, r)
    {
      file := file + (codec.encode(r) + [NEWLINE]);
    }

    method Truncate()
      modifies this`file
      ensures file == []
    {
      file := [];
    }

    /** Reads every record and cuts off what follows the last newline. */
    method ReadRecords() returns (records: Option<seq<R>>)
      modifies this`file
      ensures records == Parsed(codec, old(file))
      ensures records.Some? ==> file == WholeLines(old(file))
    {
      hide Parsed, WholeLines, FindNewline, Blank, Prepend;
      var bytes := file;
      var out: seq<R> := [];
      var lineStart := 0;
      assert bytes[0..] == bytes;
      PrependNothing(Parsed(codec, bytes));
      while true
        invariant 0 <= lineStart <= |bytes| && file == bytes
        invariant Parsed(codec, bytes) == Prepend(out, Parsed(codec, bytes[lineStart..]))
        invariant WholeLines(bytes) == bytes[..lineStart] + WholeLines(bytes[lineStart..])
        decreases |bytes| - lineStart
      {
        var end := lineStart + FindNewline(bytes[lineStart..]);
        if end == |bytes| {
          if lineStart < |bytes| {
            file := bytes[..lineStart];
          }
          ParseEnd(codec, bytes[lineStart..], out);
          assert bytes[..lineStart] + [] == file;
          return Some(out);
        }
        var line := bytes[lineStart..end];
        ParseStep(codec, bytes, lineStart, end, out);
        if !Blank(line) {
          var record := codec.decode(line);
          if record.None? {
            return None;
          }
          out := out + [record.value];
        }
        lineStart := end + 1;
      }
    }
  }

  function Prepend<R>(out: seq<R>, rest: Option<seq<R>>): Option<seq<R>> {
    if rest.Some? then Some(out + rest.value) else None
  }

  lemma PrependNothing<R>(rest: Option<seq<R>>)
    ensures Prepend([], rest) == rest
  {
    assert rest.Some? ==> [] + rest.value == rest.value;
  }

  lemma ParseEnd<R(!new)>(c: Codec<R>, bytes: Bytes, out: seq<R>)
    requires FindNewline(bytes) == |bytes|
    ensures Prepend(out, Parsed(c, bytes)) == Some(out) && WholeLines(bytes) == []
  {
    assert out + [] == out;
  }

  lemma PrependOne<R>(out: seq<R>, r: R, after: Option<seq<R>>)
    ensures Prepend(out, Prepend([r], after)) == Prepend(out + [r], after)
  {
    assert after.Some? ==> out + ([r] + after.value) == out + [r] + after.value;
  }

  lemma ParseHere<R(!new)>(c: Codec<R>, bytes: Bytes)
    requires FindNewline(bytes) < |bytes|
    ensures var end := FindNewline(bytes);
            var line, after := bytes[..end], Parsed(c, bytes[end + 1..]);
            Parsed(c, bytes) == if Blank(line) then after else if c.decode(line).None? then None
                                else Prepend([c.decode(line).value], after)
    ensures WholeLines(bytes) == bytes[..FindNewline(bytes) + 1] + WholeLines(bytes[FindNewline(bytes) + 1..])
  {
  }

  /** What one line contributes to the reading of the rest of the file. */
  lemma ParseStep<R(!new)>(c: Codec<R>, bytes: Bytes, start: nat, end: nat, out: seq<R>)
    requires start <= end < |bytes| && end == start + FindNewline(bytes[start..])
    ensures var line, after := bytes[start..end], Parsed(c, bytes[end + 1..]);
            Prepend(out, Parsed(c, bytes[start..])) ==
            if Blank(line) then Prepend(out, after)
            else if c.decode(line).None? then None
            else Prepend(out + [c.decode(line).value], after)
    ensures bytes[..start] + WholeLines(bytes[start..]) == bytes[..end + 1] + WholeLines(bytes[end + 1..])
  {
    hide Parsed, Blank, FindNewline, WholeLines, Prepend;
    var here := bytes[start..];
    assert here[..end - start] == bytes[start..end] && here[end - start + 1..] == bytes[end + 1..];
    ParseHere(c, here);
    if c.decode(bytes[start..end]).Some? {
      PrependOne(out, c.decode(bytes[start..end]).value, Parsed(c, bytes[end + 1..]));
    }
    PrependNone(out);
    CompleteStep(bytes, start, end);
  }

  lemma PrependNone<R>(out: seq<R>)
    ensures Prepend(out, None) == None
  {
  }

  lemma CompleteStep(bytes: Bytes, start: nat, end: nat)
    requires start <= end < |bytes| && end == start + FindNewline(bytes[start..])
    ensures bytes[..start] + WholeLines(bytes[start..]) == bytes[..end + 1] + WholeLines(bytes[end + 1..])
  {
    var here := bytes[start..];
    assert here[end - start + 1..] == bytes[end + 1..];
    var rest := WholeLines(bytes[end + 1..]);
    assert WholeLines(here) == here[..end - start + 1] + rest;
    hide WholeLines, FindNewline;
    assert bytes[..start] + here[..end - start + 1] == bytes[..end + 1];
    assert bytes[..start] + (here[..end - start + 1] + rest) == bytes[..start] + here[..end - start + 1] + rest;
  }
}
