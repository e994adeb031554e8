/** CPU lists in sysfs syntax: the printer (crates/node/src/protocol.rs) and the parser
    (crates/node/src/discover.rs). */
module CpuLists {
  import opened ResourceGraph

  const U32_MAX := 0xFFFF_FFFF

  /** A CPU or NUMA number. */
  type Number = x: int | 0 <= x <= U32_MAX

  /** The successor in 32 bits. */
  function Succ(x: Number): Number {
    if x == U32_MAX then 0 else x + 1
  }

  /* ---------- decimal numbers ---------- */

  function Digit(d: int): char
    requires 0 <= d < 10
  {
    ('0' as int + d) as char
  }

  predicate IsDigit(c: char) {
    '0' <= c <= '9'
  }

  function DigitOf(c: char): nat
    requires IsDigit(c)
  {
    c as int - '0' as int
  }

  function Digits(n: nat): (s: string)
    ensures s != [] && forall i :: 0 <= i < |s| ==> IsDigit(s[i])
  {
    if n < 10 then [Digit(n)] else Digits(n / 10) + [Digit(n % 10)]
  }

  function Value(s: string): nat
    requires forall i :: 0 <= i < |s| ==> IsDigit(s[i])
  {
    if s == [] then 0 else 10 * Value(s[..|s| - 1]) + DigitOf(s[|s| - 1])
  }

  lemma {:induction false} DigitsValue(n: nat)
    ensures Value(Digits(n)) == n
  {
    if n < 10 {
      assert Digits(n)[..0] == [];
    } else {
      var s := Digits(n / 10);
      DigitsValue(n / 10);
      assert Digits(n) == s + [Digit(n % 10)] && Digits(n)[..|s|] == s;
    }
  }

  predicate IsSpace(c: char) {
    c == ' ' || c == '\t' || c == '\n' || c == '\r'
  }

  function TrimLeft(s: string): string {
    if s != [] && IsSpace(s[0]) then TrimLeft(s[1..]) else s
  }

  function TrimRight(s: string): string {
    if s != [] && IsSpace(s[|s| - 1]) then TrimRight(s[..|s| - 1]) else s
  }

  predicate AllDigits(s: string) {
    forall i :: 0 <= i < |s| ==> IsDigit(s[i])
  }

  /** A 32-bit number in decimal, surrounding blanks and one plus sign allowed. */
  function ParseNumber(s: string): Option<Number> {
    var t := TrimRight(TrimLeft(s));
    var digits := if t != [] && t[0] == '+' then t[1..] else t;
    if digits != [] && AllDigits(digits) && Value(digits) <= U32_MAX then Some(Value(digits)) else None
  }

  lemma ParsesBack(n: Number)
    ensures ParseNumber(Digits(n)) == Some(n)
  {
    var s := Digits(n);
    assert IsDigit(s[0]) && IsDigit(s[|s| - 1]);
    DigitsValue(n);
  }

  /* ---------- splitting ---------- */

  /** The position of the first `c`, or the length. */
  function Find(s: string, c: char): (n: nat)
    ensures n <= |s| && c !in s[..n] && (n < |s| ==> s[n] == c)
  {
    if s == [] || s[0] == c then 0
    else
      var rest := Find(s[1..], c);
      assert s[..rest + 1] == [s[0]] + s[1..][..rest];
      rest + 1
  }

  lemma {:induction false} FindAfter(s: string, c: char, rest: string)
    requires c !in s
    ensures Find(s + [c] + rest, c) == |s| && Find(s, c) == |s|
  {
    if s != [] {
      assert s[0] in s;
      assert (s + [c] + rest)[1..] == s[1..] + [c] + rest;
      FindAfter(s[1..], c, rest);
    }
  }

  function Split(s: string): seq<string>
    decreases |s|
  {
    var n := Find(s, ',');
    if n == |s| then [s] else [s[..n]] + Split(s[n + 1..])
  }

  function Range(start: nat, end: nat): seq<Number>
    requires end <= U32_MAX
    decreases end + 1 - start
  {
    if start > end then [] else [start] + Range(start + 1, end)
  }

  function ParsePart(part: string): Option<seq<Number>> {
    var n := Find(part, '-');
    var start := ParseNumber(part[..n]);
    var end := ParseNumber(if n == |part| then part else part[n + 1..]);
    if start.None? || end.None? || end.value < start.value then None else Some(Range(start.value, end.value))
  }

  function ParseParts(parts: seq<string>): Option<seq<Number>> {
    if parts == [] then Some([])
    else if parts[0] == "" then ParseParts(parts[1..])
    else
      var here, rest := ParsePart(parts[0]), ParseParts(parts[1..]);
      if here.None? || rest.None? then None else Some(here.value + rest.value)
  }

  function Parsed(list: string): Option<seq<Number>> {
    ParseParts(Split(list))
  }

  /* ---------- printing ---------- */

  /** The last position of the run of successors that starts at `i`. */
  function RunEnd(xs: seq<Number>, i: nat): (e: nat)
    requires i < |xs|
    ensures i <= e < |xs|
    ensures forall j :: i <= j < e ==> xs[j + 1] == Succ(xs[j])
    ensures e + 1 < |xs| ==> xs[e + 1] != Succ(xs[e])
    decreases |xs| - i
  {
    if i + 1 < |xs| && xs[i + 1] == Succ(xs[i]) then RunEnd(xs, i + 1) else i
  }

  function Piece(start: Number, end: Number): string {
    if start == end then Digits(start) else Digits(start) + "-" + Digits(end)
  }

  function Rendered(xs: seq<Number>, i: nat): string
    decreases |xs| - i
  {
    if i >= |xs| then ""
    else
      var e := RunEnd(xs, i);
      Piece(xs[i], xs[e]) + if e + 1 == |xs| then "" else "," + Rendered(xs, e + 1)
  }

  /** The whole output, when `out` has been printed and the numbers from `next` on remain. */
  function Continued(xs: seq<Number>, next: nat, out: string): string {
    if next >= |xs| then out else (if out == "" then "" else out + ",") + Rendered(xs, next)
  }

  lemma RenderStep(xs: seq<Number>, i: nat)
    requires i < |xs|
    ensures var e := RunEnd(xs, i);
            Rendered(xs, i) == Piece(xs[i], xs[e]) + if e + 1 == |xs| then "" else "," + Rendered(xs, e + 1)
  {
    hide Piece, RunEnd;
  }

  lemma PrintRun(xs: seq<Number>, i: nat, out: string)
    requires i < |xs|
    ensures var e := RunEnd(xs, i);
            Continued(xs, i, out) == Continued(xs, e + 1, (if out == "" then "" else out + ",") + Piece(xs[i], xs[e]))
  {
    hide Rendered, RunEnd, Piece;
    var e := RunEnd(xs, i);
    var before, piece := if out == "" then "" else out + ",", Piece(xs[i], xs[e]);
    RenderStep(xs, i);
    PieceNotEmpty(xs[i], xs[e]);
    assert |before + piece| > 0;
    if e + 1 < |xs| {
      var rest := Rendered(xs, e + 1);
      assert before + (piece + ("," + rest)) == before + piece + "," + rest;
    } else {
      assert before + (piece + "") == before + piece;
    }
  }

  lemma PieceNotEmpty(start: Number, end: Number)
    ensures Piece(start, end) != ""
  {
  }

  /** Follows the run that starts at `first`. */
  method FollowRun(xs: seq<Number>, first: nat) returns (next: nat)
    requires first < |xs|
    ensures next == RunEnd(xs, first) + 1
  {
    var end := xs[first];
    next := first + 1;
    while next < |xs| && xs[next] == Succ(end)
      invariant first < next <= |xs| && end == xs[next - 1] && RunEnd(xs, first) == RunEnd(xs, next - 1)
    {
      end := xs[next];
      next := next + 1;
    }
  }

  method Render(xs: seq<Number>) returns (out: string)
    ensures out == Rendered(xs, 0)
  {
    hide Rendered, RunEnd, Digits;
    out := "";
    var next := 0;
    RenderNothing(xs);
    while next < |xs|
      invariant next <= |xs| && Rendered(xs, 0) == Continued(xs, next, out)
    {
      var first := next;
      next := FollowRun(xs, first);
      var start, end := xs[first], xs[next - 1];
      PrintRun(xs, first, out);
      hide Continued;
      if out != "" {
        out := out + ",";
      }
      if start == end {
        out := out + Digits(start);
      } else {
        out := out + (Digits(start) + "-" + Digits(end));
      }
    }
  }

  lemma RenderNothing(xs: seq<Number>)
    ensures Continued(xs, 0, "") == Rendered(xs, 0)
  {
  }

  /* ---------- parsing what was printed ---------- */

  /** What parsing makes of the runs from `i` on. */
  function Expanded(xs: seq<Number>, i: nat): Option<seq<Number>>
    decreases |xs| - i
  {
    if i >= |xs| then Some([])
    else
      var e := RunEnd(xs, i);
      var rest := Expanded(xs, e + 1);
      if xs[e] < xs[i] || rest.None? then None else Some(Range(xs[i], xs[e]) + rest.value)
  }

  lemma DigitsPlain(n: nat)
    ensures ',' !in Digits(n) && '-' !in Digits(n)
  {
  }

  lemma PieceParses(start: Number, end: Number)
    ensures ParsePart(Piece(start, end)) == if end < start then None else Some(Range(start, end))
    ensures ',' !in Piece(start, end) && Piece(start, end) != ""
  {
    DigitsPlain(start);
    DigitsPlain(end);
    ParsesBack(start);
    ParsesBack(end);
    var s, t := Digits(start), Digits(end);
    FindAfter(s, '-', t);
    hide Digits, Find, ParseNumber;
    if start == end {
      assert s[..|s|] == s;
    } else {
      var part := s + ['-'] + t;
      assert Piece(start, end) == part && part[..|s|] == s && part[|s| + 1..] == t;
    }
  }

  lemma SplitPiece(piece: string, rest: string)
    requires ',' !in piece
    ensures Split(piece + "," + rest) == [piece] + Split(rest)
    ensures Split(piece) == [piece]
  {
    FindAfter(piece, ',', rest);
    var s := piece + [','] + rest;
    assert s[..|piece|] == piece && s[|piece| + 1..] == rest && piece + "," + rest == s;
  }

  lemma ParseFirst(piece: string, parts: seq<string>)
    requires piece != ""
    ensures ParseParts([piece] + parts) ==
            var here, rest := ParsePart(piece), ParseParts(parts);
            if here.None? || rest.None? then None else Some(here.value + rest.value)
  {
  }

  lemma ParseNothing()
    ensures Parsed("") == Some([]) && ParseParts([]) == Some([])
  {
  }

  function Both(here: Option<seq<Number>>, rest: Option<seq<Number>>): Option<seq<Number>> {
    if here.None? || rest.None? then None else Some(here.value + rest.value)
  }

  lemma ParsedPiece(piece: string, rest: string)
    requires ',' !in piece && piece != ""
    ensures Parsed(piece + ("," + rest)) == Both(ParsePart(piece), Parsed(rest))
    ensures Parsed(piece) == Both(ParsePart(piece), Some([]))
  {
    hide ParsePart, ParseParts, Split;
    SplitPiece(piece, rest);
    assert piece + ("," + rest) == piece + "," + rest;
    ParseFirst(piece, Split(rest));
    ParseFirst(piece, []);
    ParseNothing();
    assert [piece] + [] == [piece];
  }

  lemma ExpandStep(xs: seq<Number>, i: nat)
    requires i < |xs|
    ensures var e := RunEnd(xs, i);
            Expanded(xs, i) == Both(if xs[e] < xs[i] then None else Some(Range(xs[i], xs[e])), Expanded(xs, e + 1))
  {
  }

  /** Parsing a printed list expands its runs, for every list. */
  lemma {:induction false} ParseOfRender(xs: seq<Number>, i: nat)
    ensures Parsed(Rendered(xs, i)) == Expanded(xs, i)
    decreases |xs| - i
  {
    hide *;
    ParseNothing();
    if i >= |xs| {
      NothingLeft(xs, i);
    } else {
      var e := RunEnd(xs, i);
      RenderStep(xs, i);
      ExpandStep(xs, i);
      ParseOfRender(xs, e + 1);
      NothingLeft(xs, e + 1);
      PieceParses(xs[i], xs[e]);
      ParsedPiece(Piece(xs[i], xs[e]), Rendered(xs, e + 1));
      assert Piece(xs[i], xs[e]) + "" == Piece(xs[i], xs[e]);
    }
  }

  lemma NothingLeft(xs: seq<Number>, i: nat)
    ensures i >= |xs| ==> Rendered(xs, i) == "" && Expanded(xs, i) == Some([])
  {
  }

  /* ---------- when the round trip works ---------- */

  /** No largest number is followed by zero. */
  predicate NoWrap(xs: seq<Number>, i: nat) {
    forall j :: i <= j && j + 1 < |xs| ==> !(xs[j] == U32_MAX && xs[j + 1] == 0)
  }

  lemma {:induction false} RangeAt(start: nat, end: nat, k: nat)
    requires start + k <= end <= U32_MAX
    ensures |Range(start, end)| == end + 1 - start && Range(start, end)[k] == start + k
    decreases end + 1 - start
  {
    if k > 0 {
      RangeAt(start + 1, end, k - 1);
    } else if start < end {
      RangeAt(start + 1, end, 0);
    } else {
      assert Range(start + 1, end) == [];
    }
  }

  /** Along a run, values count up in 32 bits. */
  lemma {:induction false} RunCounts(xs: seq<Number>, i: nat, k: nat)
    requires i < |xs| && i + k <= RunEnd(xs, i)
    ensures xs[i + k] == (xs[i] + k) % (U32_MAX + 1)
  {
    if k > 0 {
      RunCounts(xs, i, k - 1);
      assert xs[i + k] == Succ(xs[i + k - 1]);
      NextModulo(xs[i], k - 1);
    }
  }

  lemma NextModulo(x: Number, k: nat)
    ensures (x + k + 1) % (U32_MAX + 1) == Succ((x + k) % (U32_MAX + 1))
  {
  }

  lemma {:induction false} RunPlain(xs: seq<Number>, i: nat, k: nat)
    requires i < |xs| && i + k <= RunEnd(xs, i) && NoWrap(xs, i)
    ensures xs[i + k] == xs[i] + k
  {
    if k > 0 {
      RunPlain(xs, i, k - 1);
      assert xs[i + k - 1 + 1] == Succ(xs[i + k - 1]);
    }
  }

  lemma RunIsRange(xs: seq<Number>, i: nat)
    requires i < |xs| && NoWrap(xs, i)
    ensures var e := RunEnd(xs, i); xs[i] <= xs[e] && Range(xs[i], xs[e]) == xs[i..e + 1]
  {
    var e := RunEnd(xs, i);
    RunPlain(xs, i, e - i);
    forall k | 0 <= k <= e - i
      ensures |Range(xs[i], xs[e])| == e + 1 - i && Range(xs[i], xs[e])[k] == xs[i + k]
    {
      RunPlain(xs, i, k);
      RangeAt(xs[i], xs[e], k);
    }
    assert |Range(xs[i], xs[e])| == e + 1 - i by { RangeAt(xs[i], xs[e], 0); }
  }

  lemma {:induction false} ExpandsBack(xs: seq<Number>, i: nat)
    requires i <= |xs| && NoWrap(xs, i)
    ensures Expanded(xs, i) == Some(xs[i..])
    decreases |xs| - i
  {
    hide Expanded, Range, RunEnd;
    NothingLeft(xs, i);
    if i < |xs| {
      var e := RunEnd(xs, i);
      ExpandsBack(xs, e + 1);
      ExpandStep(xs, i);
      RunIsRange(xs, i);
      hide NoWrap;
      assert Expanded(xs, i) == Some(xs[i..e + 1] + xs[e + 1..]);
      assert xs[i..e + 1] + xs[e + 1..] == xs[i..];
    } else {
      assert xs[i..] == [];
    }
  }

  /** A run that wrapped around does not expand to itself. */
  lemma WrapBreaks(xs: seq<Number>, i: nat, rest: seq<Number>)
    requires i < |xs| && xs[i] <= xs[RunEnd(xs, i)] && RunEnd(xs, i) - i > xs[RunEnd(xs, i)] - xs[i]
    requires Expanded(xs, RunEnd(xs, i) + 1) == Some(rest)
    ensures Range(xs[i], xs[RunEnd(xs, i)]) + rest != xs[i..]
  {
    hide Range, Expanded;
    var e := RunEnd(xs, i);
    var s, t := xs[i], xs[e];
    var size: nat := (t as int) - s + 1;
    RangeAt(s, t, 0);
    RunCounts(xs, i, size);
    NextModulo(s, t - s);
    assert xs[i..][size] == xs[i + size] == Succ(t);
    if rest == [] {
      assert |Range(s, t) + rest| < |xs[i..]|;
    } else {
      FirstOfRest(xs, e + 1, rest);
      assert (Range(s, t) + rest)[size] == xs[e + 1];
    }
  }

  lemma TailsDiffer(xs: seq<Number>, i: nat, j: nat, head: seq<Number>, tail: seq<Number>)
    requires i <= j <= |xs| && |head| == j - i && tail != xs[j..]
    ensures head + tail != xs[i..]
  {
    assert xs[i..][j - i..] == xs[j..];
    assert (head + tail)[j - i..] == tail;
  }

  lemma {:induction false} ExpandsOnlyIf(xs: seq<Number>, i: nat)
    requires i <= |xs| && !NoWrap(xs, i)
    ensures Expanded(xs, i) != Some(xs[i..])
    decreases |xs| - i
  {
    hide Range, Expanded;
    if i < |xs| {
      var e := RunEnd(xs, i);
      var s, t := xs[i], xs[e];
      ExpandStep(xs, i);
      RunCounts(xs, i, e - i);
      if s <= t && Expanded(xs, e + 1).Some? {
        SameModulo(s, e - i, t);
        if e - i > t - s {
          WrapBreaks(xs, i, Expanded(xs, e + 1).value);
        } else {
          LaterWrap(xs, i);
          ExpandsOnlyIf(xs, e + 1);
          RangeAt(s, t, 0);
          hide NoWrap, RunEnd;
          TailsDiffer(xs, i, e + 1, Range(s, t), Expanded(xs, e + 1).value);
        }
      }
    }
  }

  /** A run that did not wrap leaves the wrap to a later one. */
  lemma LaterWrap(xs: seq<Number>, i: nat)
    requires i < |xs| && !NoWrap(xs, i) && xs[i] <= xs[RunEnd(xs, i)] && RunEnd(xs, i) - i == xs[RunEnd(xs, i)] - xs[i]
    ensures !NoWrap(xs, RunEnd(xs, i) + 1)
  {
    var e := RunEnd(xs, i);
    var j :| i <= j && j + 1 < |xs| && xs[j] == U32_MAX && xs[j + 1] == 0;
    assert j != e;
    forall d | i <= d < e
      ensures !(xs[d] == U32_MAX && xs[d + 1] == 0)
    {
      RunCounts(xs, i, d - i);
      RunCounts(xs, i, d + 1 - i);
    }
  }

  lemma FirstOfRest(xs: seq<Number>, i: nat, rest: seq<Number>)
    requires Expanded(xs, i) == Some(rest) && rest != []
    ensures i < |xs| && rest[0] == xs[i]
  {
  }

  lemma SameModulo(s: Number, k: nat, t: Number)
    requires t == (s + k) % (U32_MAX + 1) && s <= t
    ensures k >= t - s && (k <= t - s ==> k == t - s)
  {
  }

  /** Parsing what was printed gives the list back exactly when no largest number is
      followed by zero. */
  lemma RoundTripIff(xs: seq<Number>)
    ensures Parsed(Rendered(xs, 0)) == Some(xs) <==> NoWrap(xs, 0)
  {
    hide *;
    ParseOfRender(xs, 0);
    assert xs[0..] == xs;
    if NoWrap(xs, 0) {
      ExpandsBack(xs, 0);
    } else {
      ExpandsOnlyIf(xs, 0);
    }
  }

  /** In particular for every list of numbers below the largest. */
  lemma RoundTrip(xs: seq<Number>)
    requires forall i :: 0 <= i < |xs| ==> xs[i] < U32_MAX
    ensures Parsed(Rendered(xs, 0)) == Some(xs)
  {
    hide Parsed, Rendered;
    RoundTripIff(xs);
  }

  /** The list that does not come back. */
  lemma WrappedPair()
    ensures Parsed(Rendered([U32_MAX, 0], 0)) != Some([U32_MAX, 0])
  {
    hide Parsed, Rendered;
    var xs: seq<Number> := [U32_MAX, 0];
    assert xs[0] == U32_MAX && xs[0 + 1] == 0;
    RoundTripIff(xs);
  }

  method ParseCpuList(list: string) returns (cpus: Option<seq<Number>>)
    ensures cpus == Parsed(list)
  {
    var parts := Split(list);
    var out: seq<Number> := [];
    hide ParsePart;
    assert parts[0..] == parts;
    BothNothing(ParseParts(parts));
    for i := 0 to |parts|
      invariant ParseParts(parts) == Both(Some(out), ParseParts(parts[i..]))
    {
      NextPart(parts, i, out);
      if parts[i] == "" {
        continue;
      }
      var range := ParseRange(parts[i]);
      if range.None? {
        return None;
      }
      out := out + range.value;
    }
    assert out + [] == out && parts[|parts|..] == [];
    return Some(out);
  }

  lemma BothNothing(rest: Option<seq<Number>>)
    ensures Both(Some([]), rest) == rest
  {
    assert rest.Some? ==> [] + rest.value == rest.value;
  }

  lemma NextPart(parts: seq<string>, i: nat, out: seq<Number>)
    requires i < |parts|
    ensures Both(Some(out), ParseParts(parts[i..])) ==
            if parts[i] == "" then Both(Some(out), ParseParts(parts[i + 1..]))
            else if ParsePart(parts[i]).None? then None
            else Both(Some(out + ParsePart(parts[i]).value), ParseParts(parts[i + 1..]))
  {
    hide ParsePart;
    assert parts[i..][1..] == parts[i + 1..];
    var here, rest := ParsePart(parts[i]), ParseParts(parts[i + 1..]);
    if here.Some? && rest.Some? {
      assert out + (here.value + rest.value) == out + here.value + rest.value;
    }
  }

  method ParseRange(part: string) returns (cpus: Option<seq<Number>>)
    ensures cpus == ParsePart(part)
  {
    var n := Find(part, '-');
    var start := ParseNumber(part[..n]);
    var end := ParseNumber(if n == |part| then part else part[n + 1..]);
    if start.None? || end.None? || end.value < start.value {
      return None;
    }
    var range := PushRange(start.value, end.value);
    return Some(range);
  }

  method PushRange(start: Number, end: Number) returns (out: seq<Number>)
    requires start <= end
    ensures out == Range(start, end)
  {
    out := [];
    var cpu: nat := start;
    assert out + Range(cpu, end) == Range(start, end);
    while cpu <= end
      invariant cpu <= end + 1 && out + Range(cpu, end) == Range(start, end)
      decreases end + 1 - cpu
    {
      PushOne(out, cpu, end);
      out := out + [cpu];
      cpu := cpu + 1;
    }
    assert out + [] == out;
  }

  lemma PushOne(out: seq<Number>, cpu: nat, end: Number)
    requires cpu <= end
    ensures out + Range(cpu, end) == out + [cpu] + Range(cpu + 1, end)
  {
  }
}
