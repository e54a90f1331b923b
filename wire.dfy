/** The text form of protocol frames: how a frame is cut into lines by each
    reader in the system, how frames are assembled line by line, and how
    counters are written as decimal text and read back. */
module Wire {
  import opened Common

  // ---------------------------------------------------------------------
  // Searching

  /** String.indexOf(c, from): the first position at or after `from` that
      holds `c`, or -1. */
  function IndexOf(s: string, c: char, from: nat): (r: int)
    requires from <= |s|
    ensures r == -1 || (from <= r < |s| && s[r] == c)
    ensures r == -1 ==> forall k :: from <= k < |s| ==> s[k] != c
    ensures r != -1 ==> forall k :: from <= k < r ==> s[k] != c
    decreases |s| - from
  {
    if from == |s| then -1 else if s[from] == c then from else IndexOf(s, c, from + 1)
  }

  /** A line with the single '\r' that stood directly before its '\n' removed. */
  function StripCR(x: string): (r: string)
    ensures x == r || x == r + ['\r']
    ensures |x| > 0 && x[|x| - 1] == '\r' ==> |r| == |x| - 1
  {
    if |x| > 0 && x[|x| - 1] == '\r' then x[..|x| - 1] else x
  }

  // ---------------------------------------------------------------------
  // The line splitter used by the clients (LineIterator)

  /** The lines LineIterator yields for a non-null text: cut at every '\n',
      drop one '\r' before each '\n', and let a final '\n' close the last
      line without opening another one. */
  function Lines(t: string): (ls: seq<string>)
    ensures ls == [] <==> t == []
    decreases |t|
  {
    if t == [] then []
    else
      var n := IndexOf(t, '\n', 0);
      if n < 0 then [t] else [StripCR(t[..n])] + Lines(t[n + 1..])
  }

  /** Lines of a text that starts with a line `a` closed by '\n'. */
  lemma LinesCons(a: string, b: string)
    requires '\n' !in a
    ensures Lines(a + ['\n'] + b) == [StripCR(a)] + Lines(b)
  {
    var t := a + ['\n'] + b;
    var n := IndexOf(t, '\n', 0);
    assert t[|a|] == '\n';
    assert forall k :: 0 <= k < |a| ==> t[k] == a[k];
    assert n == |a|;
    assert t[..n] == a;
    assert t[n + 1..] == b;
  }

  /** A text with no '\n' is one line, taken as it is. */
  lemma LinesSingle(t: string)
    requires t != [] && '\n' !in t
    ensures Lines(t) == [t]
  {
  }

  /** How many times `c` occurs in `s`. */
  function Count(s: string, c: char): nat
  {
    multiset(s)[c]
  }

  lemma CountConcat(a: string, b: string, c: char)
    ensures Count(a + b, c) == Count(a, c) + Count(b, c)
  {
    assert multiset(a + b) == multiset(a) + multiset(b);
  }

  /** A non-empty text has as many lines as '\n' characters when it ends
      with '\n', and one more otherwise. */
  lemma {:induction false} LineCount(t: string)
    requires t != []
    ensures |Lines(t)| == if t[|t| - 1] == '\n' then Count(t, '\n') else Count(t, '\n') + 1
    decreases |t|
  {
    var n := IndexOf(t, '\n', 0);
    if n == -1 {
      assert '\n' !in t;
      LinesSingle(t);
    } else {
      var a, b := t[..n], t[n + 1..];
      assert t == a + (['\n'] + b);
      assert '\n' !in a;
      LinesCons(a, b);
      CountConcat(a, ['\n'] + b, '\n');
      CountConcat(['\n'], b, '\n');
      assert Count(a, '\n') == 0;
      assert Count(['\n'], '\n') == 1;
      if b != [] {
        LineCount(b);
        assert b[|b| - 1] == t[|t| - 1];
      }
    }
  }

  /** `t` with every '\n' written as "\r\n". */
  function ToCRLF(t: string): string
  {
    if t == [] then []
    else
      (if t[0] == '\n' then "\r\n" else [t[0]]) + ToCRLF(t[1..])
  }

  lemma {:induction false} ToCRLFAppend(a: string, b: string)
    ensures ToCRLF(a + b) == ToCRLF(a) + ToCRLF(b)
    decreases |a|
  {
    if a == [] {
      assert a + b == b;
    } else {
      assert (a + b)[0] == a[0];
      assert (a + b)[1..] == a[1..] + b;
      ToCRLFAppend(a[1..], b);
    }
  }

  lemma {:induction false} ToCRLFNoNewline(a: string)
    requires '\n' !in a
    ensures ToCRLF(a) == a
    decreases |a|
  {
    if a != [] {
      assert a[0] in a;
      assert a == [a[0]] + a[1..];
      ToCRLFNoNewline(a[1..]);
    }
  }

  lemma CRLFStep(a: string, b: string)
    requires '\n' !in a
    ensures ToCRLF(a + ['\n'] + b) == (a + ['\r']) + ['\n'] + ToCRLF(b)
  {
    var x := a + ['\n'];
    ToCRLFAppend(x, b);
    ToCRLFAppend(a, ['\n']);
    ToCRLFNoNewline(a);
    assert ToCRLF(['\n']) == "\r\n";
    assert ToCRLF(x) == (a + ['\r']) + ['\n'];
  }

  /** Text written with CRLF line ends splits into the same lines as the
      same text written with LF line ends. */
  lemma {:induction false} CRLFSameLines(t: string)
    requires '\r' !in t
    ensures Lines(ToCRLF(t)) == Lines(t)
    decreases |t|
  {
    var n := IndexOf(t, '\n', 0);
    if n == -1 {
      assert '\n' !in t;
      ToCRLFNoNewline(t);
    } else {
      var a, b := t[..n], t[n + 1..];
      assert t == a + ['\n'] + b;
      assert '\n' !in a;
      assert '\r' !in a && '\r' !in b;
      CRLFStep(a, b);
      LinesCons(a + ['\r'], ToCRLF(b));
      assert StripCR(a + ['\r']) == a;
      LinesCons(a, b);
      StripCRWireSafe(a);
      CRLFSameLines(b);
    }
  }

  // ---------------------------------------------------------------------
  // Assembling frames

  /** What the codec may produce so that every reader gets it back as one
      line: no '\n' (MessageSerializer's rule) and no '\r'. */
  predicate WireSafe(s: string)
  {
    '\n' !in s && '\r' !in s
  }

  /** Lines each followed by '\n', as the StringBuilder code builds frames. */
  function Join(ls: seq<string>): (t: string)
    ensures |t| >= |ls|
    ensures ls != [] ==> t[|t| - 1] == '\n'
  {
    if ls == [] then [] else ls[0] + ['\n'] + Join(ls[1..])
  }

  lemma JoinCons(l: string, ls: seq<string>)
    ensures Join([l] + ls) == l + ['\n'] + Join(ls)
  {
    assert ([l] + ls)[1..] == ls;
  }

  lemma StripCRWireSafe(a: string)
    requires WireSafe(a)
    ensures StripCR(a) == a
  {
    if |a| > 0 {
      assert a[|a| - 1] in a;
    }
  }

  /** The client's splitter gives back exactly the lines a frame was built
      from, followed by the lines of an unterminated tail. */
  lemma {:induction false} LinesJoin(ls: seq<string>, tail: string)
    requires forall i :: 0 <= i < |ls| ==> WireSafe(ls[i])
    requires '\n' !in tail
    ensures Lines(Join(ls) + tail) == ls + Lines(tail)
    decreases |ls|
  {
    if ls != [] {
      assert Join(ls) + tail == ls[0] + ['\n'] + (Join(ls[1..]) + tail);
      LinesCons(ls[0], Join(ls[1..]) + tail);
      StripCRWireSafe(ls[0]);
      LinesJoin(ls[1..], tail);
      assert ls == [ls[0]] + ls[1..];
    } else {
      assert Join(ls) + tail == tail;
    }
  }

  /** Round trip: splitting a frame built by Join gives back its lines. */
  lemma JoinRoundTrip(ls: seq<string>)
    requires forall i :: 0 <= i < |ls| ==> WireSafe(ls[i])
    ensures Lines(Join(ls)) == ls
  {
    LinesJoin(ls, []);
    assert Join(ls) + [] == Join(ls);
  }

  /** A line ending in '\r' does not survive the round trip: "a\r" comes
      back as "a". */
  lemma TrailingCRIsLost()
    ensures Lines(Join(["a\r"])) == ["a"]
  {
    JoinCons("a\r", []);
    assert ["a\r"] == ["a\r"] + [];
    assert Join(["a\r"]) == "a\r" + ['\n'] + [];
    LinesCons("a\r", []);
    assert StripCR("a\r") == "a";
  }

  // ---------------------------------------------------------------------
  // The splitter used by the socket server: String.split("\\r?\\n")

  /** Every piece between '\n' characters, one '\r' dropped before each '\n';
      a text with k newlines has k + 1 pieces. */
  function Pieces(t: string): (ps: seq<string>)
    ensures |ps| >= 1
    decreases |t|
  {
    var n := IndexOf(t, '\n', 0);
    if n < 0 then [t] else [StripCR(t[..n])] + Pieces(t[n + 1..])
  }

  function DropTrailingEmpty(ps: seq<string>): (r: seq<string>)
    ensures |r| <= |ps| && r == ps[..|r|]
    ensures r == [] || r[|r| - 1] != []
    ensures forall k :: |r| <= k < |ps| ==> ps[k] == []
  {
    if ps == [] then []
    else if ps[|ps| - 1] == [] then DropTrailingEmpty(ps[..|ps| - 1])
    else ps
  }

  /** String.split with the pattern "\\r?\\n": a text without any match is
      returned whole (so "" gives [""]); otherwise the pieces, with trailing
      empty strings removed. */
  function SplitFrame(t: string): (ls: seq<string>)
  {
    if '\n' !in t then [t] else DropTrailingEmpty(Pieces(t))
  }

  lemma PiecesCons(a: string, b: string)
    requires '\n' !in a
    ensures Pieces(a + ['\n'] + b) == [StripCR(a)] + Pieces(b)
  {
    var t := a + ['\n'] + b;
    var n := IndexOf(t, '\n', 0);
    assert t[|a|] == '\n';
    assert forall k :: 0 <= k < |a| ==> t[k] == a[k];
    assert n == |a|;
    assert t[..n] == a;
    assert t[n + 1..] == b;
  }

  /** A frame built by Join cuts into its lines and one final "" after
      the last '\n'. */
  lemma {:induction false} PiecesJoin(ls: seq<string>)
    requires forall i :: 0 <= i < |ls| ==> WireSafe(ls[i])
    ensures Pieces(Join(ls)) == ls + [[]]
    decreases |ls|
  {
    if ls != [] {
      PiecesJoinStep(ls);
      PiecesJoin(ls[1..]);
      ConsAppend(ls, [[]]);
    } else {
      PiecesEmpty();
    }
  }

  lemma PiecesEmpty()
    ensures Pieces(Join([])) == [[]]
  {
    assert IndexOf([], '\n', 0) < 0;
  }

  lemma PiecesJoinStep(ls: seq<string>)
    requires ls != [] && WireSafe(ls[0])
    ensures Pieces(Join(ls)) == [ls[0]] + Pieces(Join(ls[1..]))
  {
    assert Join(ls) == ls[0] + ['\n'] + Join(ls[1..]);
    PiecesCons(ls[0], Join(ls[1..]));
    StripCRWireSafe(ls[0]);
  }

  /** The socket server reads a frame built by Join as its lines without
      the trailing empty ones. */
  lemma SplitFrameJoin(ls: seq<string>)
    requires ls != []
    requires forall i :: 0 <= i < |ls| ==> WireSafe(ls[i])
    ensures SplitFrame(Join(ls)) == DropTrailingEmpty(ls)
  {
    JoinHasNewline(ls);
    PiecesJoin(ls);
    DropTrailingEmptyAppend(ls);
  }

  lemma JoinHasNewline(ls: seq<string>)
    requires ls != []
    ensures '\n' in Join(ls)
  {
    var t := Join(ls);
    assert t[|t| - 1] == '\n';
  }

  lemma DropTrailingEmptyAppend(ps: seq<string>)
    ensures DropTrailingEmpty(ps + [[]]) == DropTrailingEmpty(ps)
  {
    var q := ps + [[]];
    assert q[|q| - 1] == [];
    assert q[..|q| - 1] == ps;
  }

  /** So a frame whose last message is empty loses that message on the way
      to the socket server: the client's frame "S\nid\n0\n0\n\n" carries
      one empty message and splits into four lines. */
  lemma SplitFrameDropsEmptyLast(ls: seq<string>)
    requires ls != [] && ls[|ls| - 1] == []
    requires forall i :: 0 <= i < |ls| ==> WireSafe(ls[i])
    ensures |SplitFrame(Join(ls))| < |ls|
  {
    SplitFrameJoin(ls);
  }

  // ---------------------------------------------------------------------
  // The reader used by the polling servlet: BufferedReader.readLine

  function IndexOfBreak(s: string, from: nat): (r: int)
    requires from <= |s|
    ensures r == -1 || (from <= r < |s| && (s[r] == '\n' || s[r] == '\r'))
    ensures r == -1 ==> forall k :: from <= k < |s| ==> s[k] != '\n' && s[k] != '\r'
    ensures r != -1 ==> forall k :: from <= k < r ==> s[k] != '\n' && s[k] != '\r'
    decreases |s| - from
  {
    if from == |s| then -1
    else if s[from] == '\n' || s[from] == '\r' then from
    else IndexOfBreak(s, from + 1)
  }

  /** Successive results of readLine until it returns null: a line ends at
      '\n', at '\r', or at "\r\n". */
  function ReaderLines(t: string): (ls: seq<string>)
    decreases |t|
  {
    if t == [] then []
    else
      var n := IndexOfBreak(t, 0);
      if n < 0 then [t]
      else
        var next := if t[n] == '\r' && n + 1 < |t| && t[n + 1] == '\n' then n + 2 else n + 1;
        [t[..n]] + ReaderLines(t[next..])
  }

  lemma ReaderLinesCons(a: string, b: string)
    requires WireSafe(a)
    ensures ReaderLines(a + ['\n'] + b) == [a] + ReaderLines(b)
  {
    var t := a + ['\n'] + b;
    var n := IndexOfBreak(t, 0);
    assert t[|a|] == '\n';
    assert forall k :: 0 <= k < |a| ==> t[k] == a[k] && t[k] != '\r' && t[k] != '\n';
    assert n == |a|;
    assert t[..n] == a;
    assert t[n + 1..] == b;
  }

  /** readLine gives back exactly the lines a body was built from. */
  lemma {:induction false} ReaderLinesJoin(ls: seq<string>)
    requires forall i :: 0 <= i < |ls| ==> WireSafe(ls[i])
    ensures ReaderLines(Join(ls)) == ls
    decreases |ls|
  {
    if ls != [] {
      ReaderLinesCons(ls[0], Join(ls[1..]));
      ReaderLinesJoin(ls[1..]);
      assert ls == [ls[0]] + ls[1..];
    }
  }

  /** readLine also ends a line at a lone '\r', so "a\rb" is read as two lines. */
  lemma ReaderSplitsAtCR()
    ensures ReaderLines("a\rb\n") == ["a", "b"]
  {
    var t := "a\rb\n";
    assert IndexOfBreak(t, 1) == 1;
    assert IndexOfBreak(t, 0) == 1;
    assert t[..1] == "a" && t[2..] == "b\n";
    var u := "b\n";
    assert IndexOfBreak(u, 1) == 1;
    assert IndexOfBreak(u, 0) == 1;
    assert u[..1] == "b" && u[2..] == [];
    assert ReaderLines(u) == ["b"];
    assert ReaderLines(t) == ["a"] + ReaderLines(u);
  }

  // ---------------------------------------------------------------------
  // Counters as decimal text (Long.toString, Long.parseLong, Integer.parseInt)

  const LongMin: int := -0x8000_0000_0000_0000
  const LongMax: int := 0x7fff_ffff_ffff_ffff
  const IntMin: int := -0x8000_0000
  const IntMax: int := 0x7fff_ffff

  predicate IsDigit(c: char) { '0' <= c <= '9' }

  predicate AllDigits(s: string) { forall i :: 0 <= i < |s| ==> IsDigit(s[i]) }

  function DigitChar(d: nat): (c: char)
    requires d < 10
    ensures IsDigit(c) && c as int - '0' as int == d
  {
    (('0' as int) + d) as char
  }

  /** Decimal digits of `n`, without leading zeros. */
  function NatToString(n: nat): (s: string)
    ensures |s| >= 1 && AllDigits(s)
    ensures |s| > 1 ==> s[0] != '0'
    decreases n
  {
    if n < 10 then [DigitChar(n)] else NatToString(n / 10) + [DigitChar(n % 10)]
  }

  /** How StringBuilder.append(long) writes a counter. */
  function IntToString(n: int): (s: string)
    ensures WireSafe(s) && s != []
  {
    var d := if n < 0 then "-" + NatToString(-n) else NatToString(n);
    assert forall i :: 0 <= i < |d| ==> d[i] != '\n' && d[i] != '\r' by {
      if n < 0 {
        forall i | 1 <= i < |d| ensures IsDigit(d[i]) { assert d[i] == NatToString(-n)[i - 1]; }
      }
    }
    d
  }

  /** The value of a run of decimal digits; None when a character is not a
      digit. */
  function DigitsValue(s: string): (r: Option<nat>)
    ensures r.Some? && s != [] ==> IsDigit(s[0])
    ensures r.Some? <==> AllDigits(s)
    decreases |s|
  {
    if s == [] then Some(0)
    else
      match DigitsValue(s[..|s| - 1])
      case None => None
      case Some(v) =>
        if IsDigit(s[|s| - 1]) then Some(v * 10 + (s[|s| - 1] as int - '0' as int)) else None
  }

  /** Long.parseLong / Integer.parseInt with the range [lo, hi]: an optional
      sign, then at least one digit, and the value within the range;
      anything else is a NumberFormatException. */
  function ParseInteger(s: string, lo: int, hi: int): (r: Option<int>)
    ensures r.Some? ==> lo <= r.value <= hi
    ensures r.Some? ==> s != [] && (s[0] == '-' || s[0] == '+' || IsDigit(s[0]))
    ensures r.Some? ==> var digits := if s[0] == '-' || s[0] == '+' then s[1..] else s;
                        digits != [] && AllDigits(digits)
  {
    if s == [] then None
    else
      var digits := if s[0] == '-' || s[0] == '+' then s[1..] else s;
      if digits == [] then None
      else
        match DigitsValue(digits)
        case None => None
        case Some(magnitude) =>
          var m: int := magnitude;
          var v := if s[0] == '-' then -m else m;
          if lo <= v <= hi then Some(v) else None
  }

  function ParseLong(s: string): Option<int> { ParseInteger(s, LongMin, LongMax) }

  function ParseInt(s: string): Option<int> { ParseInteger(s, IntMin, IntMax) }

  lemma {:induction false} DigitsRoundTrip(n: nat)
    ensures DigitsValue(NatToString(n)) == Some(n)
    decreases n
  {
    if n >= 10 {
      DigitsRoundTrip(n / 10);
      var s := NatToString(n);
      assert s[..|s| - 1] == NatToString(n / 10);
    }
  }

  /** Round trip: a counter written by append(long) is read back by
      parseLong (or parseInt, when it fits in an int). */
  lemma ParseIntegerRoundTrip(n: int, lo: int, hi: int)
    requires lo <= n <= hi
    ensures ParseInteger(IntToString(n), lo, hi) == Some(n)
  {
    var s := IntToString(n);
    if n < 0 {
      DigitsRoundTrip(-n);
      assert s[1..] == NatToString(-n);
    } else {
      DigitsRoundTrip(n);
      assert s[0] == NatToString(n)[0];
    }
  }

  // ---------------------------------------------------------------------
  // Polling bodies

  /** The counters and messages a polling body carries, in either
      direction: the received counter, the sent counter, then one message
      per line. */
  datatype CounterBody = CounterBody(received: int, sent: int, msgs: seq<string>)

  /** The body text as the StringBuilder code writes it: every line,
      the last one included, ended by '\n'. */
  function BodyText(b: CounterBody): string
  {
    Join([IntToString(b.received), IntToString(b.sent)] + b.msgs)
  }
}
