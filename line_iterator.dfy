/** LineIterator: reads a frame line by line. The cursor is the pair
    (index, line): `line` is the line `next` will return and `index` the
    position where the line after it starts. */
module LineIterators {
  import opened Common
  import opened Wire

  /** The lines of a possibly null text; null gives none. */
  function LinesOf(text: Option<string>): seq<string>
  {
    if text.Some? then Lines(text.value) else []
  }

  /** The splitter from a position `i` with no '\n' after it: one line. */
  lemma LinesFromLast(t: string, i: nat)
    requires 0 < i < |t| && IndexOf(t, '\n', i) < 0
    ensures Lines(t[i..]) == [t[i..]]
  {
    assert '\n' !in t[i..];
    LinesSingle(t[i..]);
  }

  /** The splitter from a position `i` whose next '\n' is at `n`: the line
      up to `n` and the lines after it. */
  lemma LinesFromCut(t: string, i: nat, n: int)
    requires 0 < i < |t| && n == IndexOf(t, '\n', i) && n >= 0
    ensures Lines(t[i..]) == [StripCR(t[i..n])] + Lines(t[n + 1..])
  {
    var a, b := t[i..n], t[n + 1..];
    assert t[i..] == a + ['\n'] + b;
    assert '\n' !in a;
    LinesCons(a, b);
  }

  /** The lines of `t` from position `i` on, cut where the iterator cuts
      them: at each '\n', leaving out a '\r' just before it. */
  function LinesAt(t: string, i: nat): seq<string>
    requires i <= |t|
    decreases |t| - i
  {
    if i == |t| then []
    else
      var n := IndexOf(t, '\n', i);
      if n < 0 then [t[i..]] else [StripCR(t[i..n])] + LinesAt(t, n + 1)
  }

  /** Cutting from a position `i` inside the text is cutting the suffix
      from `i`. */
  lemma {:induction false} LinesAtSuffix(t: string, i: nat)
    requires 0 < i <= |t|
    ensures LinesAt(t, i) == Lines(t[i..])
    decreases |t| - i
  {
    if i < |t| {
      var n := IndexOf(t, '\n', i);
      if n >= 0 {
        LinesAtCut(t, i, n);
        LinesAtSuffix(t, n + 1);
        LinesFromCut(t, i, n);
      } else {
        LinesAtLast(t, i);
        LinesFromLast(t, i);
      }
    }
  }

  lemma LinesAtCut(t: string, i: nat, n: int)
    requires 0 < i < |t| && n == IndexOf(t, '\n', i) && n >= 0
    ensures LinesAt(t, i) == [StripCR(t[i..n])] + LinesAt(t, n + 1)
  {
  }

  lemma LinesAtLast(t: string, i: nat)
    requires 0 < i < |t| && IndexOf(t, '\n', i) < 0
    ensures LinesAt(t, i) == [t[i..]]
  {
  }

  /** Cutting from the start is cutting the whole text. */
  lemma LinesAtStart(t: string)
    ensures LinesAt(t, 0) == Lines(t)
  {
    if t != [] {
      var n := IndexOf(t, '\n', 0);
      if n < 0 {
        assert '\n' !in t;
        LinesSingle(t);
      } else {
        assert t == t[..n] + ['\n'] + t[n + 1..];
        assert '\n' !in t[..n];
        LinesCons(t[..n], t[n + 1..]);
        LinesAtSuffix(t, n + 1);
      }
    }
  }

  /** Reads the lines of a frame through the iterator until hasNext says
      there are none left. */
  method ReadAll(lit: LineIterator) returns (ls: seq<string>)
    requires lit.Valid()
    modifies lit
    ensures ls == old(lit.Remaining())
    ensures lit.Valid() && lit.Remaining() == []
  {
    ls := [];
    ghost var all := lit.Remaining();
    while lit.HasNext()
      invariant lit.Valid()
      invariant all == ls + lit.Remaining()
      decreases |lit.Remaining()|
    {
      ghost var rest := lit.Remaining();
      var l := lit.Next();
      ghost var rest' := lit.Remaining();
      assert rest == [l.value] + rest';
      ShiftOne(ls, l.value, rest');
      ls := ls + [l.value];
    }
  }

  /** The lines of a received text, read through a LineIterator. */
  method ReadLines(text: Option<string>) returns (ls: seq<string>)
    ensures ls == LinesOf(text)
  {
    var lit := new LineIterator(text);
    ls := ReadAll(lit);
  }

  class LineIterator {
    const text: Option<string>
    var index: nat
    var line: Option<string>

    function Text(): string
    {
      if text.Some? then text.value else []
    }

    /** The cursor is inside the text and the loaded line is a line. */
    ghost predicate Cursor()
      reads this
    {
      index <= |Text()| && (line.Some? ==> '\n' !in line.value)
    }

    /** ... and no line is missing: when none is loaded the text is used up. */
    ghost predicate Valid()
      reads this
    {
      Cursor() && (line.None? ==> index == |Text()|)
    }

    /** Lines not yet loaded into `line`. */
    ghost function Pending(): seq<string>
      reads this
      requires Cursor()
    {
      LinesAt(Text(), index)
    }

    /** Lines `next` will still return, in order. */
    ghost function Remaining(): seq<string>
      reads this
      requires Cursor()
    {
      (if line.Some? then [line.value] else []) + Pending()
    }

    constructor (text: Option<string>)
      ensures Valid() && this.text == text
      ensures Remaining() == LinesOf(text)
    {
      this.text := text;
      index := 0;
      line := None;
      new;
      LinesAtStart(Text());
      if text.Some? && text.value != [] {
        var _ := NextLine();
      }
    }

    /** Loads the line after the current one; with nothing left to load and
        no line loaded it throws (NullPointerException on a null text). */
    method NextLine() returns (r: Outcome)
      requires Cursor()
      modifies this`index, this`line
      ensures r == Done <==> old(index) < |Text()| || old(line).Some?
      ensures r == Done ==> Valid()
      ensures r == Done ==> Remaining() == old(Pending())
      ensures r.Threw? ==> unchanged(this) && r.fault == (if text.None? then NullText else NoSuchElement)
    {
      var t := Text();
      if index >= |t| {
        if line.Some? {
          line := None;
          return Done;
        } else {
          return Threw(if text.None? then NullText else NoSuchElement);
        }
      }
      var n := IndexOf(t, '\n', index);
      var newIdx: nat;
      if n >= 0 {
        ghost var x := t[index..n];
        // a '\r' directly before the '\n' is not part of the line
        if n > index {
          if t[n - 1] == '\r' {
            newIdx := n + 1;
            n := n - 1;
            assert x == t[index..n] + ['\r'];
          } else {
            newIdx := n + 1;
            assert x[|x| - 1] == t[n - 1];
          }
        } else {
          newIdx := n + 1;
        }
        assert StripCR(x) == t[index..n];
        assert '\n' !in t[index..n];
        line := Some(t[index..n]);
        index := newIdx;
      } else {
        assert '\n' !in t[index..];
        line := Some(t[index..]);
        index := |t|;
      }
      return Done;
    }

    function HasNext(): (b: bool)
      reads this
      requires Valid()
      ensures b <==> Remaining() != []
    {
      line.Some?
    }

    /** Returns the loaded line and loads the one after it; past the last
        line it throws. */
    method Next() returns (r: Result<string>)
      requires Valid()
      modifies this`index, this`line
      ensures Valid()
      ensures old(Remaining()) != [] ==> r == Ok(old(Remaining())[0]) && Remaining() == old(Remaining())[1..]
      ensures old(Remaining()) == [] ==>
        unchanged(this) && r == Err(if text.None? then NullText else NoSuchElement)
    {
      var s := line;
      var o := NextLine();
      if o.Threw? {
        return Err(o.fault);
      }
      return Ok(s.value);
    }
  }
}
