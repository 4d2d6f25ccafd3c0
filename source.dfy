/**
 * asm/src/source.rs: spans of source text, a source file with its line
 * table, the lookups from offsets and spans to lines and columns, and the
 * `SliceView` cursor.  Offsets count characters; the Rust code counts
 * bytes, which agree for ASCII text.
 */
module Source {
  import opened Wrappers
  import Cursor

  /** `Span`: the offsets `start..end` of a piece of text. */
  datatype Span = Span(start: nat, end: nat)
  {
    /** What `Span::new` asserts. */
    predicate Valid()
    {
      start <= end
    }

    /** `len` */
    function Len(): (n: nat)
      requires Valid()
      ensures start + n == end
    {
      end - start
    }

    /** `contains(other)`: `other` lies within this span. */
    predicate Contains(other: Span)
    {
      start <= other.start && other.end <= end
    }

    /** `contains_pos(pos)`: inclusive at both ends. */
    predicate ContainsPos(pos: nat)
    {
      start <= pos <= end
    }

    /**
     * `subspan(range)`: `range.start` is an offset into this span and
     * `range.end` the length of the piece taken from there.
     */
    function Subspan(r: Span): (s: Span)
      requires Valid() && r.Valid() && r.start + r.end <= Len()
      ensures s.Valid() && Contains(s) && s.Len() == r.end
      ensures s.start == start + r.start
    {
      Span(start + r.start, start + r.start + r.end)
    }
  }

  /** `Span::new(start, end)`, which asserts `start <= end`. */
  function NewSpan(start: nat, end: nat): (s: Span)
    requires start <= end
    ensures s.Valid() && s.Len() == end - start
  {
    Span(start, end)
  }

  lemma ContainsReflexive(a: Span)
    ensures a.Contains(a)
  {
  }

  lemma ContainsTransitive(a: Span, b: Span, c: Span)
    requires a.Contains(b) && b.Contains(c)
    ensures a.Contains(c)
  {
  }

  /** A span contains another exactly when it contains both its ends. */
  lemma ContainsByEnds(a: Span, b: Span)
    requires b.Valid()
    ensures a.Contains(b) <==> a.ContainsPos(b.start) && a.ContainsPos(b.end)
  {
  }

  // ---------------------------------------------------------------------
  // The line table.

  /** The first `'\n'` at or after `from`, or the end of the text. */
  function NextNewline(s: string, from: nat): (e: nat)
    requires from <= |s|
    ensures from <= e <= |s|
    ensures e < |s| ==> s[e] == '\n'
    ensures forall i | from <= i < e :: s[i] != '\n'
    decreases |s| - from
  {
    if from == |s| || s[from] == '\n' then from else NextNewline(s, from + 1)
  }

  /** The number of `'\n'` characters at or after `from`. */
  function Newlines(s: string, from: nat): nat
    requires from <= |s|
    decreases |s| - from
  {
    if from == |s| then 0 else (if s[from] == '\n' then 1 else 0) + Newlines(s, from + 1)
  }

  /** The spans of the lines from offset `start` on, as `split("\n")` cuts them. */
  function LinesFrom(s: string, start: nat): (lines: seq<Span>)
    requires start <= |s|
    ensures |lines| > 0 && lines[0].start == start && lines[|lines| - 1].end == |s|
    decreases |s| - start
  {
    var e := NextNewline(s, start);
    if e == |s| then [Span(start, e)] else [Span(start, e)] + LinesFrom(s, e + 1)
  }

  /** `parse_to_lines(source)` */
  function ParseToLines(source: string): (lines: seq<Span>)
    ensures |lines| > 0 && lines[0].start == 0 && lines[|lines| - 1].end == |source|
  {
    LinesFrom(source, 0)
  }

  /** Lines laid end to end: each in bounds, free of newlines, and separated by exactly one. */
  ghost predicate Tiles(s: string, lines: seq<Span>)
  {
    InBounds(s, lines) && NoNewlines(s, lines) && EndAtNewlines(s, lines) && Adjacent(lines)
  }

  ghost predicate InBounds(s: string, lines: seq<Span>)
  {
    forall k | 0 <= k < |lines| :: lines[k].Valid() && lines[k].end <= |s|
  }

  ghost predicate NoNewlines(s: string, lines: seq<Span>)
  {
    forall k | 0 <= k < |lines| :: forall i | lines[k].start <= i < lines[k].end && i < |s| :: s[i] != '\n'
  }

  ghost predicate EndAtNewlines(s: string, lines: seq<Span>)
  {
    forall k | 0 <= k < |lines| - 1 :: lines[k].end < |s| && s[lines[k].end] == '\n'
  }

  ghost predicate Adjacent(lines: seq<Span>)
  {
    forall k | 0 <= k < |lines| - 1 :: lines[k].end + 1 == lines[k + 1].start
  }

  lemma NewlinesSkip(s: string, from: nat, e: nat)
    requires from <= e <= |s| && forall i | from <= i < e :: s[i] != '\n'
    ensures Newlines(s, from) == Newlines(s, e)
    decreases e - from
  {
    if from < e {
      NewlinesSkip(s, from + 1, e);
    }
  }

  /** Putting a line ending at a newline in front of a tiling of the rest of the text. */
  lemma TilesCons(s: string, line: Span, rest: seq<Span>)
    requires Tiles(s, rest) && |rest| > 0
    requires line.Valid() && line.end < |s| && s[line.end] == '\n' && line.end + 1 == rest[0].start
    requires forall i | line.start <= i < line.end :: s[i] != '\n'
    ensures Tiles(s, [line] + rest)
  {
    var lines := [line] + rest;
    assert forall k | 1 <= k < |lines| :: lines[k] == rest[k - 1];
    assert InBounds(s, lines);
    assert NoNewlines(s, lines);
    assert EndAtNewlines(s, lines);
    assert Adjacent(lines);
  }

  lemma {:induction false} LinesFromTiles(s: string, start: nat)
    requires start <= |s|
    ensures Tiles(s, LinesFrom(s, start))
    decreases |s| - start
  {
    var e := NextNewline(s, start);
    if e < |s| {
      LinesFromTiles(s, e + 1);
      TilesCons(s, Span(start, e), LinesFrom(s, e + 1));
    } else {
      TilesOne(s, Span(start, e));
    }
  }

  lemma TilesOne(s: string, line: Span)
    requires line.Valid() && line.end <= |s|
    requires forall i | line.start <= i < line.end :: s[i] != '\n'
    ensures Tiles(s, [line])
  {
  }

  lemma {:induction false} LinesFromCount(s: string, start: nat)
    requires start <= |s|
    ensures |LinesFrom(s, start)| == Newlines(s, start) + 1
    decreases |s| - start
  {
    var e := NextNewline(s, start);
    NewlinesSkip(s, start, e);
    if e < |s| {
      LinesFromCount(s, e + 1);
      assert Newlines(s, e) == 1 + Newlines(s, e + 1);
      assert LinesFrom(s, start) == [Span(start, e)] + LinesFrom(s, e + 1);
    } else {
      assert LinesFrom(s, start) == [Span(start, e)];
    }
  }

  /**
   * The lines of a text: one more than it has newlines; the first starts
   * at 0, the last ends at the end of the text, and each ends where the
   * newline before the next one stands.
   */
  lemma ParseToLinesShape(source: string)
    ensures |ParseToLines(source)| == Newlines(source, 0) + 1
    ensures Tiles(source, ParseToLines(source))
  {
    LinesFromTiles(source, 0);
    LinesFromCount(source, 0);
  }

  // ---------------------------------------------------------------------
  // Files.

  /** `LineColumn`: both 1-based. */
  datatype LineColumn = LineColumn(line: nat, column: nat)

  /** `File`: a name, the text and its line table. */
  datatype File = File(name: string, source: string, lines: seq<Span>)
  {
    /** The line table is the one `File::new` computes. */
    ghost predicate Valid()
    {
      lines == ParseToLines(source) && Tiles(source, lines)
    }

    /** `line_count` */
    function LineCount(): nat
    {
      |lines|
    }

    /** `get_source_line(line)`: the text of line `line`, counted from 1. */
    function GetSourceLine(line: nat): (r: Option<string>)
      requires Valid()
      ensures r.Some? <==> 1 <= line <= LineCount()
      ensures r.Some? ==> r.value == source[lines[line - 1].start..lines[line - 1].end]
      ensures r.Some? ==> forall i | 0 <= i < |r.value| :: r.value[i] != '\n'
    {
      if line > 0 && line < |lines| + 1 then
        var span := lines[line - 1];
        Some(source[span.start..span.end])
      else None
    }

    /** `get_source_str(span)`: the text of a span within the file. */
    function GetSourceStr(span: Span): (r: Option<string>)
      requires span.Valid()
      ensures r.Some? <==> span.end <= |source|
      ensures r.Some? ==> (|r.value| == span.Len() &&
                           forall i | 0 <= i < |r.value| :: r.value[i] == source[span.start + i])
    {
      if Span(0, |source|).Contains(span) then Some(source[span.start..span.end]) else None
    }

    /** `get_source_ref(span)`, under the same condition as `get_source_str`. */
    function GetSourceRef(span: Span): (r: Option<SourceRef>)
      ensures r.Some? <==> span.end <= |source|
      ensures r.Some? ==> r.value.file == this && r.value.span == span
    {
      if Span(0, |source|).Contains(span) then Some(SourceRef(this, span)) else None
    }

    /** `get_line_span(line)`: counted from 0. */
    function GetLineSpan(line: nat): (r: Option<Span>)
      ensures r.Some? <==> line < LineCount()
      ensures r.Some? ==> r.value == lines[line]
    {
      if line < |lines| then Some(lines[line]) else None
    }

    /**
     * `lookup_by_index(index)`: the first line whose span contains `index`
     * (ends included), with the column counted from 1 within it.
     */
    function LookupByIndex(index: nat): (r: Option<LineColumn>)
      ensures r.Some? <==> exists k | 0 <= k < |lines| :: lines[k].ContainsPos(index)
      ensures r.Some? ==> (1 <= r.value.line <= |lines| &&
                           lines[r.value.line - 1].ContainsPos(index) &&
                           (forall k | 0 <= k < r.value.line - 1 :: !lines[k].ContainsPos(index)) &&
                           r.value.column == index - lines[r.value.line - 1].start + 1)
    {
      match Position(lines, index)
      case None => None
      case Some(k) => Some(LineColumn(k + 1, index - lines[k].start + 1))
    }

    /** `lookup_by_span(span)`: the locations of both ends. */
    function LookupBySpan(span: Span): (r: Option<(LineColumn, LineColumn)>)
      ensures r.Some? <==> LookupByIndex(span.start).Some? && LookupByIndex(span.end).Some?
      ensures r.Some? ==> r.value == (LookupByIndex(span.start).value, LookupByIndex(span.end).value)
    {
      match LookupByIndex(span.start)
      case None => None
      case Some(begin) =>
        match LookupByIndex(span.end)
        case None => None
        case Some(end) => Some((begin, end))
    }
  }

  /** `File::new(name, source)` */
  function NewFile(name: string, source: string): (f: File)
    ensures f.Valid() && f.name == name && f.source == source
  {
    ParseToLinesShape(source);
    File(name, source, ParseToLines(source))
  }

  /** `SourceRef::new(file, span)`; the origin of a macro expansion is not modelled. */
  datatype SourceRef = SourceRef(file: File, span: Span)

  /** `iter().position(|line| line.contains_pos(index))` */
  function Position(lines: seq<Span>, index: nat): (r: Option<nat>)
    ensures r.Some? <==> exists k | 0 <= k < |lines| :: lines[k].ContainsPos(index)
    ensures r.Some? ==> (r.value < |lines| && lines[r.value].ContainsPos(index) &&
                         forall k | 0 <= k < r.value :: !lines[k].ContainsPos(index))
  {
    if |lines| == 0 then None
    else if lines[0].ContainsPos(index) then Some(0)
    else
      match Position(lines[1..], index)
      case None =>
        assert forall k | 1 <= k < |lines| :: lines[k] == lines[1..][k - 1];
        None
      case Some(k) =>
        assert lines[1..][k] == lines[k + 1];
        assert forall j | 1 <= j < k + 1 :: lines[j] == lines[1..][j - 1];
        Some(k + 1)
  }

  /**
   * Every offset of a file's text, up to and including its end, has a
   * location; an offset past the end has none.  An offset where a newline
   * stands belongs to the line that newline ends.
   */
  lemma {:induction false} LookupTotal(f: File, index: nat)
    requires f.Valid()
    ensures f.LookupByIndex(index).Some? <==> index <= |f.source|
  {
    var lines := f.lines;
    ParseToLinesShape(f.source);
    if index <= |f.source| {
      var k := LineOf(lines, index);
    } else {
      assert forall k | 0 <= k < |lines| :: !lines[k].ContainsPos(index);
    }
  }

  /** A line of a tiling holding a given offset. */
  lemma {:induction false} LineOf(lines: seq<Span>, index: nat) returns (k: nat)
    requires |lines| > 0 && lines[0].start == 0 && index <= lines[|lines| - 1].end
    requires forall j | 0 <= j < |lines| :: lines[j].Valid()
    requires forall j | 0 <= j < |lines| - 1 :: lines[j].end + 1 == lines[j + 1].start
    ensures k < |lines| && lines[k].ContainsPos(index)
    decreases |lines|
  {
    if index <= lines[0].end {
      k := 0;
    } else {
      var tail := lines[1..];
      assert forall j | 0 <= j < |tail| - 1 :: tail[j].end + 1 == tail[j + 1].start by {
        forall j | 0 <= j < |tail| - 1
          ensures tail[j].end + 1 == tail[j + 1].start
        {
          assert tail[j] == lines[j + 1] && tail[j + 1] == lines[j + 2];
        }
      }
      assert |tail| > 0 by {
        if |lines| == 1 {
          assert false;
        }
      }
      var shifted := ShiftedTail(lines);
      var j := LineOf(shifted, index - lines[1].start);
      k := j + 1;
      assert lines[k].start == shifted[j].start + lines[1].start;
    }
  }

  /** The lines after the first, renumbered so that the second starts at 0. */
  function ShiftedTail(lines: seq<Span>): (t: seq<Span>)
    requires |lines| > 1 && forall j | 0 <= j < |lines| :: lines[j].Valid()
    requires forall j | 0 <= j < |lines| - 1 :: lines[j].end + 1 == lines[j + 1].start
    ensures |t| == |lines| - 1 && t[0].start == 0 && forall j | 0 <= j < |t| :: t[j].Valid()
    ensures forall j | 0 <= j < |t| :: t[j].start + lines[1].start == lines[j + 1].start
    ensures forall j | 0 <= j < |t| :: t[j].end + lines[1].start == lines[j + 1].end
    ensures forall j | 0 <= j < |t| - 1 :: t[j].end + 1 == t[j + 1].start
  {
    StartsGrow(lines);
    seq(|lines| - 1, j requires 0 <= j < |lines| - 1 =>
      Span(lines[j + 1].start - lines[1].start, lines[j + 1].end - lines[1].start))
  }

  /** In a tiling of valid spans, every line after the first starts no earlier than the second. */
  lemma StartsGrow(lines: seq<Span>)
    requires |lines| > 1 && forall j | 0 <= j < |lines| :: lines[j].Valid()
    requires forall j | 0 <= j < |lines| - 1 :: lines[j].end + 1 == lines[j + 1].start
    ensures forall j | 1 <= j < |lines| :: lines[j].start >= lines[1].start && lines[j].end >= lines[1].start
  {
    forall j | 1 <= j < |lines|
      ensures lines[j].start >= lines[1].start
    {
      StartFrom(lines, j);
    }
  }

  lemma {:induction false} StartFrom(lines: seq<Span>, j: nat)
    requires 1 <= j < |lines| && forall k | 0 <= k < |lines| :: lines[k].Valid()
    requires forall k | 0 <= k < |lines| - 1 :: lines[k].end + 1 == lines[k + 1].start
    ensures lines[j].start >= lines[1].start
    decreases j
  {
    if j > 1 {
      StartFrom(lines, j - 1);
      assert lines[j - 1].end + 1 == lines[j].start;
    }
  }

  // ---------------------------------------------------------------------
  // `SliceView`

  class SliceView<T> {
    var slice: seq<T>

    /** `SliceView::from(slice)` */
    constructor (s: seq<T>)
      ensures slice == s
    {
      slice := s;
    }

    /** `peek(n)`: the element `n` places ahead, if there is one. */
    function Peek(n: nat): (r: Option<T>)
      reads this
      ensures r.Some? <==> n < |slice|
      ensures r.Some? ==> r.value == slice[n]
    {
      if n < |slice| then Some(slice[n]) else None
    }

    /** `first_if(pred)`: the first element, when it satisfies `pred`. */
    function FirstIf(pred: T -> bool): (r: Option<T>)
      reads this
      ensures r.Some? <==> |slice| > 0 && pred(slice[0])
      ensures r.Some? ==> r.value == slice[0]
    {
      if |slice| > 0 && pred(slice[0]) then Some(slice[0]) else None
    }

    /** `drop_first`: the first element, which the view then moves past. */
    method DropFirst() returns (r: Option<T>)
      modifies this
      ensures r.None? <==> old(slice) == []
      ensures r.Some? ==> old(slice) == [r.value] + slice
      ensures r.None? ==> slice == old(slice)
    {
      if |slice| == 0 {
        return None;
      }
      r := Some(slice[0]);
      slice := slice[1..];
    }

    /** `drop_first_if(pred)`: `drop_first` when the first element satisfies `pred`. */
    method DropFirstIf(pred: T -> bool) returns (r: Option<T>)
      modifies this
      ensures r.Some? <==> old(slice) != [] && pred(old(slice)[0])
      ensures r.Some? ==> old(slice) == [r.value] + slice
      ensures r.None? ==> slice == old(slice)
    {
      if |slice| == 0 || !pred(slice[0]) {
        return None;
      }
      r := Some(slice[0]);
      slice := slice[1..];
    }

    /**
     * `drop_while(pred)` as evidently intended: the view moves past the
     * longest prefix satisfying `pred`, which it returns.
     */
    method DropWhile(pred: T -> bool) returns (dropped: seq<T>)
      modifies this
      ensures dropped + slice == old(slice)
      ensures forall i | 0 <= i < |dropped| :: pred(dropped[i])
      ensures slice != [] ==> !pred(slice[0])
    {
      var s := slice;
      var index := 0;
      while |slice| > 0 && pred(slice[0])
        invariant index <= |s| && slice == s[index..]
        invariant forall i | 0 <= i < index :: pred(s[i])
        decreases |slice|
      {
        var _ := DropFirst();
        index := index + 1;
      }
      dropped := s[..index];
      assert dropped + slice == s;
    }
  }

  /**
   * What `drop_while` returns as written, `&slice[0..index + 1]`: one
   * element more than it dropped, and a panic when it dropped everything.
   */
  function DropWhileAsWritten<T>(s: seq<T>, pred: T -> bool): (r: Outcome<seq<T>>)
  {
    var index := Cursor.PrefixWhile(s, pred);
    if index + 1 <= |s| then Normal(s[..index + 1]) else Panic
  }

  predicate BelowTwo(x: int)
  {
    x < 2
  }

  /** The returned slice contains the first element that failed `pred`, and an empty view panics. */
  lemma DropWhileAsWrittenWrong()
    ensures DropWhileAsWritten([1, 2, 3], BelowTwo) == Normal([1, 2])
    ensures DropWhileAsWritten([], BelowTwo) == Panic
  {
    assert Cursor.PrefixWhile([1, 2, 3], BelowTwo) == 1 by {
      Cursor.PrefixWhileUnique([1, 2, 3], BelowTwo, 1);
    }
    assert [1, 2, 3][..2] == [1, 2];
  }
}
