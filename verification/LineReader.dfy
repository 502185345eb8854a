/**
 The chunked log reader of internal/conntail: each poll reads a bounded snapshot
 of a growing file through a line buffer of fixed size. The specification cuts
 the whole text into lines at once; the reader is proved to hand over the same
 lines however the growth of the file is split into polls.
 */
module LineReader {

  const MAX_LINE: nat := 16384   // buffer size of the reader, newline included
  const MAX_POLL: nat := 1048576 // most bytes one poll looks at

  predicate HasNewline(s: string) { '\n' in s }

  /** Index of the first newline. */
  function Newline(s: string): (i: nat)
    requires HasNewline(s)
    ensures i < |s| && s[i] == '\n' && !HasNewline(s[..i])
  {
    if s[0] == '\n' then 0 else
      assert s == [s[0]] + s[1..];
      var i := 1 + Newline(s[1..]);
      assert s[..i] == [s[0]] + s[1..][..i - 1];
      i
  }

  /** The text after the last newline. */
  function Rest(s: string): (r: string)
    ensures |r| <= |s|
  {
    if s == [] || s[|s| - 1] == '\n' then [] else Rest(s[..|s| - 1]) + [s[|s| - 1]]
  }

  /** The complete lines of a text that fit the line buffer, in order, each with its newline. */
  function Handed(s: string): seq<string> {
    if s == [] then []
    else
      var t := s[..|s| - 1];
      if s[|s| - 1] == '\n' && |Rest(t)| < MAX_LINE then Handed(t) + [Rest(t) + ['\n']] else Handed(t)
  }

  /** Every complete line of a text, whatever its length. */
  function Lines(s: string): seq<string> {
    if s == [] then []
    else
      var t := s[..|s| - 1];
      if s[|s| - 1] == '\n' then Lines(t) + [Rest(t) + ['\n']] else Lines(t)
  }

  function Concat(lines: seq<string>): string {
    if lines == [] then [] else Concat(lines[..|lines| - 1]) + lines[|lines| - 1]
  }

  function Fitting(lines: seq<string>): seq<string> {
    if lines == [] then []
    else
      var n := |lines| - 1;
      Fitting(lines[..n]) + (if |lines[n]| <= MAX_LINE then [lines[n]] else [])
  }

  /** A line is one newline after text that has none. */
  predicate IsLine(l: string) {
    l != [] && l[|l| - 1] == '\n' && !HasNewline(l[..|l| - 1])
  }

  /** The specification is the ordinary one: lines and tail make up the text, and the fitting lines are handed over. */
  lemma {:induction false} LinesPartition(s: string)
    ensures Concat(Lines(s)) + Rest(s) == s && !HasNewline(Rest(s))
    ensures Handed(s) == Fitting(Lines(s))
  {
    if s != [] {
      var t := s[..|s| - 1];
      assert s == t + [s[|s| - 1]];
      LinesPartition(t);
      if s[|s| - 1] == '\n' {
        assert Lines(s)[..|Lines(s)| - 1] == Lines(t);
      }
    }
  }

  lemma {:induction false} LinesAreLines(s: string)
    ensures forall i :: 0 <= i < |Lines(s)| ==> IsLine(Lines(s)[i])
  {
    if s != [] {
      var t := s[..|s| - 1];
      LinesAreLines(t);
      LinesPartition(t);
      if s[|s| - 1] == '\n' {
        var l := Rest(t) + ['\n'];
        assert l[..|l| - 1] == Rest(t);
      }
    }
  }

  lemma OneMore(t: string, ch: char)
    requires ch != '\n'
    ensures Handed(t + [ch]) == Handed(t) && Rest(t + [ch]) == Rest(t) + [ch]
  {
    assert (t + [ch])[..|t + [ch]| - 1] == t;
  }

  lemma Cons(a: string, x: string)
    requires x != []
    ensures a + x == (a + [x[0]]) + x[1..]
    ensures !HasNewline(x) ==> x[0] != '\n' && !HasNewline(x[1..])
  {
    assert x[0] in x;
  }

  /** Text without a newline changes only the incomplete tail. */
  lemma {:induction false} ExtendTail(s: string, x: string)
    requires !HasNewline(x)
    ensures Handed(s + x) == Handed(s) && Rest(s + x) == Rest(s) + x
    decreases |x|
  {
    if x == [] {
      assert s + x == s && Rest(s) + x == Rest(s);
    } else {
      Cons(s, x);
      Cons(Rest(s), x);
      OneMore(s, x[0]);
      ExtendTail(s + [x[0]], x[1..]);
    }
  }

  /** A newline completes the tail: the whole line is handed over exactly when it fits. */
  lemma {:induction false} NewlineStep(t: string)
    ensures Rest(t + ['\n']) == []
    ensures Handed(t + ['\n']) == if |Rest(t)| < MAX_LINE then Handed(t) + [Rest(t) + ['\n']] else Handed(t)
  {
    assert (t + ['\n'])[..|t + ['\n']| - 1] == t;
  }

  /** A whole line arrives. */
  lemma {:induction false} LineEnds(s: string, y: string)
    requires !HasNewline(y)
    ensures Rest(s + y + ['\n']) == []
    ensures Handed(s + y + ['\n']) ==
            if |Rest(s)| + |y| < MAX_LINE then Handed(s) + [Rest(s) + y + ['\n']] else Handed(s)
  {
    ExtendTail(s, y);
    NewlineStep(s + y);
  }

  /** Cutting off the incomplete tail loses no line. */
  lemma {:induction false} TailCut(s: string)
    ensures Handed(s[..|s| - |Rest(s)|]) == Handed(s) && Rest(s[..|s| - |Rest(s)|]) == []
  {
    if s != [] && s[|s| - 1] != '\n' {
      TailCut(s[..|s| - 1]);
      assert s[..|s| - 1][..|s| - |Rest(s)|] == s[..|s| - |Rest(s)|];
    } else {
      assert s[..|s|] == s;
    }
  }

  /** One call of the buffered reader on the unread part of the snapshot. */
  datatype Slice = Line(text: string) | BufferFull(text: string) | EndOfFile(text: string)

  function ReadSlice(unread: string): (r: Slice)
    ensures |r.text| <= |unread| && r.text == unread[..|r.text|]
    ensures r.Line? ==> 0 < |r.text| <= MAX_LINE
    ensures r.BufferFull? ==> |r.text| == MAX_LINE
    ensures r.EndOfFile? ==> |r.text| < MAX_LINE && r.text == unread
  {
    if HasNewline(unread) && Newline(unread) < MAX_LINE then Line(unread[..Newline(unread) + 1])
    else if |unread| >= MAX_LINE then BufferFull(unread[..MAX_LINE])
    else EndOfFile(unread)
  }

  /** A line ends with its only newline; the other two outcomes hold none. */
  lemma ReadSliceParts(unread: string)
    ensures var r := ReadSlice(unread);
            if r.Line? then r.text == r.text[..|r.text| - 1] + ['\n'] && !HasNewline(r.text[..|r.text| - 1])
            else !HasNewline(r.text)
  {
    if HasNewline(unread) {
      var n := Newline(unread);
      if n < MAX_LINE {
        assert unread[..n + 1][..n] == unread[..n];
      } else {
        assert unread[..MAX_LINE] == unread[..n][..MAX_LINE];
      }
    }
  }

  /** Position in a file whose first `seen` bytes have been processed. */
  datatype Cursor = Cursor(offset: nat, skipping: bool)

  /** The cursor and the lines handed over are those of the text itself; no poll boundary shows. */
  ghost predicate Follows(c: Cursor, lines: seq<string>, text: string) {
    && lines == Handed(text)
    && if c.skipping then c.offset == |text| && |Rest(text)| >= MAX_LINE
       else c.offset == |text| - |Rest(text)| && |Rest(text)| < MAX_LINE
  }

  /** Where a reader that followed this text stands: before the open line, or past it once it is too long. */
  ghost function Position(text: string): int {
    if |Rest(text)| >= MAX_LINE then |text| else |text| - |Rest(text)|
  }

  /** Inside a poll: everything before the offset is settled. */
  ghost predicate Settled(skipping: bool, lines: seq<string>, before: string) {
    lines == Handed(before) && if skipping then |Rest(before)| >= MAX_LINE else Rest(before) == []
  }

  lemma {:induction false} GrowthSettles(c: Cursor, lines: seq<string>, text: string)
    requires Follows(c, lines, text)
    ensures Settled(c.skipping, lines, text[..c.offset])
  {
    if c.skipping {
      assert text[..c.offset] == text;
    } else {
      TailCut(text);
    }
  }

  lemma {:induction false} LineSettles(skipping: bool, lines: seq<string>, before: string, y: string)
    requires Settled(skipping, lines, before) && !HasNewline(y) && |y| < MAX_LINE
    ensures Settled(false, if skipping then lines else lines + [y + ['\n']], before + y + ['\n'])
  {
    LineEnds(before, y);
    assert [] + y == y;
  }

  lemma {:induction false} FullSettles(skipping: bool, lines: seq<string>, before: string, part: string)
    requires Settled(skipping, lines, before) && !HasNewline(part) && |part| >= MAX_LINE
    ensures Settled(true, lines, before + part)
  {
    ExtendTail(before, part);
  }

  lemma {:induction false} EndFollows(skipping: bool, lines: seq<string>, before: string, part: string)
    requires Settled(skipping, lines, before) && !HasNewline(part) && |part| < MAX_LINE
    ensures Follows(Cursor(if skipping then |before + part| else |before|, skipping), lines, before + part)
  {
    ExtendTail(before, part);
  }

  /** What one call of the reader does to the cursor and to the lines handed over. */
  function After(c: Cursor, slice: Slice): Cursor {
    match slice
    case BufferFull(part) => Cursor(c.offset + |part|, true)
    case Line(line) => Cursor(c.offset + |line|, false)
    case EndOfFile(part) => if c.skipping then c.(offset := c.offset + |part|) else c
  }

  function Given(c: Cursor, lines: seq<string>, slice: Slice): seq<string> {
    if slice.Line? && !c.skipping then lines + [slice.text] else lines
  }

  lemma Regroup(a: string, b: string, c: string)
    ensures a + b + c == a + (b + c)
  {
  }

  lemma LineCase(c: Cursor, lines: seq<string>, before: string, y: string)
    requires Settled(c.skipping, lines, before) && !HasNewline(y) && |y| < MAX_LINE
    ensures Settled(false, Given(c, lines, Line(y + ['\n'])), before + (y + ['\n']))
  {
    Regroup(before, y, ['\n']);
    LineSettles(c.skipping, lines, before, y);
  }

  /**
   One call of the reader on what is unread behind `before`: a settled reader stays
   settled, and at the end it follows the whole text.
   */
  lemma SliceSettles(c: Cursor, lines: seq<string>, before: string, unread: string, slice: Slice)
    requires slice == ReadSlice(unread) && c.offset == |before| && Settled(c.skipping, lines, before)
    ensures if slice.EndOfFile? then Follows(After(c, slice), Given(c, lines, slice), before + unread)
            else Settled(After(c, slice).skipping, Given(c, lines, slice), before + slice.text)
  {
    ReadSliceParts(unread);
    match slice {
      case Line(line) => LineCase(c, lines, before, line[..|line| - 1]);
      case BufferFull(part) => FullSettles(c.skipping, lines, before, part);
      case EndOfFile(part) => EndFollows(c.skipping, lines, before, part);
    }
  }

  // ---------------------------------------------------------------- where reading started

  /** Text of an overlong line without its end. */
  function Junk(): (j: string)
    ensures |j| == MAX_LINE && !HasNewline(j)
  {
    seq(MAX_LINE, i => 'x')
  }

  /**
   What the reader has been following since it last started over: from which offset,
   after what (nothing, or the inside of an overlong line), with which lines handed
   over before.
   */
  datatype View = View(base: nat, lead: string, earlier: seq<string>)

  /** The text the reader is following in a file. */
  function Followed(v: View, text: string): string
    requires v.base <= |text|
  {
    v.lead + text[v.base..]
  }

  predicate Within(v: View, c: Cursor, lines: seq<string>, text: string) {
    v.base <= c.offset <= |text| && |v.earlier| <= |lines| && lines[..|v.earlier|] == v.earlier
  }

  /** The cursor as a position in the followed text, and the lines handed over since. */
  function Shifted(v: View, c: Cursor): Cursor
    requires v.base <= c.offset
  {
    Cursor(|v.lead| + c.offset - v.base, c.skipping)
  }

  /** The reader is where one that read the followed text at once would be. */
  ghost predicate Tracks(v: View, c: Cursor, lines: seq<string>, text: string) {
    Within(v, c, lines, text) && Follows(Shifted(v, c), lines[|v.earlier|..], Followed(v, text))
  }

  ghost predicate Clear(v: View, c: Cursor, lines: seq<string>, text: string) {
    && Within(v, c, lines, text)
    && Settled(c.skipping, lines[|v.earlier|..], v.lead + text[v.base..c.offset])
  }

  /** The lines handed over are those from before and those of the followed text. */
  lemma TracksLines(v: View, c: Cursor, lines: seq<string>, text: string)
    requires Tracks(v, c, lines, text)
    ensures lines == v.earlier + Handed(Followed(v, text))
  {
    assert lines == lines[..|v.earlier|] + lines[|v.earlier|..];
  }

  /** A reader may start anywhere with nothing followed yet. */
  lemma StartsAnywhere(lines: seq<string>, text: string)
    ensures Tracks(View(|text|, "", lines), Cursor(|text|, false), lines, text)
  {
    assert "" + text[|text|..] == "" && lines[..|lines|] == lines && lines[|lines|..] == [];
  }

  /** It may also start inside a line that is skipped to its end. */
  lemma StartsSkipping(lines: seq<string>, text: string)
    ensures Tracks(View(|text|, Junk(), lines), Cursor(|text|, true), lines, text)
  {
    assert Junk() + text[|text|..] == Junk() && lines[..|lines|] == lines && lines[|lines|..] == [];
    ExtendTail("", Junk());
    assert "" + Junk() == Junk();
  }

  /** Behind a line end, text is cut into lines as if it stood alone. */
  ghost predicate Splits(a: string, z: string) {
    Handed(a + z) == Handed(a) + Handed(z) && Rest(a + z) == Rest(z)
  }

  lemma SplitsOneMore(a: string, y: string, ch: char)
    requires Splits(a, y)
    ensures Splits(a, y + [ch])
  {
    Regroup(a, y, [ch]);
    if ch == '\n' {
      NewlineStep(a + y);
      NewlineStep(y);
    } else {
      OneMore(a + y, ch);
      OneMore(y, ch);
    }
  }

  lemma {:induction false} BreakSplits(a: string, z: string)
    requires Rest(a) == []
    ensures Splits(a, z)
    decreases |z|
  {
    if z == [] {
      assert a + z == a;
    } else {
      BreakSplits(a, z[..|z| - 1]);
      SplitsOneMore(a, z[..|z| - 1], z[|z| - 1]);
      assert z == z[..|z| - 1] + [z[|z| - 1]];
    }
  }

  lemma JunkHandsNothing(y: string)
    requires !HasNewline(y)
    ensures Handed(Junk() + y) == [] && |Rest(Junk() + y)| >= MAX_LINE
    ensures Handed(Junk() + y + ['\n']) == [] && Rest(Junk() + y + ['\n']) == []
  {
    ExtendTail("", Junk());
    assert "" + Junk() == Junk();
    ExtendTail(Junk(), y);
    NewlineStep(Junk() + y);
  }

  lemma CutAtNewline(text: string)
    requires HasNewline(text)
    ensures var n := Newline(text); text == text[..n] + (['\n'] + text[n + 1..])
  {
  }

  lemma SkippedLine(y: string, z: string)
    requires !HasNewline(y)
    ensures Handed(Junk() + (y + (['\n'] + z))) == Handed(z)
  {
    JunkHandsNothing(y);
    BreakSplits(Junk() + y + ['\n'], z);
    Regroup(Junk(), y, ['\n'] + z);
    Regroup(Junk() + y, ['\n'], z);
  }

  /** Started inside a line, the reader hands over exactly the fitting lines behind that line's end. */
  lemma SkippingMeaning(text: string)
    ensures Handed(Junk() + text) == if HasNewline(text) then Handed(text[Newline(text) + 1..]) else []
  {
    if HasNewline(text) {
      CutAtNewline(text);
      SkippedLine(text[..Newline(text)], text[Newline(text) + 1..]);
    } else {
      JunkHandsNothing(text);
    }
  }

  /** The followed text is what is settled followed by what is unread. */
  lemma FollowedAt(v: View, text: string, at: nat)
    requires v.base <= at <= |text|
    ensures Followed(v, text) == v.lead + text[v.base..at] + text[at..]
    ensures |v.lead + text[v.base..at]| == |v.lead| + at - v.base
  {
  }

  lemma FollowedUpTo(v: View, text: string, at: nat)
    requires v.base <= at <= |text|
    ensures Followed(v, text)[..|v.lead| + at - v.base] == v.lead + text[v.base..at]
  {
  }

  lemma FollowedNext(v: View, text: string, at: nat, n: nat)
    requires v.base <= at && at + n <= |text|
    ensures v.lead + text[v.base..at] + text[at..][..n] == v.lead + text[v.base..at + n]
  {
  }

  /** Growth since the last poll leaves the part before the cursor alone. */
  lemma GrowthClears(v: View, c: Cursor, lines: seq<string>, seen: string, text: string)
    requires Tracks(v, c, lines, seen) && |seen| <= |text| && text[..|seen|] == seen
    ensures Clear(v, c, lines, text)
  {
    GrowthSettles(Shifted(v, c), lines[|v.earlier|..], Followed(v, seen));
    FollowedUpTo(v, seen, c.offset);
    assert seen[v.base..c.offset] == text[v.base..c.offset];
  }

  /** The lines given by one call, seen from where reading started. */
  lemma GivenSince(v: View, c: Cursor, lines: seq<string>, slice: Slice)
    requires v.base <= c.offset && |v.earlier| <= |lines| && lines[..|v.earlier|] == v.earlier
    ensures var given := Given(c, lines, slice);
            && |v.earlier| <= |given| && given[..|v.earlier|] == v.earlier
            && given[|v.earlier|..] == Given(Shifted(v, c), lines[|v.earlier|..], slice)
    ensures Shifted(v, After(c, slice)) == After(Shifted(v, c), slice)
  {
  }

  /** One call of the reader, wherever reading started. */
  lemma SliceClears(v: View, c: Cursor, lines: seq<string>, text: string, slice: Slice)
    requires Clear(v, c, lines, text) && slice == ReadSlice(text[c.offset..])
    ensures if slice.EndOfFile? then Tracks(v, After(c, slice), Given(c, lines, slice), text)
            else Clear(v, After(c, slice), Given(c, lines, slice), text)
  {
    FollowedAt(v, text, c.offset);
    FollowedNext(v, text, c.offset, |slice.text|);
    GivenSince(v, c, lines, slice);
    SliceSettles(Shifted(v, c), lines[|v.earlier|..], v.lead + text[v.base..c.offset], text[c.offset..], slice);
  }

  // ---------------------------------------------------------------- polls

  /** The file as one poll finds it. */
  datatype Found = Missing | Present(inode: nat, text: string)

  class Tailer {
    const maxLogBytes: int
    var inode: nat
    var cursor: Cursor
    var lines: seq<string> // every line handed to the parser
    ghost var view: View

    /** The reader starts at the present end of the file, so as not to replay it. */
    constructor (inode: nat, size: nat, maxLogBytes: int)
      ensures cursor == Cursor(size, false) && lines == [] && this.inode == inode && this.maxLogBytes == maxLogBytes
      ensures view == View(size, "", [])
      ensures forall text: string :: |text| == size ==> Tracks(view, cursor, lines, text)
    {
      this.maxLogBytes := maxLogBytes;
      this.inode, cursor, lines, view := inode, Cursor(size, false), [], View(size, "", []);
      forall text: string | |text| == size
        ensures Tracks(View(size, "", []), Cursor(size, false), [], text)
      {
        StartsAnywhere([], text);
      }
    }

    /** Reads the snapshot to its end. */
    method ReadLines(text: string)
      requires cursor.offset <= |text|
      modifies this`cursor, this`lines
      ensures cursor.offset <= |text|
      ensures old(Clear(view, cursor, lines, text)) ==> Tracks(view, cursor, lines, text)
    {
      ghost var clean := Clear(view, cursor, lines, text);
      var done := false;
      while !done
        invariant cursor.offset <= |text|
        invariant clean ==> if done then Tracks(view, cursor, lines, text) else Clear(view, cursor, lines, text)
        decreases |text| - cursor.offset, !done
      {
        done := ReadOne(text, clean);
      }
    }

    /** One call of the reader; it makes progress unless the snapshot is at its end. */
    method ReadOne(text: string, ghost clean: bool) returns (done: bool)
      requires cursor.offset <= |text|
      requires clean ==> Clear(view, cursor, lines, text)
      modifies this`cursor, this`lines
      ensures old(cursor.offset) <= cursor.offset <= |text| && (!done ==> old(cursor.offset) < cursor.offset)
      ensures clean ==> if done then Tracks(view, cursor, lines, text) else Clear(view, cursor, lines, text)
    {
      var slice := ReadSlice(text[cursor.offset..]);
      if clean {
        SliceClears(view, cursor, lines, text, slice);
      }
      TakeSlice(slice);
      done := slice.EndOfFile?;
    }

    /** What the reading loop does with one result of the reader. */
    method TakeSlice(slice: Slice)
      modifies this`cursor, this`lines
      ensures cursor == After(old(cursor), slice) && lines == Given(old(cursor), old(lines), slice)
    {
      if slice.Line? && !cursor.skipping {
        lines := lines + [slice.text];
      }
      if slice.BufferFull? {
        cursor := Cursor(cursor.offset + |slice.text|, true);
      } else if slice.Line? {
        cursor := Cursor(cursor.offset + |slice.text|, false);
      } else if cursor.skipping {
        cursor := cursor.(offset := cursor.offset + |slice.text|);
      }
    }

    /** The file was replaced or shrank. */
    predicate Rotated(found: Found)
      reads this
    {
      found.Present? && (found.inode != inode || |found.text| < cursor.offset)
    }

    /** More is unread than one poll looks at. */
    predicate Backlog(found: Found)
      reads this
    {
      found.Present? && |found.text| - (if Rotated(found) then 0 else cursor.offset) > MAX_POLL
    }

    /** Reading starts over with this poll: where, and after what. */
    ghost function Restart(found: Found, enabled: bool): View
      requires found.Present?
      reads this
    {
      if !enabled then View(|found.text|, "", lines)
      else if Backlog(found) then View(|found.text| - MAX_POLL, Junk(), lines)
      else if Rotated(found) then View(0, "", lines)
      else view
    }

    /** The file continues what was seen, or reading starts over anyway. */
    ghost predicate Continues(found: Found, enabled: bool, seen: string)
      reads this
    {
      found.Present? &&
      (!enabled || Rotated(found) || Backlog(found) || (Tracks(view, cursor, lines, seen) && seen <= found.text))
    }

    /**
     One poll of a file. The offset never passes the observed size. If the file grew
     since `seen`, or was replaced, switched off or too far behind, the reader stands
     where one that read the followed text at once would stand.
     */
    method Poll(found: Found, enabled: bool, truncates: bool, ghost seen: string) returns (emptied: bool)
      modifies this
      ensures found.Present? ==> cursor.offset <= |found.text|
      ensures found.Missing? ==> !emptied && cursor == old(cursor) && lines == old(lines) && view == old(view)
      ensures found.Present? ==> inode == found.inode
      ensures emptied ==> truncates && maxLogBytes > 0 && |found.text| >= maxLogBytes
      ensures old(Continues(found, enabled, seen)) ==> Tracks(view, cursor, lines, if emptied then "" else found.text)
      ensures found.Present? && !emptied ==>
        var size, replaced := |found.text|, old(inode) != found.inode || |found.text| < old(cursor.offset);
        view == if !enabled then View(size, "", old(lines))
                else if size - (if replaced then 0 else old(cursor.offset)) > 0x10_0000 then View(size - 0x10_0000, Junk(), old(lines))
                else if replaced then View(0, "", old(lines))
                else old(view)
    {
      emptied := false;
      if found.Missing? {
        return;
      }
      var text := found.text;
      ghost var clean := Continues(found, enabled, seen);
      ghost var start := Restart(found, enabled);
      if found.inode != inode || |text| < cursor.offset {
        StartsAnywhere(lines, "");
        inode, cursor := found.inode, Cursor(0, false);
      }
      if !enabled {
        StartsAnywhere(lines, text);
        cursor := Cursor(|text|, false);
        view := start;
      } else {
        ReadUnread(text, start, clean, if old(Rotated(found)) then "" else seen);
      }
      emptied := Truncate(text, truncates, clean);
    }

    /** The enabled half of a poll, once replacement of the file was noticed. */
    method ReadUnread(text: string, ghost start: View, ghost clean: bool, ghost seen: string)
      requires cursor.offset <= |text|
      requires |text| - cursor.offset > MAX_POLL ==> start == View(|text| - MAX_POLL, Junk(), lines)
      requires clean && |text| - cursor.offset <= MAX_POLL ==> Tracks(start, cursor, lines, seen) && seen <= text
      modifies this`cursor, this`lines, this`view
      ensures cursor.offset <= |text| && view == start
      ensures clean ==> Tracks(view, cursor, lines, text)
    {
      view := start;
      if |text| == cursor.offset {
        assert clean ==> seen == text;
        return;
      }
      if |text| - cursor.offset > MAX_POLL {
        cursor := Cursor(|text| - MAX_POLL, true);
        StartsSkipping(lines, text[..cursor.offset]);
        GrowthClears(view, cursor, lines, text[..cursor.offset], text);
      } else if clean {
        GrowthClears(view, cursor, lines, seen, text);
      }
      ReadLines(text);
    }

    /** A file at its size limit is emptied once it was read to the end. */
    method Truncate(text: string, truncates: bool, ghost clean: bool) returns (emptied: bool)
      requires cursor.offset <= |text| && (clean ==> Tracks(view, cursor, lines, text))
      modifies this`cursor, this`view
      ensures emptied ==> truncates && maxLogBytes > 0 && |text| >= maxLogBytes
      ensures cursor.offset <= |text| && (!emptied ==> cursor == old(cursor) && view == old(view))
      ensures emptied ==> Tracks(view, cursor, lines, "")
      ensures !emptied && clean ==> Tracks(view, cursor, lines, text)
    {
      emptied := maxLogBytes > 0 && |text| >= maxLogBytes && cursor.offset >= |text| && truncates;
      if emptied {
        cursor := cursor.(offset := 0);
        if cursor.skipping {
          StartsSkipping(lines, "");
          view := View(0, Junk(), lines);
        } else {
          StartsAnywhere(lines, "");
          view := View(0, "", lines);
        }
      }
    }

    /** Where a reader that followed this much of a file stands. */
    ghost function Reached(text: string): int
      requires view.base <= |text|
      reads this
    {
      view.base - |view.lead| + Position(Followed(view, text))
    }

    /** A reader that tracks a text stands exactly there. */
    lemma StandsAtReached(text: string)
      requires Tracks(view, cursor, lines, text)
      ensures cursor.offset == Reached(text)
    {
    }

    /**
     Any schedule of polls over one growing file, from wherever the reader stands, hands
     over the lines of the text behind its starting point.
     */
    method Follow(text: string, start: nat, sizes: seq<nat>)
      requires start <= |text| && Tracks(view, cursor, lines, text[..start])
      requires forall i :: 0 <= i < |sizes| ==> start <= sizes[i] <= |text|
      requires forall i, j :: 0 <= i < j < |sizes| ==> sizes[i] <= sizes[j]
      requires forall i :: 0 <= i < |sizes| ==> sizes[i] - Reached(text[..if i == 0 then start else sizes[i - 1]]) <= MAX_POLL
      modifies this
      ensures view == old(view) && inode == old(inode)
      ensures var last := if sizes == [] then start else sizes[|sizes| - 1];
              Tracks(view, cursor, lines, text[..last]) && lines == view.earlier + Handed(Followed(view, text[..last]))
    {
      ghost var seen := text[..start];
      for i := 0 to |sizes|
        invariant view == old(view) && inode == old(inode)
        invariant Tracks(view, cursor, lines, seen) && seen == text[..if i == 0 then start else sizes[i - 1]]
      {
        assert seen <= text[..sizes[i]] && (i > 0 ==> sizes[i - 1] <= sizes[i]);
        var emptied := Poll(Present(inode, text[..sizes[i]]), true, false, seen);
        seen := text[..sizes[i]];
      }
      TracksLines(view, cursor, lines, seen);
    }
  }
}
