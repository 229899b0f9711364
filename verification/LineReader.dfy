/** Line reassembly in the game-server wrapper: whatever way the output is cut into chunks, the same
  * lines are inspected.
  */
module LineReader {

  const CR: char := '\r'
  const LF: char := '\n'

  /** text.split(/\r?\n/). */
  function Split(s: string): (lines: seq<string>)
    ensures |lines| > 0
  {
    if s == [] then [[]]
    else if s[0] == LF then [[]] + Split(s[1..])
    else if s[0] == CR && |s| > 1 && s[1] == LF then [[]] + Split(s[2..])
    else Prepend(s[0], Split(s[1..]))
  }

  function Prepend(c: char, lines: seq<string>): (r: seq<string>)
    requires |lines| > 0
    ensures |r| == |lines|
  {
    [[c] + lines[0]] + lines[1..]
  }

  function Init(lines: seq<string>): seq<string>
    requires |lines| > 0
  {
    lines[..|lines| - 1]
  }

  function Last(lines: seq<string>): string
    requires |lines| > 0
  {
    lines[|lines| - 1]
  }

  function Joined(chunks: seq<string>): string {
    if chunks == [] then [] else Joined(chunks[..|chunks| - 1]) + chunks[|chunks| - 1]
  }

  // ----- Cutting the text anywhere -----

  lemma {:induction false} OneLine(s: string)
    requires |Split(s)| == 1
    ensures Split(s) == [s]
  {
    if s != [] {
      OneLine(s[1..]);
      assert [s[0]] + s[1..] == s;
    }
  }

  lemma PrependInit(c: char, lines: seq<string>, rest: seq<string>)
    requires |lines| > 1 && |rest| > 0
    ensures Init(Prepend(c, lines)) + rest == Prepend(c, Init(lines) + rest)
    ensures Last(Prepend(c, lines)) == Last(lines)
  {
  }

  /** Splitting can stop after any prefix and resume from its unfinished last line, even between the two
    * characters of a line end.
    */
  lemma {:induction false} SplitResumes(a: string, b: string)
    ensures Split(a + b) == Init(Split(a)) + Split(Last(Split(a)) + b)
    decreases |a|
  {
    if a == [] {
      assert a + b == b;
    } else if a[0] == LF {
      assert (a + b)[1..] == a[1..] + b;
      SplitResumes(a[1..], b);
    } else if a[0] == CR && |a| > 1 && a[1] == LF {
      assert (a + b)[2..] == a[2..] + b;
      SplitResumes(a[2..], b);
    } else if |Split(a)| == 1 {
      OneLine(a);
    } else {
      assert (a + b)[1..] == a[1..] + b;
      SplitResumes(a[1..], b);
      PrependInit(a[0], Split(a[1..]), Split(Last(Split(a[1..])) + b));
    }
  }

  // ----- What the lines are -----

  function Ending(cr: bool): string {
    if cr then [CR, LF] else [LF]
  }

  /** The lines with their ends put back; each flag says whether a line ended in CR LF or in LF alone. */
  function Weave(lines: seq<string>, crs: seq<bool>): string
    requires |lines| == |crs| + 1
  {
    if crs == [] then lines[0] else lines[0] + (Ending(crs[0]) + Weave(lines[1..], crs[1..]))
  }

  /** No line holds a line feed, and no carriage return is left before one. */
  predicate Proper(lines: seq<string>, crs: seq<bool>)
    requires |lines| == |crs| + 1
  {
    && (forall i :: 0 <= i < |lines| ==> LF !in lines[i])
    && (forall i :: 0 <= i < |crs| && !crs[i] && lines[i] != [] ==> lines[i][|lines[i]| - 1] != CR)
  }

  lemma {:induction false} SplitPlain(s: string)
    requires LF !in s
    ensures Split(s) == [s]
  {
    if s != [] {
      SplitPlain(s[1..]);
      assert [s[0]] + s[1..] == s;
    }
  }

  lemma {:induction false} SplitLine(line: string, cr: bool, rest: string)
    requires LF !in line && (!cr && line != [] ==> line[|line| - 1] != CR)
    ensures Split(line + (Ending(cr) + rest)) == [line] + Split(rest)
  {
    var s := line + (Ending(cr) + rest);
    if line == [] {
      assert s[|Ending(cr)|..] == rest;
    } else {
      assert s[1..] == line[1..] + (Ending(cr) + rest);
      SplitLine(line[1..], cr, rest);
      assert [line[0]] + line[1..] == line;
    }
  }

  /** Splitting undoes every proper way of writing lines one after the other. */
  lemma {:induction false} SplitWeave(lines: seq<string>, crs: seq<bool>)
    requires |lines| == |crs| + 1 && Proper(lines, crs)
    ensures Split(Weave(lines, crs)) == lines
    decreases |crs|
  {
    if crs == [] {
      SplitPlain(lines[0]);
    } else {
      SplitWeave(lines[1..], crs[1..]);
      SplitLine(lines[0], crs[0], Weave(lines[1..], crs[1..]));
    }
  }

  /** Which lines of a text end in CR LF. */
  function Returns(s: string): (crs: seq<bool>)
    ensures |crs| + 1 == |Split(s)|
  {
    if s == [] then []
    else if s[0] == LF then [false] + Returns(s[1..])
    else if s[0] == CR && |s| > 1 && s[1] == LF then [true] + Returns(s[2..])
    else Returns(s[1..])
  }

  lemma WeaveEmpty(lines: seq<string>, crs: seq<bool>, cr: bool)
    requires |lines| == |crs| + 1 && Proper(lines, crs)
    ensures Proper([[]] + lines, [cr] + crs)
    ensures Weave([[]] + lines, [cr] + crs) == Ending(cr) + Weave(lines, crs)
  {
  }

  lemma ProperPrepend(c: char, lines: seq<string>, crs: seq<bool>)
    requires |lines| == |crs| + 1 && Proper(lines, crs) && c != LF
    requires c == CR && crs != [] && !crs[0] ==> lines[0] != []
    ensures Proper(Prepend(c, lines), crs)
  {
  }

  lemma WeavePrepend(c: char, lines: seq<string>, crs: seq<bool>)
    requires |lines| == |crs| + 1
    ensures Weave(Prepend(c, lines), crs) == [c] + Weave(lines, crs)
    ensures crs != [] && !crs[0] && lines[0] == [] ==> Weave(lines, crs) != [] && Weave(lines, crs)[0] == LF
  {
  }

  /** And it loses nothing: the lines and their ends make up the text. */
  lemma {:induction false} WeaveSplit(s: string)
    ensures Proper(Split(s), Returns(s)) && Weave(Split(s), Returns(s)) == s
    decreases |s|
  {
    if s == [] {
    } else if s[0] == LF {
      WeaveSplit(s[1..]);
      WeaveEmpty(Split(s[1..]), Returns(s[1..]), false);
      assert s == Ending(false) + s[1..];
    } else if s[0] == CR && |s| > 1 && s[1] == LF {
      WeaveSplit(s[2..]);
      WeaveEmpty(Split(s[2..]), Returns(s[2..]), true);
      assert s == Ending(true) + s[2..];
    } else {
      WeaveSplit(s[1..]);
      WeavePrepend(s[0], Split(s[1..]), Returns(s[1..]));
      ProperPrepend(s[0], Split(s[1..]), Returns(s[1..]));
      assert s == [s[0]] + s[1..];
    }
  }

  // ----- The reader -----

  /** forwardAndInspect: passes every chunk on unchanged and inspects complete lines. */
  class Reader {
    var remainder: string
    var forwarded: seq<string>
    var inspected: seq<string>

    /** Whatever the chunks, the inspected lines and the remainder are the lines of the whole text. */
    predicate Valid()
      reads this
    {
      inspected + [remainder] == Split(Joined(forwarded))
    }

    constructor ()
      ensures Valid() && forwarded == [] && inspected == [] && remainder == ""
    {
      remainder, forwarded, inspected := "", [], [];
    }

    method OnData(chunk: string)
      requires Valid()
      modifies this
      ensures Valid()
      ensures forwarded == old(forwarded) + [chunk]
      ensures old(inspected) <= inspected
    {
      Continues(forwarded, chunk, inspected, remainder);
      forwarded := forwarded + [chunk];
      var lines := Split(remainder + chunk);
      FedNext(inspected, lines);
      remainder, lines := lines[|lines| - 1], lines[..|lines| - 1];
      Inspect(lines);
    }

    /** Hands every complete line on, in order. */
    method Inspect(lines: seq<string>)
      modifies this`inspected
      ensures inspected == old(inspected) + lines
    {
      var i := 0;
      while i < |lines|
        invariant 0 <= i <= |lines|
        invariant inspected == old(inspected) + lines[..i]
      {
        inspected := inspected + [lines[i]];
        i := i + 1;
      }
      assert lines[..i] == lines;
    }
  }

  lemma Continues(chunks: seq<string>, chunk: string, inspected: seq<string>, remainder: string)
    requires inspected + [remainder] == Split(Joined(chunks))
    ensures Split(Joined(chunks + [chunk])) == inspected + Split(remainder + chunk)
  {
    assert (chunks + [chunk])[..|chunks|] == chunks;
    SplitResumes(Joined(chunks), chunk);
    assert Init(inspected + [remainder]) == inspected;
  }

  /** The lines a reader has inspected after a sequence of chunks, and what remains. */
  function Fed(chunks: seq<string>): (seq<string>, string) {
    if chunks == [] then ([], [])
    else
      var before := Fed(chunks[..|chunks| - 1]);
      var lines := Split(before.1 + chunks[|chunks| - 1]);
      (before.0 + Init(lines), Last(lines))
  }

  lemma FedNext(inspected: seq<string>, lines: seq<string>)
    requires |lines| > 0
    ensures inspected + Init(lines) + [Last(lines)] == inspected + lines
  {
  }

  /** A reader holds the lines of everything it was fed. */
  lemma {:induction false} FedIsSplit(chunks: seq<string>)
    ensures Fed(chunks).0 + [Fed(chunks).1] == Split(Joined(chunks))
  {
    if chunks != [] {
      var init, chunk := chunks[..|chunks| - 1], chunks[|chunks| - 1];
      var (lines, remainder) := Fed(init);
      FedIsSplit(init);
      assert init + [chunk] == chunks;
      Continues(init, chunk, lines, remainder);
      FedNext(lines, Split(remainder + chunk));
    }
  }

  /** Chunk invariance: two ways of cutting one text lead to the same lines and the same remainder. */
  lemma ChunksDoNotMatter(chunks: seq<string>, others: seq<string>)
    requires Joined(chunks) == Joined(others)
    ensures Fed(chunks) == Fed(others)
  {
    FedIsSplit(chunks);
    FedIsSplit(others);
    var lines := Split(Joined(chunks));
    assert Fed(chunks).0 == Init(lines) && Fed(others).0 == Init(lines);
    assert Fed(chunks).1 == Last(lines) && Fed(others).1 == Last(lines);
  }
}
