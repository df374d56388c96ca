/**
 * The repair script for an unterminated triple-quoted string
 * (`fix_syntax.fix_file`). The file's text is a parameter and the text it
 * writes back, if any, is returned; the progress messages it prints are not
 * modelled.
 */
module FixSyntax {
  import opened Wrappers
  import opened Strings

  const QUOTES: string := "\"\"\""

  function SumCounts(lines: seq<string>): nat
  {
    if |lines| == 0 then 0 else Count(lines[0], QUOTES) + SumCounts(lines[1..])
  }

  /** No `"""` spans a newline, so counting across one adds the counts on either side. */
  lemma {:induction false} CountAcrossNewline(a: string, b: string)
    ensures Count(a + "\n" + b, QUOTES) == Count(a, QUOTES) + Count(b, QUOTES)
    decreases |a|
  {
    var s := a + "\n" + b;
    if |a| == 0 {
      assert s[1..] == b;
      if |s| >= 3 {
        assert s[..3][0] == '\n';
      }
    } else if |a| >= 3 && a[..3] == QUOTES {
      assert s[..3] == a[..3];
      assert s[3..] == a[3..] + "\n" + b;
      CountAcrossNewline(a[3..], b);
    } else {
      assert s[1..] == a[1..] + "\n" + b;
      CountAcrossNewline(a[1..], b);
      if |s| >= 3 && |a| < 3 {
        assert s[..3][|a|] == '\n';
      } else if |a| >= 3 {
        assert s[..3] == a[..3];
      }
      if |a| < 3 {
        assert Count(a, QUOTES) == 0 && Count(a[1..], QUOTES) == 0;
      }
    }
  }

  /** The whole text holds as many `"""` as its lines together. */
  lemma {:induction false} CountJoin(lines: seq<string>)
    requires |lines| >= 1
    ensures Count(Join(lines, "\n"), QUOTES) == SumCounts(lines)
  {
    if |lines| > 1 {
      CountJoin(lines[1..]);
      CountAcrossNewline(lines[0], Join(lines[1..], "\n"));
    }
  }

  lemma {:induction false} SumCountsAppend(a: seq<string>, b: seq<string>)
    ensures SumCounts(a + b) == SumCounts(a) + SumCounts(b)
  {
    if |a| == 0 {
      assert a + b == b;
    } else {
      assert (a + b)[1..] == a[1..] + b;
      SumCountsAppend(a[1..], b);
    }
  }

  lemma {:induction false} JoinAppend(lines: seq<string>, last: string)
    requires |lines| >= 1
    ensures Join(lines + [last], "\n") == Join(lines, "\n") + "\n" + last
  {
    if |lines| == 1 {
      assert (lines + [last])[1..] == [last];
    } else {
      assert (lines + [last])[1..] == lines[1..] + [last];
      JoinAppend(lines[1..], last);
    }
  }

  /**
   * `fix_file` on a file holding `content`: with an even number of `"""`
   * nothing is written and the result is false. Otherwise the lines are
   * walked, flipping the open flag once per `"""`; the flag then ends open,
   * so a closing `"""` line is appended, the text written back is the
   * original followed by a newline and `"""`, and the result is true.
   */
  method FixFile(content: string) returns (fixed: bool, written: Option<string>)
    ensures fixed <==> Count(content, QUOTES) % 2 != 0
    ensures !fixed ==> written == None
    ensures fixed ==> written == Some(content + "\n" + QUOTES)
  {
    var total := Count(content, QUOTES);
    if total % 2 == 0 {
      return false, None;
    }
    var lines := Split(content, '\n');
    var fixedContent: seq<string> := [];
    var stringOpen := false;
    var i := 0;
    while i < |lines|
      invariant 0 <= i <= |lines|
      invariant fixedContent == lines[..i]
      invariant stringOpen <==> SumCounts(lines[..i]) % 2 == 1
    {
      var line := lines[i];
      // `"""` in line` only guards the count, which is 0 otherwise
      var count := Count(line, QUOTES);
      var k := 0;
      while k < count
        invariant 0 <= k <= count
        invariant stringOpen <==> (SumCounts(lines[..i]) + k) % 2 == 1
      {
        stringOpen := !stringOpen;
        k := k + 1;
      }
      SumCountsAppend(lines[..i], [line]);
      assert lines[..i + 1] == lines[..i] + [line];
      fixedContent := fixedContent + [line];
      i := i + 1;
    }
    assert lines[..i] == lines;
    CountJoin(lines);
    JoinSplit(content, '\n');
    if stringOpen {
      fixedContent := fixedContent + [QUOTES];
    }
    JoinAppend(lines, QUOTES);
    written := Some(Join(fixedContent, "\n"));
    fixed := true;
  }

  /** Appending a closing line adds exactly one `"""`. */
  lemma ClosingLineAddsOne(content: string)
    ensures Count(content + "\n" + QUOTES, QUOTES) == Count(content, QUOTES) + 1
  {
    CountAcrossNewline(content, QUOTES);
    assert QUOTES[3..] == [];
  }

  /** After a repair the file holds an even number of `"""`, so a second run rewrites nothing. */
  method FixTwice(content: string) returns (first: bool, second: bool)
    ensures first <==> Count(content, QUOTES) % 2 != 0
    ensures !second
  {
    var written;
    first, written := FixFile(content);
    var next := if written.Some? then written.value else content;
    ClosingLineAddsOne(content);
    second, written := FixFile(next);
  }
}
