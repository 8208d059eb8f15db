/** Splitting the tokens of a command line at "|" into the argument vectors of its programs. */
module Splitter {
  import opened Runs

  const MAX_PROGRAMS := 10
  const MAX_ARGUMENTS := 10

  /** Index of the first bar, or the number of tokens. */
  function FirstBar(tokens: seq<string>): (n: nat)
    ensures n <= |tokens| && "|" !in tokens[..n]
    ensures n < |tokens| ==> tokens[n] == "|"
  {
    if tokens == [] || tokens[0] == "|" then 0
    else
      assert forall n :: 0 <= n < |tokens| ==> tokens[..n + 1] == [tokens[0]] + tokens[1..][..n];
      1 + FirstBar(tokens[1..])
  }

  /** The argument vectors, one a program. */
  function Segments(tokens: seq<string>): seq<seq<string>>
    decreases |tokens|
  {
    if tokens == [] then []
    else
      var n := FirstBar(tokens);
      [tokens[..n]] + if n == |tokens| then [] else Segments(tokens[n + 1..])
  }

  /** The command line that has these argument vectors, with a bar between each two. */
  function Join(segments: seq<seq<string>>): seq<string> {
    if segments == [] then []
    else if |segments| == 1 then segments[0]
    else segments[0] + ["|"] + Join(segments[1..])
  }

  predicate EndsInBar(tokens: seq<string>) { tokens != [] && tokens[|tokens| - 1] == "|" }

  lemma {:induction false} SegmentsHaveNoBar(tokens: seq<string>)
    ensures forall s :: s in Segments(tokens) ==> "|" !in s
    decreases |tokens|
  {
    if tokens != [] {
      var n := FirstBar(tokens);
      if n < |tokens| {
        SegmentsHaveNoBar(tokens[n + 1..]);
      }
    }
  }

  lemma JoinMore(first: seq<string>, rest: seq<seq<string>>)
    requires rest != []
    ensures Join([first] + rest) == first + ["|"] + Join(rest)
  {
    assert ([first] + rest)[1..] == rest;
  }

  /** The line without a bar at its very end. */
  function Trimmed(tokens: seq<string>): seq<string> {
    if EndsInBar(tokens) then tokens[..|tokens| - 1] else tokens
  }

  lemma TrimmedMore(first: seq<string>, rest: seq<string>)
    ensures rest != [] ==> Trimmed(first + ["|"] + rest) == first + ["|"] + Trimmed(rest)
    ensures Trimmed(first + ["|"]) == first
  {
  }

  lemma CutAt(tokens: seq<string>, n: nat)
    requires n < |tokens|
    ensures tokens == tokens[..n] + [tokens[n]] + tokens[n + 1..]
  {
  }

  lemma JoinStep(tokens: seq<string>)
    requires tokens != []
    ensures var n := FirstBar(tokens);
            Join(Segments(tokens)) ==
            if n == |tokens| then tokens
            else if n + 1 == |tokens| then tokens[..n]
            else tokens[..n] + ["|"] + Join(Segments(tokens[n + 1..]))
  {
    var n := FirstBar(tokens);
    var first := tokens[..n];
    SegmentsAre(tokens);
    hide Segments, FirstBar;
    if n == |tokens| {
      assert first == tokens;
    } else if n + 1 < |tokens| {
      var rest := tokens[n + 1..];
      SegmentsAre(rest);
      JoinMore(first, Segments(rest));
    }
  }

  lemma SegmentsAre(tokens: seq<string>)
    requires tokens != []
    ensures var n := FirstBar(tokens);
            && Segments(tokens) != []
            && Segments(tokens) == if n + 1 >= |tokens| then [tokens[..n]] else [tokens[..n]] + Segments(tokens[n + 1..])
  {
    hide FirstBar;
    var n := FirstBar(tokens);
    AppendNothing([tokens[..n]]);
    if n + 1 == |tokens| {
      AfterLast(tokens);
      EmptyRest();
    }
  }

  lemma AppendNothing<T>(s: seq<T>)
    ensures s + [] == s
  {
  }

  lemma AfterLast<T>(s: seq<T>)
    ensures s[|s|..] == []
  {
  }

  /** Joining gives the command line back, but for a bar at its very end. */
  lemma {:induction false} JoinSegments(tokens: seq<string>)
    ensures Join(Segments(tokens)) == Trimmed(tokens)
    decreases |tokens|
  {
    hide Join, Segments, Trimmed;
    JoinNothing();
    if tokens != [] {
      var n := FirstBar(tokens);
      JoinStep(tokens);
      if n == |tokens| {
        NoBarNoTrim(tokens);
      } else {
        var first, rest := tokens[..n], tokens[n + 1..];
        CutAt(tokens, n);
        TrimmedMore(first, rest);
        if rest != [] {
          JoinSegments(rest);
        } else {
          assert first + ["|"] + rest == first + ["|"];
        }
      }
    }
  }

  lemma JoinNothing()
    ensures Join(Segments([])) == [] == Trimmed([])
  {
  }

  lemma NoBarNoTrim(tokens: seq<string>)
    requires FirstBar(tokens) == |tokens|
    ensures Trimmed(tokens) == tokens
  {
    assert tokens[..|tokens|] == tokens;
    if tokens != [] { assert tokens[|tokens| - 1] in tokens; }
  }

  /** So the splitter loses nothing exactly when the line does not end in a bar. */
  lemma RoundTripIff(tokens: seq<string>)
    ensures Join(Segments(tokens)) == tokens <==> !EndsInBar(tokens)
  {
    JoinSegments(tokens);
    assert EndsInBar(tokens) ==> |Trimmed(tokens)| != |tokens|;
  }

  /** And the other way round: programs joined to a line are found again in it. */
  lemma {:induction false} SegmentsOfJoin(segments: seq<seq<string>>)
    requires forall s :: s in segments ==> "|" !in s
    requires segments != [] ==> segments[|segments| - 1] != []
    ensures Segments(Join(segments)) == segments
  {
    if |segments| == 1 {
      var line := segments[0];
      assert line[..|line|] == line && line in segments;
      FirstBarIs(line, |line|);
      assert segments == [line];
    } else if segments != [] {
      var first, rest := segments[0], segments[1..];
      assert segments == [first] + rest;
      assert forall s :: s in rest ==> s in segments;
      SegmentsOfJoin(rest);
      assert first in segments;
      SegmentsOfTwo(first, Join(rest));
    }
  }

  lemma {:induction false} JoinEndsInBar(segments: seq<seq<string>>)
    requires |segments| >= 2 && segments[|segments| - 1] == []
    ensures EndsInBar(Join(segments))
  {
    if |segments| > 2 { JoinEndsInBar(segments[1..]); }
  }

  /** Exactly which programs survive being joined and split: those whose words contain no bar
      and the last of which has a word. */
  lemma JoinThenSplitIff(segments: seq<seq<string>>)
    ensures Segments(Join(segments)) == segments <==>
            && (forall s :: s in segments ==> "|" !in s)
            && (segments != [] ==> segments[|segments| - 1] != [])
  {
    SegmentsHaveNoBar(Join(segments));
    if segments != [] && segments[|segments| - 1] == [] {
      if |segments| == 1 {
        JoinNothing();
        EmptyRest();
      } else {
        JoinEndsInBar(segments);
        RoundTripIff(Join(segments));
      }
    } else if forall s :: s in segments ==> "|" !in s {
      SegmentsOfJoin(segments);
    }
  }

  lemma SegmentsOfTwo(first: seq<string>, rest: seq<string>)
    requires "|" !in first
    ensures Segments(first + ["|"] + rest) == [first] + Segments(rest)
  {
    var line := first + ["|"] + rest;
    var n := |first|;
    assert line[..n] == first;
    FirstBarIs(line, n);
    assert line[n + 1..] == rest;
  }

  lemma {:induction false} FirstBarIs(tokens: seq<string>, n: nat)
    requires n <= |tokens| && "|" !in tokens[..n]
    requires n < |tokens| ==> tokens[n] == "|"
    ensures FirstBar(tokens) == n
  {
    var m := FirstBar(tokens);
    assert forall k :: 0 <= k < m ==> tokens[..m][k] == tokens[k];
    assert forall k :: 0 <= k < n ==> tokens[..n][k] == tokens[k];
  }

  // ---------- the loops ----------

  /** Row r of the argument table is this vector, padded with NULL. */
  predicate RowIs(arguments: array2<Option<string>>, r: nat, segment: seq<string>)
    requires r < arguments.Length0
    reads arguments
  {
    forall c :: 0 <= c < arguments.Length1 ==>
      arguments[r, c] == if c < |segment| then Some(segment[c]) else None
  }

  /** Ten programs at most, with ten arguments each. */
  predicate Fits(segments: seq<seq<string>>) {
    |segments| <= MAX_PROGRAMS && forall r :: 0 <= r < |segments| ==> |segments[r]| <= MAX_ARGUMENTS
  }

  /** What row r holds while row i is being filled and has got as far as `part`. */
  function Row(segments: seq<seq<string>>, i: nat, part: seq<string>, r: nat): seq<string>
    requires i <= |segments|
  {
    if r < i then segments[r] else if r == i then part else []
  }

  /** Rows up to i hold these vectors, row i holds `part`, and the others are all NULL. */
  predicate TableIs(arguments: array2<Option<string>>, segments: seq<seq<string>>, i: nat, part: seq<string>)
    requires arguments.Length0 == MAX_PROGRAMS && i <= |segments|
    reads arguments
  {
    forall r :: 0 <= r < MAX_PROGRAMS ==> RowIs(arguments, r, Row(segments, i, part, r))
  }

  /** The inner loop: the tokens up to the next bar go to row i, and no other row changes. */
  method CopyRow(arguments: array2<Option<string>>, i: nat, tokens: seq<string>, start: nat)
    returns (p: nat)
    requires i < arguments.Length0 && arguments.Length1 == MAX_ARGUMENTS && start <= |tokens|
    requires FirstBar(tokens[start..]) <= MAX_ARGUMENTS && RowIs(arguments, i, [])
    modifies arguments
    ensures p == start + FirstBar(tokens[start..])
    ensures RowIs(arguments, i, tokens[start..p])
    ensures forall r, c :: 0 <= r < arguments.Length0 && r != i && 0 <= c < MAX_ARGUMENTS ==> arguments[r, c] == old(arguments[r, c])
  {
    ghost var n := FirstBar(tokens[start..]);
    FirstBarAt(tokens, start);
    hide FirstBar;
    var j := 0;
    p := start;
    while p < |tokens| && tokens[p] != "|"
      invariant p == start + j <= |tokens| && j <= n
      invariant forall c :: 0 <= c < MAX_ARGUMENTS ==> arguments[i, c] == if c < j then Some(tokens[start + c]) else None
      invariant forall r, c :: 0 <= r < arguments.Length0 && r != i && 0 <= c < MAX_ARGUMENTS ==> arguments[r, c] == old(arguments[r, c])
    {
      arguments[i, j] := Some(tokens[p]);
      p := p + 1;
      j := j + 1;
    }
  }

  method FillRow(arguments: array2<Option<string>>, i: nat, tokens: seq<string>, start: nat, ghost segments: seq<seq<string>>)
    returns (p: nat)
    requires arguments.Length0 == MAX_PROGRAMS && arguments.Length1 == MAX_ARGUMENTS
    requires i < MAX_PROGRAMS && i <= |segments| && start <= |tokens|
    requires FirstBar(tokens[start..]) <= MAX_ARGUMENTS && TableIs(arguments, segments, i, [])
    modifies arguments
    ensures p == start + FirstBar(tokens[start..])
    ensures TableIs(arguments, segments, i, tokens[start..p])
  {
    hide FirstBar;
    RowIsEmpty(arguments, segments, i);
    p := CopyRow(arguments, i, tokens, start);
    forall r | 0 <= r < MAX_PROGRAMS
      ensures RowIs(arguments, r, Row(segments, i, tokens[start..p], r))
    {
      assert old(RowIs(arguments, r, Row(segments, i, [], r)));
    }
  }

  lemma RowIsEmpty(arguments: array2<Option<string>>, segments: seq<seq<string>>, i: nat)
    requires arguments.Length0 == MAX_PROGRAMS && i <= |segments| && TableIs(arguments, segments, i, []) && i < MAX_PROGRAMS
    ensures RowIs(arguments, i, [])
  {
    assert RowIs(arguments, i, Row(segments, i, [], i));
  }

  lemma FirstBarAt(tokens: seq<string>, start: nat)
    requires start <= |tokens|
    ensures var n := FirstBar(tokens[start..]);
            && start + n <= |tokens|
            && (forall k :: start <= k < start + n ==> tokens[k] != "|")
            && (start + n < |tokens| ==> tokens[start + n] == "|")
  {
    var rest := tokens[start..];
    var n := FirstBar(rest);
    forall k | start <= k < start + n ensures tokens[k] != "|" {
      assert rest[..n][k - start] == tokens[k];
    }
  }

  /** The vectors still to come are those of the rest of the line. */
  ghost predicate Ahead(tokens: seq<string>, p: nat, segments: seq<seq<string>>, i: nat) {
    && p <= |tokens| && i <= |segments|
    && (p == |tokens| ==> i == |segments|)
    && (p < |tokens| ==> segments[i..] == Segments(tokens[p..]))
  }

  lemma AheadNext(tokens: seq<string>, p: nat, segments: seq<seq<string>>, i: nat)
    requires Ahead(tokens, p, segments, i) && p < |tokens|
    ensures i < |segments| && segments[i] == tokens[p..p + FirstBar(tokens[p..])]
    ensures var q := p + FirstBar(tokens[p..]);
            if q < |tokens| then
              Ahead(tokens, q + 1, segments, i + 1) && (q + 1 == |tokens| ==> i + 1 == |segments|)
            else i + 1 == |segments|
  {
    hide Segments, FirstBar;
    var here := tokens[p..];
    var n := FirstBar(here);
    SegmentsStep(here);
    Tail(segments, i);
    Slices(tokens, p, n);
    if n + 1 == |here| {
      AfterLast(here);
      EmptyRest();
    }
  }

  lemma SegmentsStep(tokens: seq<string>)
    requires tokens != []
    ensures var n := FirstBar(tokens);
            && Segments(tokens) != [] && Segments(tokens)[0] == tokens[..n]
            && Segments(tokens)[1..] == if n == |tokens| then [] else Segments(tokens[n + 1..])
  {
    hide FirstBar;
    var n := FirstBar(tokens);
    HeadTail(tokens[..n], if n == |tokens| then [] else Segments(tokens[n + 1..]));
  }

  lemma HeadTail<T>(x: T, rest: seq<T>)
    ensures ([x] + rest)[0] == x && ([x] + rest)[1..] == rest
  {
  }

  lemma EmptyRest()
    ensures Segments([]) == []
  {
  }

  lemma Tail<T>(s: seq<T>, i: nat)
    requires i <= |s| && s[i..] != []
    ensures i < |s| && s[i..][0] == s[i] && s[i..][1..] == s[i + 1..]
  {
  }

  lemma Slices<T>(s: seq<T>, p: nat, n: nat)
    requires p + n <= |s|
    ensures s[p..][..n] == s[p..p + n]
    ensures n < |s[p..]| ==> s[p..][n + 1..] == s[p + n + 1..]
  {
  }

  lemma AheadAtStart(tokens: seq<string>)
    ensures Ahead(tokens, 0, Segments(tokens), 0)
    ensures tokens == [] ==> Segments(tokens) == []
  {
    assert tokens[0..] == tokens && Segments(tokens)[0..] == Segments(tokens);
  }

  lemma NothingYet(arguments: array2<Option<string>>, segments: seq<seq<string>>)
    requires arguments.Length0 == MAX_PROGRAMS && TableIs(arguments, [], 0, [])
    ensures TableIs(arguments, segments, 0, [])
  {
    forall r | 0 <= r < MAX_PROGRAMS ensures RowIs(arguments, r, Row(segments, 0, [], r)) {
      assert RowIs(arguments, r, Row([], 0, [], r));
    }
  }

  lemma RowFits(segments: seq<seq<string>>, i: nat, tokens: seq<string>, p: nat)
    requires Fits(segments) && Ahead(tokens, p, segments, i) && p < |tokens|
    ensures i < MAX_PROGRAMS && FirstBar(tokens[p..]) <= MAX_ARGUMENTS
  {
    AheadNext(tokens, p, segments, i);
  }

  lemma RowDone(arguments: array2<Option<string>>, segments: seq<seq<string>>, i: nat, part: seq<string>)
    requires arguments.Length0 == MAX_PROGRAMS && i < |segments| && part == segments[i]
    requires TableIs(arguments, segments, i, part)
    ensures TableIs(arguments, segments, i + 1, [])
  {
    var next := i + 1;
    forall r | 0 <= r < MAX_PROGRAMS
      ensures RowIs(arguments, r, Row(segments, next, [], r))
    {
      assert RowIs(arguments, r, Row(segments, i, part, r));
    }
  }

  method EmptyTable() returns (arguments: array2<Option<string>>)
    ensures fresh(arguments) && arguments.Length0 == MAX_PROGRAMS && arguments.Length1 == MAX_ARGUMENTS
    ensures TableIs(arguments, [], 0, [])
  {
    arguments := new Option<string>[MAX_PROGRAMS, MAX_ARGUMENTS];
    for i := 0 to MAX_PROGRAMS
      invariant forall r, c :: 0 <= r < i && 0 <= c < MAX_ARGUMENTS ==> arguments[r, c] == None
    {
      for j := 0 to MAX_ARGUMENTS
        invariant forall r, c :: 0 <= r < i && 0 <= c < MAX_ARGUMENTS ==> arguments[r, c] == None
        invariant forall c :: 0 <= c < j ==> arguments[i, c] == None
      {
        arguments[i, j] := None;
      }
    }
  }

  /** Fills the table; i is the number of programs.  Rows past the last program stay NULL. */
  method Split(tokens: seq<string>) returns (arguments: array2<Option<string>>, i: nat)
    requires Fits(Segments(tokens))
    ensures fresh(arguments) && arguments.Length0 == 10 && arguments.Length1 == 10
    ensures i == |Segments(tokens)| && TableIs(arguments, Segments(tokens), i, [])
  {
    hide Segments, FirstBar, Row, RowIs, TableIs, Ahead, Fits;
    ghost var segments := Segments(tokens);
    arguments := EmptyTable();
    NothingYet(arguments, segments);
    AheadAtStart(tokens);
    i := 0;
    var p := 0;
    while p < |tokens|
      invariant p <= |tokens| && i <= |segments| && (p == |tokens| ==> i == |segments|)
      invariant Ahead(tokens, p, segments, i)
      invariant TableIs(arguments, segments, i, [])
    {
      RowFits(segments, i, tokens, p);
      AheadNext(tokens, p, segments, i);
      ghost var start := p;
      p := FillRow(arguments, i, tokens, p, segments);
      RowDone(arguments, segments, i, tokens[start..p]);
      i := i + 1;
      if p < |tokens| {
        p := p + 1;
      } else {
        break;
      }
    }
  }
}
