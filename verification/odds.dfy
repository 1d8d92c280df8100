/** The two readers of the odds text field (backend/static/app.js,
    readSingleOdds and readMultiOdds). JavaScript's `parseFloat` is left
    abstract: every reader takes it as the parameter `parse`, which yields
    `None` where `parseFloat` yields NaN. */
module Odds {
  import opened Optional

  /** The characters JavaScript's `trim` removes and its regular-expression
      class `\s` matches: the WhiteSpace and LineTerminator characters of
      ECMAScript. */
  predicate IsWhitespace(c: char)
    ensures c == ' ' || c == '\t' || c == '\n' ==> IsWhitespace(c)
    ensures IsWhitespace(c) ==> !('0' <= c <= '9') && c != '.' && c != ',' && c != '-'
  {
    var n := c as int;
    || 9 <= n <= 13 || n == 0x20 || n == 0xA0 || n == 0x1680
    || 0x2000 <= n <= 0x200A || n == 0x2028 || n == 0x2029
    || n == 0x202F || n == 0x205F || n == 0x3000 || n == 0xFEFF
  }

  /** The character class `[\/,\s;]` the multi-odds reader splits on. */
  predicate IsSeparator(c: char)
    ensures IsWhitespace(c) ==> IsSeparator(c)
    ensures IsSeparator(c) ==> !('0' <= c <= '9') && c != '.' && c != '-' && c != '+'
  {
    c == '/' || c == ',' || c == ';' || IsWhitespace(c)
  }

  predicate AllWhitespace(s: string) {
    forall i :: 0 <= i < |s| ==> IsWhitespace(s[i])
  }

  predicate NoSeparator(s: string) {
    forall i :: 0 <= i < |s| ==> !IsSeparator(s[i])
  }

  /** Smallest valid odd, exclusive. */
  const MinOdd: real := 1.01

  // ---------------------------------------------------------------------
  // Trimming
  // ---------------------------------------------------------------------

  /** Index of the first non-whitespace character at or after `i`, or
      `|s|` when there is none. */
  function SpaceEnd(s: string, i: nat): (n: nat)
    requires i <= |s|
    ensures i <= n <= |s|
    ensures forall k :: i <= k < n ==> IsWhitespace(s[k])
    ensures n < |s| ==> !IsWhitespace(s[n])
    decreases |s| - i
  {
    if i == |s| || !IsWhitespace(s[i]) then i else SpaceEnd(s, i + 1)
  }

  /** Index just past the last non-whitespace character before `j` and at
      or after `lo`, or `lo` when there is none. */
  function TextEnd(s: string, lo: nat, j: nat): (n: nat)
    requires lo <= j <= |s|
    ensures lo <= n <= j
    ensures forall k :: n <= k < j ==> IsWhitespace(s[k])
    ensures n > lo ==> !IsWhitespace(s[n - 1])
    decreases j
  {
    if j == lo || !IsWhitespace(s[j - 1]) then j else TextEnd(s, lo, j - 1)
  }

  /** `String.prototype.trim`: the text between the first and the last
      non-whitespace characters. */
  function Trim(s: string): (r: string)
    ensures exists a, b :: 0 <= a <= b <= |s| && r == s[a..b]
                          && AllWhitespace(s[..a]) && AllWhitespace(s[b..])
    ensures r == [] || (!IsWhitespace(r[0]) && !IsWhitespace(r[|r| - 1]))
    ensures r == [] <==> AllWhitespace(s)
  {
    var a := SpaceEnd(s, 0);
    var b := TextEnd(s, a, |s|);
    TrimBounds(s, a, b);
    s[a..b]
  }

  lemma TrimBounds(s: string, a: nat, b: nat)
    requires a == SpaceEnd(s, 0) && b == TextEnd(s, a, |s|)
    ensures AllWhitespace(s[..a]) && AllWhitespace(s[b..])
    ensures a == b <==> AllWhitespace(s)
  {
  }

  // ---------------------------------------------------------------------
  // Splitting on runs of separators: `raw.split(/[\/,\s;]+/)`
  // ---------------------------------------------------------------------

  /** Index of the first separator at or after `i`, or `|s|` when there
      is none: the end of the piece that starts at `i`. */
  function PieceEnd(s: string, i: nat): (n: nat)
    requires i <= |s|
    ensures i <= n <= |s|
    ensures forall k :: i <= k < n ==> !IsSeparator(s[k])
    ensures n < |s| ==> IsSeparator(s[n])
    decreases |s| - i
  {
    if i == |s| || IsSeparator(s[i]) then i else PieceEnd(s, i + 1)
  }

  /** Index of the first non-separator at or after `i`, or `|s|` when there
      is none: the end of the run of separators that starts at `i`. */
  function RunEnd(s: string, i: nat): (n: nat)
    requires i <= |s|
    ensures i <= n <= |s|
    ensures forall k :: i <= k < n ==> IsSeparator(s[k])
    ensures n < |s| ==> !IsSeparator(s[n])
    ensures i < |s| && IsSeparator(s[i]) ==> i < n
    decreases |s| - i
  {
    if i == |s| || !IsSeparator(s[i]) then i else RunEnd(s, i + 1)
  }

  /** The pieces between maximal runs of separators. As in JavaScript, a
      leading or trailing run yields an empty first or last piece, and the
      empty string yields one empty piece. */
  function Split(s: string): (toks: seq<string>)
    ensures |toks| >= 1
    ensures forall i :: 0 <= i < |toks| ==> NoSeparator(toks[i])
    ensures s != [] && !IsSeparator(s[0]) ==> toks[0] != []
    ensures forall i :: 0 < i < |toks| - 1 ==> toks[i] != []
    decreases |s|
  {
    var n := PieceEnd(s, 0);
    if n == |s| then [s]
    else [s[..n]] + Split(s[RunEnd(s, n)..])
  }

  /** The characters of `s` that are not separators, in order. */
  function Keep(s: string): string {
    if s == [] then []
    else if IsSeparator(s[0]) then Keep(s[1..])
    else [s[0]] + Keep(s[1..])
  }

  function Concat(toks: seq<string>): string {
    if toks == [] then [] else toks[0] + Concat(toks[1..])
  }

  lemma {:induction false} KeepAppend(a: string, b: string)
    ensures Keep(a + b) == Keep(a) + Keep(b)
    decreases |a|
  {
    if a == [] {
      assert a + b == b;
    } else {
      assert (a + b)[1..] == a[1..] + b;
      KeepAppend(a[1..], b);
    }
  }

  lemma {:induction false} KeepNoSeparator(a: string)
    requires NoSeparator(a)
    ensures Keep(a) == a
    decreases |a|
  {
    if a != [] {
      KeepNoSeparator(a[1..]);
    }
  }

  lemma {:induction false} KeepSeparators(a: string)
    requires forall i :: 0 <= i < |a| ==> IsSeparator(a[i])
    ensures Keep(a) == []
    decreases |a|
  {
    if a != [] {
      KeepSeparators(a[1..]);
    }
  }

  /** Removing separators from a piece, a run of separators and the rest
      keeps the piece and drops the run. */
  lemma KeepStep(t: string, sep: string, rest: string)
    requires NoSeparator(t)
    requires forall i :: 0 <= i < |sep| ==> IsSeparator(sep[i])
    ensures Keep(t + sep + rest) == t + Keep(rest)
  {
    KeepAppend(t + sep, rest);
    KeepAppend(t, sep);
    KeepNoSeparator(t);
    KeepSeparators(sep);
    assert Keep(t + sep) == t;
  }

  lemma ConcatStep(t: string, toks: seq<string>)
    ensures Concat([t] + toks) == t + Concat(toks)
  {
  }

  lemma SplitLosesStep(t: string, sep: string, rest: string)
    requires NoSeparator(t)
    requires sep != [] && forall i :: 0 <= i < |sep| ==> IsSeparator(sep[i])
    requires rest == [] || !IsSeparator(rest[0])
    requires Concat(Split(rest)) == Keep(rest)
    ensures Concat(Split(t + sep + rest)) == Keep(t + sep + rest)
  {
    SplitStep(t, sep, rest);
    ConcatStep(t, Split(rest));
    KeepStep(t, sep, rest);
  }

  /** A text whose first piece is followed by separators: the piece, the
      run of separators, and what comes after the run. */
  lemma ThreeSlices<T>(s: seq<T>, n: nat, m: nat)
    requires n <= m <= |s|
    ensures s == s[..n] + s[n..m] + s[m..]
  {
  }

  lemma SplitDecompose(s: string) returns (t: string, sep: string, rest: string)
    requires PieceEnd(s, 0) < |s|
    ensures s == t + sep + rest && |rest| < |s|
    ensures rest == s[RunEnd(s, PieceEnd(s, 0))..]
    ensures NoSeparator(t)
    ensures sep != [] && forall i :: 0 <= i < |sep| ==> IsSeparator(sep[i])
    ensures rest == [] || !IsSeparator(rest[0])
  {
    var n := PieceEnd(s, 0);
    var m := RunEnd(s, n);
    t, sep, rest := s[..n], s[n..m], s[m..];
    ThreeSlices(s, n, m);
  }

  /** Splitting loses exactly the separators: gluing the pieces back
      together gives the text with every separator removed. */
  lemma {:induction false} SplitLosesOnlySeparators(s: string)
    ensures Concat(Split(s)) == Keep(s)
    decreases |s|
  {
    if PieceEnd(s, 0) == |s| {
      assert s[..|s|] == s;
      SplitSingle(s);
      KeepNoSeparator(s);
      ConcatStep(s, []);
    } else {
      var t, sep, rest := SplitDecompose(s);
      SplitLosesOnlySeparators(rest);
      SplitLosesStep(t, sep, rest);
    }
  }

  // ---------------------------------------------------------------------
  // The comma replacement applied to every piece: `x.replace(',', '.')`
  // ---------------------------------------------------------------------

  /** Replaces the first occurrence of `a` by `b`. */
  function ReplaceFirst(s: string, a: char, b: char): (r: string)
    ensures |r| == |s|
    ensures forall i :: 0 <= i < |s| ==>
              r[i] == (if s[i] == a && a !in s[..i] then b else s[i])
  {
    if s == [] then []
    else if s[0] == a then [b] + s[1..]
    else
      var r := [s[0]] + ReplaceFirst(s[1..], a, b);
      assert forall i :: 1 <= i < |s| ==> s[..i] == [s[0]] + s[1..][..i - 1];
      r
  }

  lemma NoSeparatorHasNoComma(t: string)
    requires NoSeparator(t)
    ensures ',' !in t
  {
  }

  lemma ReplaceWithoutComma(t: string)
    requires ',' !in t
    ensures ReplaceFirst(t, ',', '.') == t
  {
  }

  /** Because ',' is itself a separator, no piece contains one and the
      replacement never changes a piece: a decimal comma never reaches
      `parse`. */
  lemma CommaReplacementIsDead(s: string)
    ensures forall i :: 0 <= i < |Split(s)| ==> ReplaceFirst(Split(s)[i], ',', '.') == Split(s)[i]
  {
  }

  // ---------------------------------------------------------------------
  // The readers
  // ---------------------------------------------------------------------

  /** What one piece parses to after the comma replacement. */
  function ParseToken(tok: string, parse: string -> Option<real>): (r: Option<real>)
    ensures NoSeparator(tok) ==> r == parse(tok)
  {
    var t := ReplaceFirst(tok, ',', '.');
    assert NoSeparator(tok) ==> t == tok by {
      if NoSeparator(tok) {
        NoSeparatorHasNoComma(tok);
        ReplaceWithoutComma(tok);
      }
    }
    parse(t)
  }

  /** A valid odd pays back more than the stake: an unparsable piece and
      1.01 itself are rejected, and the implied probability lies in (0, 1). */
  predicate IsValidOdd(n: Option<real>)
    ensures n.None? || n == Some(MinOdd) ==> !IsValidOdd(n)
    ensures IsValidOdd(n) ==> n.value > 1.0 && 0.0 < 1.0 / n.value < 1.0
  {
    n.Some? && n.value > MinOdd
  }

  /** `.map(parse).filter(n => !isNaN(n) && n > 1.01)`. */
  function Survivors(toks: seq<string>, parse: string -> Option<real>): (vs: seq<real>)
    ensures |vs| <= |toks|
    ensures forall i :: 0 <= i < |vs| ==> vs[i] > MinOdd
  {
    if toks == [] then []
    else
      var n := ParseToken(toks[0], parse);
      var rest := Survivors(toks[1..], parse);
      if IsValidOdd(n) then [n.value] + rest else rest
  }

  /** Filtering distributes over concatenation: survivors keep input order. */
  lemma {:induction false} SurvivorsAppend(a: seq<string>, b: seq<string>, parse: string -> Option<real>)
    ensures Survivors(a + b, parse) == Survivors(a, parse) + Survivors(b, parse)
    decreases |a|
  {
    if a == [] {
      assert a + b == b;
    } else {
      assert (a + b)[0] == a[0];
      assert (a + b)[1..] == a[1..] + b;
      SurvivorsAppend(a[1..], b, parse);
    }
  }

  /** A value survives exactly when some piece parses to it and it is a
      valid odd. */
  lemma {:induction false} SurvivorMembership(toks: seq<string>, parse: string -> Option<real>, v: real)
    ensures v in Survivors(toks, parse) <==>
              exists i :: 0 <= i < |toks| && ParseToken(toks[i], parse) == Some(v) && v > MinOdd
    decreases |toks|
  {
    if toks != [] {
      SurvivorMembership(toks[1..], parse, v);
      if exists i :: 0 <= i < |toks| && ParseToken(toks[i], parse) == Some(v) && v > MinOdd {
        var i :| 0 <= i < |toks| && ParseToken(toks[i], parse) == Some(v) && v > MinOdd;
        if i > 0 {
          assert toks[1..][i - 1] == toks[i];
        }
      }
      if exists i :: 0 <= i < |toks[1..]| && ParseToken(toks[1..][i], parse) == Some(v) && v > MinOdd {
        var i :| 0 <= i < |toks[1..]| && ParseToken(toks[1..][i], parse) == Some(v) && v > MinOdd;
        assert toks[i + 1] == toks[1..][i];
      }
    }
  }

  /** The pieces the multi-odds reader parses. */
  function Tokens(text: string): seq<string> {
    Split(Trim(text))
  }

  /** `readSingleOdds`: `parseFloat` of the whole text, kept when above 1.01. */
  function ReadSingleOdds(text: string, parse: string -> Option<real>): (r: Option<real>)
    ensures r.Some? <==> IsValidOdd(parse(text))
    ensures r.Some? ==> r == parse(text) && r.value > MinOdd
  {
    match parse(text)
    case None => None
    case Some(v) => if v <= MinOdd then None else Some(v)
  }

  /** `readMultiOdds`: the first three valid odds among the pieces of the
      trimmed text, in input order; absent for blank text or when no piece
      is a valid odd. */
  function ReadMultiOdds(text: string, parse: string -> Option<real>): (r: Option<seq<real>>)
    ensures r.None? <==> AllWhitespace(text) || Survivors(Tokens(text), parse) == []
    ensures r.Some? ==> 1 <= |r.value| <= 3
    ensures r.Some? ==> forall i :: 0 <= i < |r.value| ==> r.value[i] > MinOdd
    ensures r.Some? ==> var all := Survivors(Tokens(text), parse);
                        |r.value| == (if |all| < 3 then |all| else 3) && r.value == all[..|r.value|]
  {
    if text == [] then None
    else
      var raw := Trim(text);
      if raw == [] then None
      else
        var parts := Survivors(Split(raw), parse);
        if |parts| == 0 then None
        else if |parts| <= 3 then Some(parts) else Some(parts[..3])
  }

  /** Every odd the multi-odds reader returns is what `parse` made of a
      whole piece of the text, and no such piece contains a comma: "1,85"
      is read as the two pieces "1" and "85", never as 1.85. */
  lemma CommaNeverDecimal(text: string, parse: string -> Option<real>, v: real)
    requires ReadMultiOdds(text, parse).Some? && v in ReadMultiOdds(text, parse).value
    ensures exists i :: 0 <= i < |Tokens(text)| && ',' !in Tokens(text)[i]
                        && parse(Tokens(text)[i]) == Some(v)
  {
    var toks := Tokens(text);
    var all := Survivors(toks, parse);
    assert v in all;
    SurvivorMembership(toks, parse, v);
    var i :| 0 <= i < |toks| && ParseToken(toks[i], parse) == Some(v) && v > MinOdd;
    CommaReplacementIsDead(Trim(text));
    NoSeparatorHasNoComma(toks[i]);
    ReplaceWithoutComma(toks[i]);
  }

  // ---------------------------------------------------------------------
  // Worked examples, built from the splitting steps below
  // ---------------------------------------------------------------------

  lemma TrimUnchanged(s: string)
    requires s != [] && !IsWhitespace(s[0]) && !IsWhitespace(s[|s| - 1])
    ensures Trim(s) == s
  {
  }

  /** The end of a piece and of a run are fixed by the characters alone. */
  lemma PieceEndAt(s: string, i: nat, n: nat)
    requires i <= n <= |s|
    requires forall k :: i <= k < n ==> !IsSeparator(s[k])
    requires n == |s| || IsSeparator(s[n])
    ensures PieceEnd(s, i) == n
  {
  }

  lemma RunEndAt(s: string, i: nat, m: nat)
    requires i <= m <= |s|
    requires forall k :: i <= k < m ==> IsSeparator(s[k])
    requires m == |s| || !IsSeparator(s[m])
    ensures RunEnd(s, i) == m
  {
  }

  lemma SplitSingle(t: string)
    requires NoSeparator(t)
    ensures Split(t) == [t]
  {
  }

  /** A separator-free piece, a non-empty run of separators, then text that
      does not start with a separator. */
  lemma SplitStep(t: string, sep: string, rest: string)
    requires NoSeparator(t)
    requires sep != [] && forall i :: 0 <= i < |sep| ==> IsSeparator(sep[i])
    requires rest == [] || !IsSeparator(rest[0])
    ensures Split(t + sep + rest) == [t] + Split(rest)
  {
    var s := t + sep + rest;
    var n, m := |t|, |t| + |sep|;
    assert s[..n] == t && s[n..m] == sep && s[m..] == rest;
    PieceEndAt(s, 0, n);
    RunEndAt(s, n, m);
  }

  /** The multi-odds reader on text that is not blank. */
  lemma ReadMultiOddsOfText(text: string, parse: string -> Option<real>, all: seq<real>)
    requires Trim(text) == text && text != []
    requires Survivors(Split(text), parse) == all
    ensures all == [] ==> ReadMultiOdds(text, parse).None?
    ensures 1 <= |all| <= 3 ==> ReadMultiOdds(text, parse) == Some(all)
    ensures |all| > 3 ==> ReadMultiOdds(text, parse) == Some(all[..3])
  {
  }

  /** Two separator-free pieces around one run of separators. */
  lemma SplitTwoPieces(text: string, a: string, sep: string, b: string)
    requires text == a + sep + b
    requires NoSeparator(a) && NoSeparator(b) && a != [] && b != []
    requires sep != [] && forall i :: 0 <= i < |sep| ==> IsSeparator(sep[i])
    ensures Trim(text) == text
    ensures Split(text) == [a] + [b]
  {
    SplitSingle(b);
    SplitStep(a, sep, b);
    assert text[0] == a[0] && text[|text| - 1] == b[|b| - 1];
    TrimUnchanged(text);
  }

  lemma SurvivorsOne(t: string, parse: string -> Option<real>)
    ensures Survivors([t], parse) ==
              (if IsValidOdd(ParseToken(t, parse)) then [ParseToken(t, parse).value] else [])
  {
  }

  /** A separator-free piece is parsed as it stands. */
  lemma SurvivorsPiece(t: string, parse: string -> Option<real>)
    requires NoSeparator(t)
    ensures Survivors([t], parse) == (if IsValidOdd(parse(t)) then [parse(t).value] else [])
  {
    NoSeparatorHasNoComma(t);
    ReplaceWithoutComma(t);
    SurvivorsOne(t, parse);
  }

  /** A decimal comma splits the odd: for pieces such as "1" and "85",
      the text "1,85" yields the odd 85 (the piece 1 is not above 1.01),
      never 1.85. */
  lemma CommaSplitExample(one: string, digits: string, parse: string -> Option<real>)
    requires NoSeparator(one) && NoSeparator(digits) && one != [] && digits != []
    requires parse(one) == Some(1.0) && parse(digits) == Some(85.0)
    ensures ReadMultiOdds(one + "," + digits, parse) == Some([85.0])
  {
    var text := one + "," + digits;
    SplitTwoPieces(text, one, ",", digits);
    SurvivorsPiece(one, parse);
    SurvivorsPiece(digits, parse);
    SurvivorsAppend([one], [digits], parse);
    ReadMultiOddsOfText(text, parse, [] + [85.0]);
  }

  /** Four separator-free pieces joined by three runs of separators. */
  lemma SplitFourPieces(text: string, a: string, b: string, c: string, d: string,
                        s1: string, s2: string, s3: string)
    requires text == a + s1 + (b + s2 + (c + s3 + d))
    requires NoSeparator(a) && NoSeparator(b) && NoSeparator(c) && NoSeparator(d)
    requires a != [] && b != [] && c != [] && d != []
    requires s1 != [] && forall i :: 0 <= i < |s1| ==> IsSeparator(s1[i])
    requires s2 != [] && forall i :: 0 <= i < |s2| ==> IsSeparator(s2[i])
    requires s3 != [] && forall i :: 0 <= i < |s3| ==> IsSeparator(s3[i])
    ensures Trim(text) == text
    ensures Split(text) == [a] + ([b] + ([c] + [d]))
  {
    SplitSingle(d);
    var cd := c + s3 + d;
    SplitStep(c, s3, d);
    var bcd := b + s2 + cd;
    SplitStep(b, s2, cd);
    assert bcd[0] == b[0];
    SplitStep(a, s1, bcd);
    assert text[0] == a[0] && text[|text| - 1] == d[|d| - 1];
    TrimUnchanged(text);
  }

  lemma FourSurvivors(a: string, b: string, c: string, d: string, parse: string -> Option<real>)
    requires NoSeparator(a) && NoSeparator(b) && NoSeparator(c) && NoSeparator(d)
    requires parse(a) == Some(1.85) && parse(b) == Some(2.0)
    requires parse(c) == Some(10.0) && parse(d) == Some(3.4)
    ensures Survivors([a] + ([b] + ([c] + [d])), parse) == [1.85] + ([2.0] + ([10.0] + [3.4]))
  {
    SurvivorsPiece(a, parse);
    SurvivorsPiece(b, parse);
    SurvivorsPiece(c, parse);
    SurvivorsPiece(d, parse);
    SurvivorsAppend([c], [d], parse);
    SurvivorsAppend([b], [c] + [d], parse);
    SurvivorsAppend([a], [b] + ([c] + [d]), parse);
  }

  lemma FirstThreeOfFour(all: seq<real>)
    requires all == [1.85] + ([2.0] + ([10.0] + [3.4]))
    ensures |all| == 4 && all[..3] == [1.85, 2.0, 10.0]
  {
  }

  /** Mixed separators, as in "1.85/2,10 , 3.40": every run of '/', ','
      and whitespace separates, and only the first three odds are kept. */
  lemma MixedSeparatorsExample(a: string, b: string, c: string, d: string,
                               parse: string -> Option<real>)
    requires NoSeparator(a) && NoSeparator(b) && NoSeparator(c) && NoSeparator(d)
    requires a != [] && b != [] && c != [] && d != []
    requires parse(a) == Some(1.85) && parse(b) == Some(2.0)
    requires parse(c) == Some(10.0) && parse(d) == Some(3.4)
    ensures ReadMultiOdds(a + "/" + (b + "," + (c + " , " + d)), parse) == Some([1.85, 2.0, 10.0])
  {
    var text := a + "/" + (b + "," + (c + " , " + d));
    SplitFourPieces(text, a, b, c, d, "/", ",", " , ");
    FourSurvivors(a, b, c, d, parse);
    var all := Survivors(Split(text), parse);
    FirstThreeOfFour(all);
    ReadMultiOddsOfText(text, parse, all);
  }

  /** The single reader parses the whole text while the multi reader parses
      pieces, so they can disagree: for "abc 2.0" the single reader finds
      nothing and the multi reader finds 2. */
  lemma ReadersDisagreeExample(word: string, num: string, parse: string -> Option<real>)
    requires NoSeparator(word) && NoSeparator(num) && word != [] && num != []
    requires parse(word + " " + num) == None && parse(word) == None && parse(num) == Some(2.0)
    ensures ReadSingleOdds(word + " " + num, parse) == None
    ensures ReadMultiOdds(word + " " + num, parse) == Some([2.0])
  {
    var text := word + " " + num;
    SplitTwoPieces(text, word, " ", num);
    SurvivorsPiece(word, parse);
    SurvivorsPiece(num, parse);
    SurvivorsAppend([word], [num], parse);
    ReadMultiOddsOfText(text, parse, [] + [2.0]);
  }
}
