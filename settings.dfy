/** The plug-in's settings record, its defaults, and the exclusion-pattern text area:
    the stored list is shown joined with newlines, and an edited text is read back by
    splitting on newlines, trimming every piece and dropping the empty ones. */
module Settings {
  import opened Text

  /** `ShawnsToolboxSettings`. */
  datatype ToolboxSettings = ToolboxSettings(
    checkboxStampingEnabled: bool,
    includeTime: bool,
    excludePatterns: seq<string>,
    dateFormat: string)

  /** `DEFAULT_SETTINGS`: stamping on, date only, lines tagged `#task` left alone. */
  const DefaultSettings := ToolboxSettings(true, false, ["#task"], "YYYY-MM-DD")

  // ---------------------------------------------------------------- trimming

  /** Drops the leading whitespace of `s`. */
  function TrimStart(s: string): (r: string)
    ensures |r| <= |s| && r == s[|s| - |r|..]
    ensures forall k :: 0 <= k < |s| - |r| ==> IsWhitespace(s[k])
    ensures r == [] || !IsWhitespace(r[0])
    decreases |s|
  {
    if |s| > 0 && IsWhitespace(s[0]) then
      var r := TrimStart(s[1..]);
      assert s[1..][|s| - 1 - |r|..] == s[|s| - |r|..];
      assert forall k :: 1 <= k < |s| - |r| ==> s[k] == s[1..][k - 1];
      r
    else
      s
  }

  /** Drops the trailing whitespace of `s`. */
  function TrimEnd(s: string): (r: string)
    ensures |r| <= |s| && r == s[..|r|]
    ensures forall k :: |r| <= k < |s| ==> IsWhitespace(s[k])
    ensures r == [] || !IsWhitespace(r[|r| - 1])
    decreases |s|
  {
    if |s| > 0 && IsWhitespace(s[|s| - 1]) then
      var r := TrimEnd(s[..|s| - 1]);
      assert s[..|s| - 1][..|r|] == s[..|r|];
      assert forall k :: |r| <= k < |s| - 1 ==> s[k] == s[..|s| - 1][k];
      r
    else
      s
  }

  /** `s.trim()`: whitespace removed from both ends, so the result is empty or starts
      and ends with a non-blank character. */
  function Trim(s: string): (r: string)
    ensures |r| <= |s|
    ensures r == [] || (!IsWhitespace(r[0]) && !IsWhitespace(r[|r| - 1]))
  {
    TrimEnd(TrimStart(s))
  }

  /** What `TrimStart` drops is a blank prefix. */
  lemma TrimStartDropped(s: string)
    ensures AllWhitespace(s[..|s| - |TrimStart(s)|])
  {
    var head := s[..|s| - |TrimStart(s)|];
    assert forall k :: 0 <= k < |head| ==> head[k] == s[k];
  }

  /** What `TrimEnd` drops is a blank suffix. */
  lemma TrimEndDropped(s: string)
    ensures AllWhitespace(s[|TrimEnd(s)|..])
  {
    var tail := s[|TrimEnd(s)|..];
    assert forall k :: 0 <= k < |tail| ==> tail[k] == s[|TrimEnd(s)| + k];
  }

  /** The trimmed text is the window of `s` between a blank prefix and a blank suffix. */
  lemma TrimWindow(s: string) returns (i: nat)
    ensures i + |Trim(s)| <= |s| && Trim(s) == s[i..i + |Trim(s)|]
    ensures AllWhitespace(s[..i]) && AllWhitespace(s[i + |Trim(s)|..])
  {
    var front := TrimStart(s);
    var r := TrimEnd(front);
    i := |s| - |front|;
    TrimStartDropped(s);
    TrimEndDropped(front);
    SlicesOfSuffix(s, i, |r|);
  }

  lemma SlicesOfSuffix(s: string, i: nat, n: nat)
    requires i + n <= |s|
    ensures s[i..][..n] == s[i..i + n] && s[i..][n..] == s[i + n..]
  {
  }

  /** Trimming gives the empty string exactly for a blank text. */
  lemma TrimEmpty(s: string)
    ensures Trim(s) == [] <==> AllWhitespace(s)
  {
    var i := TrimWindow(s);
    var front := TrimStart(s);
    if Trim(s) == [] {
      assert s == s[..i] + s[i..];
      forall k | 0 <= k < |s| ensures IsWhitespace(s[k]) {
        if k < i { assert s[k] == s[..i][k]; } else { assert s[k] == s[i..][k - i]; }
      }
    } else {
      assert Trim(s)[0] == s[i];
    }
  }

  /** Trimming adds no character, in particular no newline. */
  lemma TrimKeepsCharacters(s: string)
    ensures forall c :: c in Trim(s) ==> c in s
  {
    var i := TrimWindow(s);
    var r := Trim(s);
    forall c | c in r ensures c in s {
      var k :| 0 <= k < |r| && r[k] == c;
      assert s[i + k] == c;
    }
  }

  /** A text that neither starts nor ends with whitespace is its own trim. */
  lemma TrimmedText(s: string)
    requires s == [] || (!IsWhitespace(s[0]) && !IsWhitespace(s[|s| - 1]))
    ensures Trim(s) == s
  {
    TrimStartTrimmed(s);
    TrimEndTrimmed(s);
  }

  lemma TrimStartTrimmed(s: string)
    requires s == [] || !IsWhitespace(s[0])
    ensures TrimStart(s) == s
  {
  }

  lemma TrimEndTrimmed(s: string)
    requires s == [] || !IsWhitespace(s[|s| - 1])
    ensures TrimEnd(s) == s
  {
  }

  /** Trimming leaves an already trimmed string alone, so it is idempotent. */
  lemma TrimIdempotent(s: string)
    ensures Trim(Trim(s)) == Trim(s)
  {
    TrimmedText(Trim(s));
  }

  // ---------------------------------------------------------------- split and join

  /** `s.split("\n")`: the maximal newline-free pieces of `s`, in order; the empty
      string splits into one empty piece, and a trailing newline gives an empty last piece. */
  function Split(s: string): (r: seq<string>)
    ensures |r| >= 1
    decreases |s|
  {
    if |s| == 0 then
      [""]
    else
      var rest := Split(s[1..]);
      if s[0] == '\n' then [""] + rest else [[s[0]] + rest[0]] + rest[1..]
  }

  /** No piece of a split contains a newline. */
  lemma {:induction false} SplitPiecesSingleLine(s: string)
    ensures forall k :: 0 <= k < |Split(s)| ==> '\n' !in Split(s)[k]
    decreases |s|
  {
    if |s| > 0 {
      SplitPiecesSingleLine(s[1..]);
      var rest := Split(s[1..]);
      if s[0] != '\n' {
        assert '\n' !in [s[0]] + rest[0];
        assert forall k :: 1 <= k < |Split(s)| ==> Split(s)[k] == rest[k];
      } else {
        assert forall k :: 1 <= k < |Split(s)| ==> Split(s)[k] == rest[k - 1];
      }
    }
  }

  /** `ps.join("\n")`. */
  function Join(ps: seq<string>): string
    decreases |ps|
  {
    if |ps| == 0 then "" else if |ps| == 1 then ps[0] else ps[0] + "\n" + Join(ps[1..])
  }

  /** Joining the pieces of a split gives back the text. */
  lemma {:induction false} JoinSplit(s: string)
    ensures Join(Split(s)) == s
    decreases |s|
  {
    if |s| > 0 {
      JoinSplit(s[1..]);
      assert s == [s[0]] + s[1..];
      SplitCons(s[0], s[1..]);
      if s[0] == '\n' {
        JoinEmptyFront(Split(s[1..]));
      } else {
        JoinExtendFirst(s[0], Split(s[1..]));
      }
    }
  }

  /** An empty first piece contributes only its separator. */
  lemma JoinEmptyFront(ps: seq<string>)
    requires |ps| >= 1
    ensures Join([""] + ps) == "\n" + Join(ps)
  {
    assert ([""] + ps)[1..] == ps;
  }

  /** Extending the first piece extends the joined text at its front. */
  lemma JoinExtendFirst(c: char, ps: seq<string>)
    requires |ps| >= 1
    ensures Join([[c] + ps[0]] + ps[1..]) == [c] + Join(ps)
  {
    if |ps| > 1 {
      JoinUnfold([c] + ps[0], ps[1..]);
      JoinUnfold(ps[0], ps[1..]);
      assert ps == [ps[0]] + ps[1..];
      ConcatFront(c, ps[0], Join(ps[1..]));
    }
  }

  /** A piece in front of at least one more piece is followed by a separator. */
  lemma JoinUnfold(p: string, ps: seq<string>)
    requires |ps| >= 1
    ensures Join([p] + ps) == p + "\n" + Join(ps)
  {
    assert ([p] + ps)[1..] == ps;
  }

  lemma ConcatFront(c: char, x: string, y: string)
    ensures [c] + x + "\n" + y == [c] + (x + "\n" + y)
  {
  }

  /** One step of the split: a leading newline closes an empty piece, any other
      character joins the first piece. */
  lemma SplitCons(c: char, t: string)
    ensures Split([c] + t) == if c == '\n' then [""] + Split(t)
                              else [[c] + Split(t)[0]] + Split(t)[1..]
  {
    assert ([c] + t)[0] == c && ([c] + t)[1..] == t;
  }

  /** The inductive step of `SplitConcat` for a first character `c` that is a newline. */
  lemma SplitConcatNewline(t: string, b: string)
    requires Split(t + "\n" + b) == Split(t) + Split(b)
    ensures Split(['\n'] + t + "\n" + b) == Split(['\n'] + t) + Split(b)
  {
    assert ['\n'] + t + "\n" + b == ['\n'] + (t + "\n" + b);
    SplitCons('\n', t + "\n" + b);
    SplitCons('\n', t);
    ConcatAssociative([""], Split(t), Split(b));
  }

  lemma ConcatAssociative(e: seq<string>, f: seq<string>, g: seq<string>)
    ensures e + (f + g) == (e + f) + g
  {
  }

  /** The inductive step of `SplitConcat` for a first character `c` that is not a newline. */
  lemma SplitConcatOther(c: char, t: string, b: string)
    requires c != '\n'
    requires Split(t + "\n" + b) == Split(t) + Split(b)
    ensures Split([c] + t + "\n" + b) == Split([c] + t) + Split(b)
  {
    assert [c] + t + "\n" + b == [c] + (t + "\n" + b);
    SplitCons(c, t + "\n" + b);
    SplitCons(c, t);
    ExtendFirstPiece(c, Split(t), Split(b));
  }

  /** Prefixing the first piece of `f + g` by `c` is prefixing the first piece of `f`. */
  lemma ExtendFirstPiece(c: char, f: seq<string>, g: seq<string>)
    requires |f| >= 1
    ensures [[c] + (f + g)[0]] + (f + g)[1..] == ([[c] + f[0]] + f[1..]) + g
  {
    assert (f + g)[1..] == f[1..] + g;
  }

  /** Splitting at a newline splits the two sides independently. */
  lemma {:induction false} SplitConcat(a: string, b: string)
    ensures Split(a + "\n" + b) == Split(a) + Split(b)
    decreases |a|
  {
    if |a| == 0 {
      assert a + "\n" + b == ['\n'] + b;
      SplitCons('\n', b);
    } else {
      SplitConcat(a[1..], b);
      assert a == [a[0]] + a[1..];
      if a[0] == '\n' {
        SplitConcatNewline(a[1..], b);
      } else {
        SplitConcatOther(a[0], a[1..], b);
      }
    }
  }

  /** A text without a newline is a single piece. */
  lemma {:induction false} SplitLine(s: string)
    requires '\n' !in s
    ensures Split(s) == [s]
    decreases |s|
  {
    if |s| > 0 {
      assert '\n' !in s[1..] by {
        forall c | c in s[1..] ensures c != '\n' { assert c in s; }
      }
      SplitLine(s[1..]);
      assert s == [s[0]] + s[1..];
    }
  }

  /** Splitting the join of newline-free pieces gives back the pieces (for at least one
      piece: the empty list joins to "", which splits into [""]). */
  lemma {:induction false} SplitJoin(ps: seq<string>)
    requires |ps| >= 1
    requires forall k :: 0 <= k < |ps| ==> '\n' !in ps[k]
    ensures Split(Join(ps)) == ps
    decreases |ps|
  {
    SplitLine(ps[0]);
    if |ps| > 1 {
      SplitJoin(ps[1..]);
      SplitConcat(ps[0], Join(ps[1..]));
      assert ps == [ps[0]] + ps[1..];
    }
  }

  // ---------------------------------------------------------------- pattern parsing

  /** `.map((p) => p.trim())`. */
  function TrimAll(ps: seq<string>): (r: seq<string>)
    ensures |r| == |ps|
    ensures forall k :: 0 <= k < |ps| ==> r[k] == Trim(ps[k])
  {
    seq(|ps|, k requires 0 <= k < |ps| => Trim(ps[k]))
  }

  /** `.filter((p) => p.length > 0)`. */
  function DropEmpty(ps: seq<string>): (r: seq<string>)
    ensures forall p :: p in r ==> p in ps && p != ""
    ensures |r| <= |ps|
    decreases |ps|
  {
    if |ps| == 0 then []
    else if |ps[0]| > 0 then [ps[0]] + DropEmpty(ps[1..])
    else DropEmpty(ps[1..])
  }

  lemma {:induction false} DropEmptyConcat(xs: seq<string>, ys: seq<string>)
    ensures DropEmpty(xs + ys) == DropEmpty(xs) + DropEmpty(ys)
    decreases |xs|
  {
    if |xs| > 0 {
      assert (xs + ys)[1..] == xs[1..] + ys;
      DropEmptyConcat(xs[1..], ys);
    } else {
      assert xs + ys == ys;
    }
  }

  lemma {:induction false} DropEmptyNone(ps: seq<string>)
    requires forall k :: 0 <= k < |ps| ==> ps[k] != ""
    ensures DropEmpty(ps) == ps
    decreases |ps|
  {
    if |ps| > 0 {
      DropEmptyNone(ps[1..]);
      assert ps == [ps[0]] + ps[1..];
    }
  }

  lemma {:induction false} DropEmptyAllEmpty(ps: seq<string>)
    ensures DropEmpty(ps) == [] <==> forall k :: 0 <= k < |ps| ==> ps[k] == ""
    decreases |ps|
  {
    if |ps| > 0 {
      DropEmptyAllEmpty(ps[1..]);
      assert forall k :: 1 <= k < |ps| ==> ps[k] == ps[1..][k - 1];
    }
  }

  /** Trimmed newline-free pieces are their own trim and stay newline-free. */
  lemma TrimmedPiecesClean(pieces: seq<string>)
    requires forall k :: 0 <= k < |pieces| ==> '\n' !in pieces[k]
    ensures forall p :: p in TrimAll(pieces) ==> Trim(p) == p && '\n' !in p
  {
    var trimmed := TrimAll(pieces);
    forall p | p in trimmed ensures Trim(p) == p && '\n' !in p {
      var k :| 0 <= k < |trimmed| && trimmed[k] == p;
      TrimIdempotent(pieces[k]);
      TrimKeepsCharacters(pieces[k]);
    }
  }

  /** The exclusion-pattern text area's reading: every pattern it yields is non-empty,
      carries no surrounding whitespace and spans a single line. */
  function ParsePatterns(value: string): (r: seq<string>)
    ensures forall p :: p in r ==> p != "" && Trim(p) == p && '\n' !in p
  {
    var pieces := Split(value);
    SplitPiecesSingleLine(value);
    TrimmedPiecesClean(pieces);
    DropEmpty(TrimAll(pieces))
  }

  /** A single line reads as its trimmed text, or as nothing if it is blank. */
  lemma ParseLine(line: string)
    requires '\n' !in line
    ensures ParsePatterns(line) == if AllWhitespace(line) then [] else [Trim(line)]
  {
    SplitLine(line);
    TrimEmpty(line);
    assert TrimAll([line]) == [Trim(line)];
  }

  /** Lines are read independently and kept in their order. */
  lemma ParseConcat(a: string, b: string)
    ensures ParsePatterns(a + "\n" + b) == ParsePatterns(a) + ParsePatterns(b)
  {
    var sa, sb := Split(a), Split(b);
    SplitConcat(a, b);
    assert ParsePatterns(a + "\n" + b) == DropEmpty(TrimAll(sa + sb));
    TrimAllConcat(sa, sb);
    DropEmptyConcat(TrimAll(sa), TrimAll(sb));
  }

  lemma TrimAllConcat(xs: seq<string>, ys: seq<string>)
    ensures TrimAll(xs + ys) == TrimAll(xs) + TrimAll(ys)
  {
  }

  /** Blank pieces all trim to nothing, and so are all dropped. */
  lemma BlankPiecesDropped(pieces: seq<string>)
    requires forall k :: 0 <= k < |pieces| ==> AllWhitespace(pieces[k])
    ensures DropEmpty(TrimAll(pieces)) == []
  {
    var trimmed := TrimAll(pieces);
    forall k | 0 <= k < |trimmed| ensures trimmed[k] == "" {
      TrimEmpty(pieces[k]);
    }
    DropEmptyAllEmpty(trimmed);
  }

  /** If every piece is dropped, every piece was blank. */
  lemma DroppedPiecesBlank(pieces: seq<string>)
    requires DropEmpty(TrimAll(pieces)) == []
    ensures forall k :: 0 <= k < |pieces| ==> AllWhitespace(pieces[k])
  {
    var trimmed := TrimAll(pieces);
    DropEmptyAllEmpty(trimmed);
    forall k | 0 <= k < |pieces| ensures AllWhitespace(pieces[k]) {
      assert trimmed[k] == "";
      TrimEmpty(pieces[k]);
    }
  }

  /** The text reads as no pattern at all exactly when every line of it is blank
      (in particular the empty text). */
  lemma ParseBlank(value: string)
    ensures ParsePatterns(value) == [] ==>
            forall k :: 0 <= k < |Split(value)| ==> AllWhitespace(Split(value)[k])
    ensures (forall k :: 0 <= k < |Split(value)| ==> AllWhitespace(Split(value)[k])) ==>
            ParsePatterns(value) == []
  {
    var pieces := Split(value);
    assert ParsePatterns(value) == DropEmpty(TrimAll(pieces));
    if ParsePatterns(value) == [] {
      DroppedPiecesBlank(pieces);
    }
    if forall k :: 0 <= k < |pieces| ==> AllWhitespace(pieces[k]) {
      BlankPiecesDropped(pieces);
    }
  }

  /** Showing a stored list in the text area and reading the text back returns the same
      list, whenever every pattern is non-empty, trimmed and newline-free. */
  lemma ParseJoinRoundTrip(ps: seq<string>)
    requires forall k :: 0 <= k < |ps| ==> ps[k] != "" && Trim(ps[k]) == ps[k] && '\n' !in ps[k]
    ensures ParsePatterns(Join(ps)) == ps
  {
    if |ps| > 0 {
      SplitJoin(ps);
      assert ParsePatterns(Join(ps)) == DropEmpty(TrimAll(ps));
      TrimAllFixed(ps);
      DropEmptyNone(ps);
    }
  }

  lemma TrimAllFixed(ps: seq<string>)
    requires forall k :: 0 <= k < |ps| ==> Trim(ps[k]) == ps[k]
    ensures TrimAll(ps) == ps
  {
  }

  /** Reading, showing and reading again gives what the first reading gave. */
  lemma ParseIdempotent(value: string)
    ensures ParsePatterns(Join(ParsePatterns(value))) == ParsePatterns(value)
  {
    var ps := ParsePatterns(value);
    assert forall k :: 0 <= k < |ps| ==> ps[k] in ps;
    ParseJoinRoundTrip(ps);
  }

  /** The defaults: stamping on, date only, the `YYYY-MM-DD` format, and the single
      pattern `#task`, which survives the text area unchanged. */
  lemma DefaultSettingsFacts()
    ensures DefaultSettings.checkboxStampingEnabled && !DefaultSettings.includeTime
    ensures DefaultSettings.dateFormat == "YYYY-MM-DD"
    ensures DefaultSettings.excludePatterns == ["#task"]
    ensures ParsePatterns(Join(DefaultSettings.excludePatterns)) == DefaultSettings.excludePatterns
  {
    var p := "#task";
    assert p[0] == '#' && p[|p| - 1] == 'k';
    TrimmedText(p);
    assert '\n' !in p;
    ParseJoinRoundTrip([p]);
  }
}
