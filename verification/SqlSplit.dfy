/** The SQL tool's statement splitter, which respects single-quoted strings. */
module SqlSplit {
  import opened Common
  import opened TextTools

  datatype Sql = Text(text: string) | Many(statements: seq<string>)

  function Quotes(s: string): nat {
    if s == "" then 0 else Quotes(s[..|s| - 1]) + if s[|s| - 1] == '\'' then 1 else 0
  }

  predicate Balanced(s: string) {
    Quotes(s) % 2 == 0
  }

  /** Every semicolon left in the piece is inside a quoted string. */
  ghost predicate Sealed(piece: string) {
    forall i :: 0 <= i < |piece| && piece[i] == ';' ==> !Balanced(piece[..i])
  }

  /** `";".join(pieces)`. */
  function Join(pieces: seq<string>): string {
    if |pieces| == 0 then ""
    else if |pieces| == 1 then pieces[0]
    else pieces[0] + ";" + Join(pieces[1..])
  }

  /** The cuts are at the semicolons outside strings, and nowhere else. */
  ghost predicate IsSplit(s: string, pieces: seq<string>) {
    && pieces != []
    && Join(pieces) == s
    && (forall i :: 0 <= i < |pieces| ==> Sealed(pieces[i]))
    && (forall i :: 0 <= i < |pieces| - 1 ==> Balanced(pieces[i]))
  }

  // ---- the split is unique --------------------------------------------------

  lemma JoinStarts(pieces: seq<string>)
    requires pieces != []
    ensures |pieces[0]| <= |Join(pieces)| && Join(pieces)[..|pieces[0]|] == pieces[0]
    ensures |pieces| > 1 ==> |pieces[0]| < |Join(pieces)| && Join(pieces)[|pieces[0]|] == ';' &&
                             Join(pieces)[|pieces[0]| + 1..] == Join(pieces[1..])
  {
  }

  lemma FirstIsSealed(s: string, pieces: seq<string>)
    requires IsSplit(s, pieces)
    ensures |pieces[0]| <= |s|
    ensures forall k :: 0 <= k < |pieces[0]| && s[k] == ';' ==> !Balanced(s[..k])
  {
    JoinStarts(pieces);
    var first := pieces[0];
    assert s[..|first|] == first;
    forall k | 0 <= k < |first| && s[k] == ';'
      ensures !Balanced(s[..k])
    {
      assert first[k] == s[k] && first[..k] == s[..k];
    }
  }

  lemma FirstIsNotShorter(s: string, p: seq<string>, q: seq<string>)
    requires IsSplit(s, p) && IsSplit(s, q)
    ensures |p[0]| >= |q[0]|
  {
    JoinStarts(p);
    FirstIsSealed(s, q);
  }

  lemma SplitTail(s: string, pieces: seq<string>)
    requires IsSplit(s, pieces) && |pieces| > 1
    ensures IsSplit(s[|pieces[0]| + 1..], pieces[1..])
  {
    JoinStarts(pieces);
  }

  /** A text has one split only. */
  lemma {:induction false} SplitIsUnique(s: string, p: seq<string>, q: seq<string>)
    requires IsSplit(s, p) && IsSplit(s, q)
    ensures p == q
  {
    FirstIsNotShorter(s, p, q);
    FirstIsNotShorter(s, q, p);
    JoinStarts(p);
    JoinStarts(q);
    assert p[0] == q[0];
    if |p| > 1 && |q| > 1 {
      SplitTail(s, p);
      SplitTail(s, q);
      SplitIsUnique(s[|p[0]| + 1..], p[1..], q[1..]);
      assert p == [p[0]] + p[1..] && q == [q[0]] + q[1..];
    }
  }

  // ---- the loop -------------------------------------------------------------

  lemma {:induction false} JoinSnoc(pieces: seq<string>, last: string, c: char)
    ensures Join(pieces + [last + [c]]) == Join(pieces + [last]) + [c]
    ensures Join(pieces + [last] + [""]) == Join(pieces + [last]) + [';']
  {
    if pieces != [] {
      JoinSnoc(pieces[1..], last, c);
      assert (pieces + [last + [c]])[1..] == pieces[1..] + [last + [c]];
      assert (pieces + [last])[1..] == pieces[1..] + [last];
      assert (pieces + [last] + [""])[1..] == pieces[1..] + [last] + [""];
    } else {
      assert (pieces + [last] + [""])[1..] == [""];
    }
  }

  lemma SealedSnoc(piece: string, c: char)
    requires Sealed(piece) && (c == ';' ==> !Balanced(piece))
    ensures Sealed(piece + [c])
    ensures Quotes(piece + [c]) == Quotes(piece) + if c == '\'' then 1 else 0
  {
    assert (piece + [c])[..|piece|] == piece;
    assert forall i :: 0 <= i < |piece| ==> (piece + [c])[..i] == piece[..i];
  }

  /** The characters of a text, one by one. */
  method Scan(sql: string) returns (pieces: seq<string>)
    ensures IsSplit(sql, pieces)
  {
    var buf, inString := "", false;
    pieces := [];
    for i := 0 to |sql|
      invariant Join(pieces + [buf]) == sql[..i]
      invariant Sealed(buf) && inString == !Balanced(buf)
      invariant forall k :: 0 <= k < |pieces| ==> Sealed(pieces[k]) && Balanced(pieces[k])
    {
      var c := sql[i];
      JoinSnoc(pieces, buf, c);
      assert sql[..i + 1] == sql[..i] + [c];
      if c == '\'' {
        inString := !inString;
      }
      if c == ';' && !inString {
        pieces := pieces + [buf];
        buf := "";
      } else {
        SealedSnoc(buf, c);
        buf := buf + [c];
      }
    }
    assert sql[..|sql|] == sql;
    pieces := pieces + [buf];
  }

  // ---- the statements -------------------------------------------------------

  /** `[p.strip() for p in pieces if p.strip()]`. */
  function Kept(pieces: seq<string>): seq<string> {
    if pieces == [] then []
    else
      var text := Strip(pieces[|pieces| - 1]);
      Kept(pieces[..|pieces| - 1]) + if text == "" then [] else [text]
  }

  method KeepTexts(pieces: seq<string>) returns (statements: seq<string>)
    ensures statements == Kept(pieces)
  {
    statements := [];
    for i := 0 to |pieces|
      invariant statements == Kept(pieces[..i])
    {
      assert pieces[..i + 1][..i] == pieces[..i];
      var text := Strip(pieces[i]);
      if text != "" {
        statements := statements + [text];
      }
    }
    assert pieces[..|pieces|] == pieces;
  }

  /** The statements of an input, told without the scan: the kept texts of its one split. */
  ghost predicate AreStatements(sql: Sql, statements: seq<string>) {
    match sql
    case Many(given) => statements == Kept(given)
    case Text(text) => exists pieces :: IsSplit(text, pieces) && statements == Kept(pieces)
  }

  method SplitStatements(sql: Sql) returns (statements: seq<string>)
    ensures AreStatements(sql, statements)
  {
    match sql {
      case Many(given) => statements := KeepTexts(given);
      case Text(text) =>
        var pieces := Scan(text);
        statements := KeepTexts(pieces);
    }
  }

  lemma {:induction false} QuotesAppend(a: string, b: string)
    ensures Quotes(a + b) == Quotes(a) + Quotes(b)
  {
    if b == "" {
      assert a + b == a;
    } else {
      QuotesAppend(a, b[..|b| - 1]);
      assert (a + b)[..|a + b| - 1] == a + b[..|b| - 1];
    }
  }

  lemma {:induction false} SpacesHaveNoQuotes(s: string)
    requires forall i :: 0 <= i < |s| ==> IsSpace(s[i])
    ensures Quotes(s) == 0
  {
    if s != "" {
      SpacesHaveNoQuotes(s[..|s| - 1]);
    }
  }

  lemma QuotesInside(piece: string, core: string, a: nat, b: nat, i: nat)
    requires IsCore(piece, core, a, b) && i <= |core|
    ensures Quotes(piece[..a + i]) == Quotes(core[..i])
  {
    SpacesHaveNoQuotes(piece[..a]);
    assert piece[..a + i] == piece[..a] + core[..i];
    QuotesAppend(piece[..a], core[..i]);
  }

  lemma CoreKeepsSealed(piece: string, core: string, a: nat, b: nat)
    requires Sealed(piece) && IsCore(piece, core, a, b)
    ensures Sealed(core)
  {
    forall i | 0 <= i < |core| && core[i] == ';'
      ensures !Balanced(core[..i])
    {
      assert piece[a + i] == ';';
      QuotesInside(piece, core, a, b, i);
    }
  }

  lemma CoreKeepsQuotes(piece: string, core: string, a: nat, b: nat)
    requires IsCore(piece, core, a, b)
    ensures Quotes(core) == Quotes(piece)
  {
    QuotesInside(piece, core, a, b, |core|);
    SpacesHaveNoQuotes(piece[b..]);
    assert core[..|core|] == core && piece == piece[..b] + piece[b..];
    QuotesAppend(piece[..b], piece[b..]);
  }

  /** Stripping drops no quote and no semicolon, so a sealed piece stays sealed. */
  lemma StripKeepsSealed(piece: string)
    requires Sealed(piece)
    ensures Sealed(Strip(piece)) && Quotes(Strip(piece)) == Quotes(piece)
  {
    var a, b := StripIsCore(piece);
    CoreKeepsSealed(piece, Strip(piece), a, b);
    CoreKeepsQuotes(piece, Strip(piece), a, b);
  }

  ghost predicate Clean(statements: seq<string>) {
    forall i :: 0 <= i < |statements| ==> Trimmed(statements[i]) && Sealed(statements[i])
  }

  ghost predicate AllBalanced(statements: seq<string>) {
    forall i :: 0 <= i < |statements| ==> Balanced(statements[i])
  }

  lemma CleanSnoc(front: seq<string>, last: string)
    requires Clean(front) && Trimmed(last) && Sealed(last)
    ensures Clean(front + [last]) && (AllBalanced(front) && Balanced(last) ==> AllBalanced(front + [last]))
  {
  }

  lemma {:induction false} KeptAreClean(pieces: seq<string>)
    requires forall i :: 0 <= i < |pieces| ==> Sealed(pieces[i])
    ensures Clean(Kept(pieces)) && (AllBalanced(pieces) ==> AllBalanced(Kept(pieces)))
  {
    if pieces != [] {
      var front, last := pieces[..|pieces| - 1], pieces[|pieces| - 1];
      KeptAreClean(front);
      StripKeepsSealed(last);
      StripEnds(last);
      if Strip(last) != "" {
        CleanSnoc(Kept(front), Strip(last));
      }
    }
  }

  lemma FrontIsBalanced(front: seq<string>, last: seq<string>)
    requires AllBalanced(front) && |last| <= 1
    ensures forall i :: 0 <= i < |front + last| - 1 ==> Balanced((front + last)[i])
  {
    assert forall i :: 0 <= i < |front| ==> (front + last)[i] == front[i];
  }

  /** The kept texts of a split are themselves a split of their join. */
  lemma KeptAreSplit(s: string, pieces: seq<string>)
    requires IsSplit(s, pieces) && Kept(pieces) != []
    ensures Clean(Kept(pieces)) && IsSplit(Join(Kept(pieces)), Kept(pieces))
  {
    var front, text := pieces[..|pieces| - 1], Strip(pieces[|pieces| - 1]);
    KeptAreClean(pieces);
    KeptAreClean(front);
    FrontIsBalanced(Kept(front), if text == "" then [] else [text]);
  }

  /**
    The splitter has an inverse: joining the statements of a text with semicolons and splitting
    again gives the same statements.
   */
  lemma SplittingTheJoinGivesTheSame(text: string, pieces: seq<string>)
    requires IsSplit(text, pieces)
    ensures forall again :: IsSplit(Join(Kept(pieces)), again) ==> Kept(again) == Kept(pieces)
  {
    forall again | IsSplit(Join(Kept(pieces)), again)
      ensures Kept(again) == Kept(pieces)
    {
      if Kept(pieces) == [] {
        NothingSplits(again);
      } else {
        KeptAreSplit(text, pieces);
        SplitIsUnique(Join(Kept(pieces)), again, Kept(pieces));
        KeptOfTrimmed(Kept(pieces));
      }
    }
  }

  lemma NothingSplits(pieces: seq<string>)
    requires IsSplit("", pieces)
    ensures Kept(pieces) == []
  {
    SplitIsUnique("", pieces, [""]);
    assert pieces[..0] == [];
  }

  /** And an input, text or list, has one list of statements; handing that list back leaves it alone. */
  lemma StatementsAreUnique(sql: Sql, p: seq<string>, q: seq<string>)
    requires AreStatements(sql, p) && AreStatements(sql, q)
    ensures p == q && AreStatements(Many(p), p)
  {
    match sql {
      case Many(given) =>
        KeptAreTrimmed(given);
        KeptOfTrimmed(p);
      case Text(text) =>
        var a :| IsSplit(text, a) && p == Kept(a);
        var b :| IsSplit(text, b) && q == Kept(b);
        SplitIsUnique(text, a, b);
        KeptAreTrimmed(a);
        KeptOfTrimmed(p);
    }
  }

  function Trimming(): string -> Option<string> {
    piece => if Strip(piece) == "" then None else Some(Strip(piece))
  }

  lemma {:induction false} KeptIsCollected(pieces: seq<string>)
    ensures Kept(pieces) == Collect(Trimming(), pieces)
  {
    if pieces != [] {
      KeptIsCollected(pieces[..|pieces| - 1]);
    }
  }

  lemma TrimmingIs(piece: string)
    ensures Trimming()(piece).None? <==> Blank(piece)
    ensures Trimming()(piece).Some? ==> IsStripped(piece, Trimming()(piece).value)
  {
    StripTrims(piece);
  }

  /** Exactly the pieces with some text are kept, in order, each without the white space at its ends. */
  lemma KeptPicks(pieces: seq<string>) returns (at: seq<nat>)
    ensures |Kept(pieces)| == |at| && (forall i, j :: 0 <= i < j < |at| ==> at[i] < at[j])
    ensures forall i :: 0 <= i < |at| ==> at[i] < |pieces| && IsStripped(pieces[at[i]], Kept(pieces)[i])
    ensures forall k :: 0 <= k < |pieces| ==> (k in at <==> !Blank(pieces[k]))
  {
    at := CollectPicks(Trimming(), pieces);
    KeptIsCollected(pieces);
    forall k | 0 <= k < |pieces|
      ensures Trimming()(pieces[k]).None? <==> Blank(pieces[k])
      ensures Trimming()(pieces[k]).Some? ==> IsStripped(pieces[k], Trimming()(pieces[k]).value)
    {
      TrimmingIs(pieces[k]);
    }
  }

  lemma {:induction false} KeptAreTrimmed(pieces: seq<string>)
    ensures forall i :: 0 <= i < |Kept(pieces)| ==> Trimmed(Kept(pieces)[i])
  {
    if pieces != [] {
      KeptAreTrimmed(pieces[..|pieces| - 1]);
      StripEnds(pieces[|pieces| - 1]);
    }
  }

  lemma {:induction false} KeptOfTrimmed(statements: seq<string>)
    requires forall i :: 0 <= i < |statements| ==> Trimmed(statements[i])
    ensures Kept(statements) == statements
  {
    if statements != [] {
      var front, last := statements[..|statements| - 1], statements[|statements| - 1];
      KeptOfTrimmed(front);
      StripKeepsTrimmed(last);
      assert statements == front + [last];
    }
  }
}
