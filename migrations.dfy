/**
 * `DatabaseMigrations.splitSqlStatements`: drop `--` line comments, then block
 * comments (slash-star to star-slash), split on `;`, trim, and keep the non-empty pieces; and the
 * migration helper's own copy of the game-key encoding.
 */
module Migrations {
  import opened Wrappers
  import opened Text
  import SquiggleService

  /** The characters a JavaScript regular expression's `.` does not match, and before which `$` matches under `m`. */
  predicate IsLineTerminator(c: char)
  {
    c == '\n' || c == '\r' || c == '\U{2028}' || c == '\U{2029}'
  }

  /** The index of the first line terminator in `s`, or `|s|`: where `.*$` stops. */
  function LineEnd(s: string): (k: nat)
    ensures k <= |s|
    ensures forall i :: 0 <= i < k ==> !IsLineTerminator(s[i])
    ensures k < |s| ==> IsLineTerminator(s[k])
  {
    if s == [] || IsLineTerminator(s[0]) then 0 else 1 + LineEnd(s[1..])
  }

  predicate DashesAt(s: string, i: int)
  {
    0 <= i < |s| - 1 && s[i] == '-' && s[i + 1] == '-'
  }

  predicate HasDashes(s: string)
  {
    exists i :: 0 <= i < |s| && DashesAt(s, i)
  }

  predicate BlockOpenAt(s: string, i: int)
  {
    0 <= i < |s| - 1 && s[i] == '/' && s[i + 1] == '*'
  }

  predicate BlockCloseAt(s: string, i: int)
  {
    0 <= i < |s| - 1 && s[i] == '*' && s[i + 1] == '/'
  }

  predicate HasBlockOpen(s: string)
  {
    exists i :: 0 <= i < |s| && BlockOpenAt(s, i)
  }

  /**
   * `sql.replace(/--.*$/gm, '')`: from the leftmost `--`, everything up to (not
   * including) the next line terminator goes; the scan resumes there.
   */
  function StripLineComments(s: string): (r: string)
    ensures |r| <= |s|
    ensures !HasDashes(r)
    ensures r != [] && r[0] == '-' ==> s[0] == '-' && !DashesAt(s, 0)
    ensures !HasDashes(s) ==> r == s
    decreases |s|
  {
    if |s| < 2 then
      s
    else if s[0] == '-' && s[1] == '-' then
      var k := LineEnd(s);
      assert DashesAt(s, 0);
      StripLineComments(s[k..])
    else
      var rest := StripLineComments(s[1..]);
      DashesTail(s);
      NoDashesCons(s[0], rest, s[1]);
      [s[0]] + rest
  }

  lemma NoDashesCons(c: char, rest: string, next: char)
    requires !HasDashes(rest)
    requires rest != [] && rest[0] == '-' ==> next == '-'
    requires c == '-' ==> next != '-'
    ensures !HasDashes([c] + rest)
  {
    var r := [c] + rest;
    if HasDashes(r) {
      var i :| 0 <= i < |r| && DashesAt(r, i);
      if i == 0 {
        assert false;
      } else {
        assert r[i] == rest[i - 1] && r[i + 1] == rest[i];
        assert DashesAt(rest, i - 1);
      }
    }
  }

  lemma DashesTail(s: string)
    requires |s| >= 1
    ensures HasDashes(s[1..]) ==> HasDashes(s)
  {
    if HasDashes(s[1..]) {
      var i :| 0 <= i < |s[1..]| && DashesAt(s[1..], i);
      assert s[1..][i] == s[i + 1];
      assert DashesAt(s, i + 1);
    }
  }

  lemma BlockOpenTail(s: string)
    requires |s| >= 1
    ensures HasBlockOpen(s[1..]) ==> HasBlockOpen(s)
  {
    if HasBlockOpen(s[1..]) {
      var i :| 0 <= i < |s[1..]| && BlockOpenAt(s[1..], i);
      assert s[1..][i] == s[i + 1];
      assert BlockOpenAt(s, i + 1);
    }
  }

  /** The first star-slash pair starting at or after index `i`, if any: the end of the lazy `[\s\S]*?`. */
  function CloseFrom(s: string, i: nat): (r: Option<nat>)
    requires i <= |s|
    ensures r.Some? ==> i <= r.value && BlockCloseAt(s, r.value)
    ensures r.Some? ==> forall j :: i <= j < r.value ==> !BlockCloseAt(s, j)
    ensures r.None? ==> forall j :: i <= j < |s| ==> !BlockCloseAt(s, j)
    decreases |s| - i
  {
    if i + 1 >= |s| then None
    else if s[i] == '*' && s[i + 1] == '/' then Some(i)
    else CloseFrom(s, i + 1)
  }

  /**
   * `.replace(/\/\*[\s\S]*?\*\//g, '')`: at each position the regular expression tries
   * an opening slash-star whose closing star-slash starts two characters later or beyond; a
   * match is removed and the scan resumes after it, otherwise one character is kept.
   */
  function StripBlockComments(s: string): (r: string)
    ensures |r| <= |s|
    ensures !HasBlockOpen(s) ==> r == s
    decreases |s|
  {
    if |s| < 2 then
      s
    else if s[0] == '/' && s[1] == '*' && CloseFrom(s, 2).Some? then
      assert BlockOpenAt(s, 0);
      StripBlockComments(s[CloseFrom(s, 2).value + 2..])
    else
      BlockOpenTail(s);
      [s[0]] + StripBlockComments(s[1..])
  }

  /** Not empty and without white space at either end: what `trim` leaves of a non-blank piece. */
  predicate Trimmed(t: string)
  {
    t != [] && !IsSpace(t[0]) && !IsSpace(t[|t| - 1])
  }

  /** A statement as the splitter returns it: trimmed, not empty and without `;`. */
  predicate IsStatement(t: string)
  {
    Trimmed(t) && ';' !in t
  }

  /** `.map(stmt => stmt.trim()).filter(stmt => stmt.length > 0)` over the pieces. */
  function TrimmedNonEmpty(pieces: seq<string>): (r: seq<string>)
    ensures |r| <= |pieces|
  {
    if pieces == [] then []
    else
      var t := Trim(pieces[0]);
      var rest := TrimmedNonEmpty(pieces[1..]);
      if t == [] then rest else [t] + rest
  }

  /** Every piece that survives the filter is trimmed and not empty. */
  lemma {:induction false} TrimmedNonEmptyTrimmed(pieces: seq<string>)
    ensures forall i :: 0 <= i < |TrimmedNonEmpty(pieces)| ==> Trimmed(TrimmedNonEmpty(pieces)[i])
  {
    if pieces != [] {
      TrimmedNonEmptyTrimmed(pieces[1..]);
      TrimShape(pieces[0]);
      var t := Trim(pieces[0]);
      var rest := TrimmedNonEmpty(pieces[1..]);
      if t != [] {
        assert TrimmedNonEmpty(pieces) == [t] + rest;
        TrimmedCons(t, rest);
      }
    }
  }

  lemma TrimmedCons(t: string, rest: seq<string>)
    requires Trimmed(t) && forall i :: 0 <= i < |rest| ==> Trimmed(rest[i])
    ensures forall i :: 0 <= i < |[t] + rest| ==> Trimmed(([t] + rest)[i])
  {
  }

  /** A character in none of the pieces is in none of the statements. */
  lemma {:induction false} TrimmedNonEmptyAvoids(pieces: seq<string>, c: char)
    requires forall i :: 0 <= i < |pieces| ==> c !in pieces[i]
    ensures forall i :: 0 <= i < |TrimmedNonEmpty(pieces)| ==> c !in TrimmedNonEmpty(pieces)[i]
  {
    if pieces != [] {
      TrimmedNonEmptyAvoids(pieces[1..], c);
      TrimKeeps(pieces[0], c);
      var t := Trim(pieces[0]);
      var rest := TrimmedNonEmpty(pieces[1..]);
      if t != [] {
        assert TrimmedNonEmpty(pieces) == [t] + rest;
        AvoidsCons(t, rest, c);
      }
    }
  }

  lemma AvoidsCons(t: string, rest: seq<string>, c: char)
    requires c !in t && forall i :: 0 <= i < |rest| ==> c !in rest[i]
    ensures forall i :: 0 <= i < |[t] + rest| ==> c !in ([t] + rest)[i]
  {
  }

  /** `splitSqlStatements(sql)`. */
  function SplitSqlStatements(sql: string): (r: seq<string>)
  {
    var text := StripBlockComments(StripLineComments(sql));
    TrimmedNonEmpty(Split(text, ';'))
  }

  /** Every returned statement is non-empty, trimmed and free of `;`. */
  lemma {:induction false} StatementsAreClean(sql: string)
    ensures forall i :: 0 <= i < |SplitSqlStatements(sql)| ==> IsStatement(SplitSqlStatements(sql)[i])
  {
    var text := StripBlockComments(StripLineComments(sql));
    var pieces := Split(text, ';');
    SplitPiecesFree(text, ';');
    TrimmedNonEmptyAvoids(pieces, ';');
    TrimmedNonEmptyTrimmed(pieces);
    assert SplitSqlStatements(sql) == TrimmedNonEmpty(pieces);
  }

  /** A `--` comment runs to just before the next line terminator, which is kept. */
  lemma {:induction false} LineCommentRemoved(c: string, t: string)
    requires forall i :: 0 <= i < |c| ==> !IsLineTerminator(c[i])
    requires t == [] || IsLineTerminator(t[0])
    ensures StripLineComments("--" + c + t) == StripLineComments(t)
  {
    var s := "--" + c + t;
    var k := LineEnd(s);
    assert forall i :: 2 <= i < 2 + |c| ==> s[i] == c[i - 2];
    assert t != [] ==> s[2 + |c|] == t[0];
    assert k == 2 + |c|;
    assert s[k..] == t;
  }

  /** A block comment is removed through the first star-slash after its opening, and the scan resumes behind it. */
  lemma {:induction false} BlockCommentRemoved(c: string, t: string)
    requires forall j :: 0 <= j < |c| ==> !BlockCloseAt(c + "*/", j)
    ensures StripBlockComments("/*" + c + "*/" + t) == StripBlockComments(t)
  {
    var s := "/*" + c + "*/" + t;
    assert BlockCloseAt(s, 2 + |c|);
    var close := CloseFrom(s, 2);
    forall j | 2 <= j < 2 + |c| ensures !BlockCloseAt(s, j) {
      assert !BlockCloseAt(c + "*/", j - 2);
      assert s[j] == (c + "*/")[j - 2] && s[j + 1] == (c + "*/")[j - 1];
    }
    assert close == Some(2 + |c|);
    assert s[2 + |c| + 2..] == t;
  }

  /** Text without `--` and without an opening slash-star is split as it stands. */
  lemma {:induction false} CommentFreeSplit(sql: string)
    requires !HasDashes(sql) && !HasBlockOpen(sql)
    ensures SplitSqlStatements(sql) == TrimmedNonEmpty(Split(sql, ';'))
  {
    assert StripLineComments(sql) == sql;
    assert StripBlockComments(sql) == sql;
  }

  /** With no comment markers and no `;`, the result is the trimmed text, or nothing when it is blank. */
  lemma {:induction false} SingleStatement(sql: string)
    requires !HasDashes(sql) && !HasBlockOpen(sql) && ';' !in sql
    ensures SplitSqlStatements(sql) == (if IsBlank(sql) then [] else [Trim(sql)])
  {
    CommentFreeSplit(sql);
    SplitNoSeparator(sql, ';');
    TrimShape(sql);
    assert Split(sql, ';') == [sql];
    assert TrimmedNonEmpty([sql]) == (if Trim(sql) == [] then [] else [Trim(sql)] + TrimmedNonEmpty([]));
  }

  /**
   * Statements keep their source order: for comment-free text, the statements of
   * `a;b` are those of `a` followed by those of `b`.
   */
  lemma {:induction false} StatementsInOrder(a: string, b: string)
    requires ';' !in a
    requires !HasDashes(a + ";" + b) && !HasBlockOpen(a + ";" + b)
    ensures SplitSqlStatements(a + ";" + b) == SplitSqlStatements(a) + SplitSqlStatements(b)
  {
    MarkersApart(a, b);
    CommentFreeSplit(a + ";" + b);
    CommentFreeSplit(a);
    CommentFreeSplit(b);
    SplitAfterFirst(a, b);
    SplitNoSeparator(a, ';');
    TrimmedNonEmptyCons(a, Split(b, ';'));
  }

  /** Neither side of `a;b` has a comment marker when the whole has none. */
  lemma {:induction false} MarkersApart(a: string, b: string)
    requires !HasDashes(a + ";" + b) && !HasBlockOpen(a + ";" + b)
    ensures !HasDashes(a) && !HasBlockOpen(a) && !HasDashes(b) && !HasBlockOpen(b)
  {
    var s := a + ";" + b;
    if HasDashes(a) {
      var i :| 0 <= i < |a| && DashesAt(a, i);
      assert s[i] == a[i] && s[i + 1] == a[i + 1];
      assert DashesAt(s, i);
    }
    if HasBlockOpen(a) {
      var i :| 0 <= i < |a| && BlockOpenAt(a, i);
      assert s[i] == a[i] && s[i + 1] == a[i + 1];
      assert BlockOpenAt(s, i);
    }
    if HasDashes(b) {
      var i :| 0 <= i < |b| && DashesAt(b, i);
      assert s[|a| + 1 + i] == b[i] && s[|a| + 2 + i] == b[i + 1];
      assert DashesAt(s, |a| + 1 + i);
    }
    if HasBlockOpen(b) {
      var i :| 0 <= i < |b| && BlockOpenAt(b, i);
      assert s[|a| + 1 + i] == b[i] && s[|a| + 2 + i] == b[i + 1];
      assert BlockOpenAt(s, |a| + 1 + i);
    }
  }

  lemma {:induction false} TrimmedNonEmptyCons(p: string, ps: seq<string>)
    ensures TrimmedNonEmpty([p] + ps) == TrimmedNonEmpty([p]) + TrimmedNonEmpty(ps)
  {
    var q := [p] + ps;
    assert q[0] == p && q[1..] == ps;
    assert [p][0] == p && [p][1..] == [];
    if Trim(p) == [] {
      assert TrimmedNonEmpty(q) == TrimmedNonEmpty(ps);
    } else {
      assert TrimmedNonEmpty(q) == [Trim(p)] + TrimmedNonEmpty(ps);
    }
  }

  lemma {:induction false} SplitAfterFirst(a: string, b: string)
    requires ';' !in a
    ensures Split(a + ";" + b, ';') == [a] + Split(b, ';')
  {
    var s := a + ";" + b;
    assert s[..|a|] == a && s[|a|] == ';';
    var i := Sorting.IndexOf(s, ';');
    assert i == |a|;
    assert s[..i] == a && s[i + 1..] == b;
  }

  /** Comment markers inside string literals are not recognised: the literal `'--'` is cut short. */
  lemma LiteralsNotRespected()
    ensures SplitSqlStatements("'--'") == ["'"]
  {
    var s := "'--'";
    assert LineEnd(s[1..]) == 3;
    assert StripLineComments(s[1..]) == "";
    assert StripLineComments(s) == "'";
    assert StripBlockComments("'") == "'";
    SplitNoSeparator("'", ';');
    assert !IsSpace('\'');
    assert TrimStart("'") == "'" && TrimEnd("'") == "'";
    assert Trim("'") == "'";
    assert TrimmedNonEmpty(["'"]) == ["'"] + TrimmedNonEmpty([]);
  }

  /** The migration helper's `generateSquiggleGameKey`: the same encoding as the service's. */
  function GenerateSquiggleGameKey(roundNumber: int, gameNumber: int): (key: string)
    ensures key == SquiggleService.GameKey(roundNumber, gameNumber)
    ensures 0 <= roundNumber <= 99 && 1 <= gameNumber <= 9 ==> |key| == 3 && AllDigits(key)
  {
    var round := PadStart2(IntToString(roundNumber));
    var game := IntToString(gameNumber);
    assert 0 <= roundNumber <= 99 && 1 <= gameNumber <= 9 ==> |round + game| == 3 && AllDigits(round + game) by {
      if 0 <= roundNumber <= 99 && 1 <= gameNumber <= 9 {
        SquiggleService.GameKeyShape(roundNumber, gameNumber);
      }
    }
    round + game
  }
}
