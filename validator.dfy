/**
 * The SQL safety gate DatabaseTools.validate_sql: a keyword blocklist over the
 * upper-cased, trimmed text, a SELECT/WITH prefix test, a parse check and the
 * injection of a default LIMIT.
 *
 * `Validate` is the specification; `ValidateSql` is the source's procedure with
 * its search loop over the blocklist. The parser (sqlparse.parse) is a
 * parameter: `parses(sql)` stands for "sqlparse.parse(sql) is non-empty".
 */
module SqlValidator {
  import opened Wrappers
  import opened Strings

  /** DEFAULT_LIMIT of the configuration. */
  const DefaultLimit: nat := 100

  /** BLOCKED_KEYWORDS of the configuration, in its order. */
  const BlockedKeywords: seq<string> := ["INSERT", "UPDATE", "DELETE", "DROP", "ALTER", "CREATE", "TRUNCATE"]

  /** The (is_valid, message, modified_sql) triple. */
  datatype Validation = Validation(isValid: bool, message: string, effectiveSql: Option<string>)

  /** sql.upper().strip(), the text every check looks at. */
  function Normalized(sql: string): string {
    Strip(Upper(sql))
  }

  /** The index of the first keyword of BlockedKeywords[from..] occurring in `upper`, or |BlockedKeywords| if none does. */
  function FirstBlocked(upper: string, from: nat): (k: nat)
    requires from <= |BlockedKeywords|
    ensures from <= k <= |BlockedKeywords|
    ensures k < |BlockedKeywords| ==> Contains(upper, BlockedKeywords[k])
    ensures forall j :: from <= j < k ==> !Contains(upper, BlockedKeywords[j])
    decreases |BlockedKeywords| - from
  {
    if from == |BlockedKeywords| then from
    else if Contains(upper, BlockedKeywords[from]) then from
    else FirstBlocked(upper, from + 1)
  }

  function BlockedMessage(keyword: string): string {
    "\U{274C} Blocked operation: " + keyword + ". Only read-only queries allowed."
  }

  const NotSelectMessage: string := "\U{274C} Only SELECT queries are allowed."
  const SyntaxMessage: string := "\U{274C} Invalid SQL syntax."
  const ValidMessage: string := "\U{2713} Valid SQL query."

  /** str(DEFAULT_LIMIT), as the f-strings render it (DefaultLimitRendered). */
  const DefaultLimitText: string := "100"

  const LimitAddedMessage: string := "\U{2713} Valid. Added LIMIT " + DefaultLimitText + " for safety."

  const LimitClause: string := " LIMIT " + DefaultLimitText

  /** f"{sql.rstrip(';')} LIMIT {DEFAULT_LIMIT}" */
  function WithLimit(sql: string): string {
    RStripChar(sql, ';') + LimitClause
  }

  predicate IsReadQuery(upper: string) {
    StartsWith(upper, "SELECT") || StartsWith(upper, "WITH")
  }

  /** Neither a LIMIT nor one of the aggregates COUNT(, SUM(, AVG( occurs. */
  predicate NeedsLimit(upper: string) {
    !Contains(upper, "LIMIT") && !Contains(upper, "COUNT(") && !Contains(upper, "SUM(") && !Contains(upper, "AVG(")
  }

  predicate PassesBlocklist(sql: string) {
    forall k :: 0 <= k < |BlockedKeywords| ==> !Contains(Normalized(sql), BlockedKeywords[k])
  }

  /** What every statement that reaches the database must satisfy. */
  predicate Safe(sql: string) {
    PassesBlocklist(sql) && IsReadQuery(Normalized(sql))
  }

  function Validate(sql: string, parses: string -> bool): Validation {
    var upper := Normalized(sql);
    var k := FirstBlocked(upper, 0);
    if k < |BlockedKeywords| then
      Validation(false, BlockedMessage(BlockedKeywords[k]), None)
    else if !IsReadQuery(upper) then
      Validation(false, NotSelectMessage, None)
    else if !parses(sql) then
      Validation(false, SyntaxMessage, None)
    else if NeedsLimit(upper) then
      Validation(true, LimitAddedMessage, Some(WithLimit(sql)))
    else
      Validation(true, ValidMessage, Some(sql))
  }

  /** FirstBlocked finds keyword i when it is the first of BlockedKeywords[from..] to occur. */
  lemma {:induction false} FirstBlockedAt(upper: string, from: nat, i: nat)
    requires from <= i < |BlockedKeywords| && Contains(upper, BlockedKeywords[i])
    requires forall j :: from <= j < i ==> !Contains(upper, BlockedKeywords[j])
    ensures FirstBlocked(upper, from) == i
    decreases i - from
  {
    if from < i {
      FirstBlockedAt(upper, from + 1, i);
    }
  }

  /** FirstBlocked reports no keyword when none of BlockedKeywords[from..] occurs. */
  lemma {:induction false} FirstBlockedNone(upper: string, from: nat)
    requires from <= |BlockedKeywords|
    requires forall j :: from <= j < |BlockedKeywords| ==> !Contains(upper, BlockedKeywords[j])
    ensures FirstBlocked(upper, from) == |BlockedKeywords|
    decreases |BlockedKeywords| - from
  {
    if from < |BlockedKeywords| {
      FirstBlockedNone(upper, from + 1);
    }
  }

  /** validate_sql, with its loop over the blocklist and its early returns. */
  method ValidateSql(sql: string, parses: string -> bool) returns (isValid: bool, message: string, modifiedSql: Option<string>)
    ensures Validation(isValid, message, modifiedSql) == Validate(sql, parses)
  {
    var sqlUpper := Strip(Upper(sql));
    for i := 0 to |BlockedKeywords|
      invariant forall j :: 0 <= j < i ==> !Contains(sqlUpper, BlockedKeywords[j])
    {
      if Contains(sqlUpper, BlockedKeywords[i]) {
        FirstBlockedAt(sqlUpper, 0, i);
        return false, BlockedMessage(BlockedKeywords[i]), None;
      }
    }
    FirstBlockedNone(sqlUpper, 0);
    if !StartsWith(sqlUpper, "SELECT") && !StartsWith(sqlUpper, "WITH") {
      return false, NotSelectMessage, None;
    }
    if !parses(sql) {
      return false, SyntaxMessage, None;
    }
    modifiedSql := Some(sql);
    if !Contains(sqlUpper, "LIMIT") {
      if !Contains(sqlUpper, "COUNT(") && !Contains(sqlUpper, "SUM(") && !Contains(sqlUpper, "AVG(") {
        modifiedSql := Some(RStripChar(sql, ';') + LimitClause);
        return true, LimitAddedMessage, modifiedSql;
      }
    }
    return true, ValidMessage, modifiedSql;
  }

  // ---------------------------------------------------------------------------
  // Constants

  /** The limit appears in the SQL and in the message as the decimal digits of DefaultLimit. */
  lemma DefaultLimitRendered()
    ensures Decimal(DefaultLimit) == DefaultLimitText
  {
    assert Decimal(10) == Decimal(1) + [DigitChar(0)];
    assert Decimal(100) == Decimal(10) + [DigitChar(0)];
  }

  lemma KeywordsAreCapitalWords()
    ensures forall k :: 0 <= k < |BlockedKeywords| ==> IsCapitalWord(BlockedKeywords[k])
  {
  }

  /** A capital word occurs in the upper-cased text exactly when it occurs in the trimmed upper-cased text. */
  lemma TrimIrrelevant(sql: string, w: string)
    requires IsCapitalWord(w)
    ensures Contains(Upper(sql), w) <==> Contains(Normalized(sql), w)
  {
    var a, b := StripBounds(Upper(sql));
    ContainsWithinSpaces(Upper(sql), a, b, w);
  }

  // ---------------------------------------------------------------------------
  // The checks and their order

  /**
   * A blocked keyword anywhere in the upper-cased text, inside an identifier
   * or not, rejects the statement; the message names the first keyword of the
   * list that occurs, and no SQL is returned.
   */
  lemma BlockedKeywordRejects(sql: string, parses: string -> bool, kw: string)
    requires kw in BlockedKeywords && Contains(Upper(sql), kw)
    ensures var k := FirstBlocked(Normalized(sql), 0);
      && k < |BlockedKeywords|
      && Contains(Upper(sql), BlockedKeywords[k])
      && (forall j :: 0 <= j < k ==> !Contains(Upper(sql), BlockedKeywords[j]))
      && Validate(sql, parses) == Validation(false, BlockedMessage(BlockedKeywords[k]), None)
  {
    KeywordsAreCapitalWords();
    forall j | 0 <= j < |BlockedKeywords|
      ensures Contains(Upper(sql), BlockedKeywords[j]) <==> Contains(Normalized(sql), BlockedKeywords[j])
    {
      TrimIrrelevant(sql, BlockedKeywords[j]);
    }
    var i :| 0 <= i < |BlockedKeywords| && BlockedKeywords[i] == kw;
    assert FirstBlocked(Normalized(sql), 0) <= i;
  }

  /** The verdict once FirstBlocked has found keyword i. */
  lemma BlockedVerdict(sql: string, parses: string -> bool, i: nat)
    requires i < |BlockedKeywords| && FirstBlocked(Normalized(sql), 0) == i
    ensures Validate(sql, parses) == Validation(false, BlockedMessage(BlockedKeywords[i]), None)
  {
  }

  /** Past the blocklist, a statement starting with neither SELECT nor WITH is rejected without SQL. */
  lemma NonReadQueryRejected(sql: string, parses: string -> bool)
    requires PassesBlocklist(sql) && !IsReadQuery(Normalized(sql))
    ensures Validate(sql, parses) == Validation(false, NotSelectMessage, None)
  {
    assert FirstBlocked(Normalized(sql), 0) == |BlockedKeywords|;
  }

  /**
   * The parser is consulted only after the blocklist and the prefix test have
   * passed: before that the verdict does not depend on it, and after that its
   * rejection alone decides the syntax error.
   */
  lemma ParserConsultedLast(sql: string, p: string -> bool, q: string -> bool)
    ensures !Safe(sql) ==> Validate(sql, p) == Validate(sql, q)
    ensures Safe(sql) ==> (Validate(sql, p) == Validation(false, SyntaxMessage, None) <==> !p(sql))
  {
    var k := FirstBlocked(Normalized(sql), 0);
    if k == |BlockedKeywords| {
      assert PassesBlocklist(sql);
    } else {
      assert !PassesBlocklist(sql);
    }
  }

  /** The verdict, both ways: valid exactly when all three checks pass, and then an effective SQL is always returned. */
  lemma ValidIff(sql: string, parses: string -> bool)
    ensures Validate(sql, parses).isValid <==> Safe(sql) && parses(sql)
    ensures Validate(sql, parses).isValid <==> Validate(sql, parses).effectiveSql.Some?
  {
    var k := FirstBlocked(Normalized(sql), 0);
    if k < |BlockedKeywords| {
      assert !PassesBlocklist(sql);
      assert !Validate(sql, parses).isValid;
    } else {
      assert PassesBlocklist(sql);
    }
  }

  /** With neither LIMIT nor an aggregate, the statement is returned with its trailing ';' removed and " LIMIT 100" appended. */
  lemma LimitAppended(sql: string, parses: string -> bool)
    requires Safe(sql) && parses(sql) && NeedsLimit(Normalized(sql))
    ensures Validate(sql, parses) == Validation(true, LimitAddedMessage, Some(RStripChar(sql, ';') + LimitClause))
    ensures LimitClause == " LIMIT 100" && LimitAddedMessage == "\U{2713} Valid. Added LIMIT 100 for safety."
  {
    FirstBlockedNone(Normalized(sql), 0);
  }

  /** With a LIMIT or an aggregate present, a valid statement is returned unchanged. */
  lemma LimitOrAggregateKept(sql: string, parses: string -> bool)
    requires Safe(sql) && parses(sql) && !NeedsLimit(Normalized(sql))
    ensures Validate(sql, parses) == Validation(true, ValidMessage, Some(sql))
  {
    FirstBlockedNone(Normalized(sql), 0);
  }

  // ---------------------------------------------------------------------------
  // What the rewrite keeps

  /** The appended clause: a blank, LIMIT, the limit; no blocked keyword occurs in it. */
  lemma LimitClauseFacts()
    ensures LimitClause == " LIMIT 100"
    ensures Upper(LimitClause) == LimitClause
    ensures IsSpace(LimitClause[0]) && !IsSpace(LimitClause[|LimitClause| - 1])
    ensures OccursAt(LimitClause, "LIMIT", 1)
    ensures forall k :: 0 <= k < |BlockedKeywords| ==> !Contains(LimitClause, BlockedKeywords[k])
  {
    var t := LimitClause;
    assert t == " LIMIT 100";
    assert t[1..6] == "LIMIT";
    NoKeywordWithout(t);
  }

  /** A text lacking the letters N, U, D, A and R contains none of the blocked keywords. */
  lemma NoKeywordWithout(t: string)
    requires 'N' !in t && 'U' !in t && 'D' !in t && 'A' !in t && 'R' !in t
    ensures forall k :: 0 <= k < |BlockedKeywords| ==> !Contains(t, BlockedKeywords[k])
  {
    forall k | 0 <= k < |BlockedKeywords|
      ensures !Contains(t, BlockedKeywords[k])
    {
      var w := BlockedKeywords[k];
      if k == 0 {
        assert w[1] == 'N';
        AbsentChar(t, w, 'N');
      } else if k == 1 {
        assert w[0] == 'U';
        AbsentChar(t, w, 'U');
      } else if k == 2 || k == 3 {
        assert w[0] == 'D';
        AbsentChar(t, w, 'D');
      } else if k == 4 {
        assert w[0] == 'A';
        AbsentChar(t, w, 'A');
      } else {
        assert w[1] == 'R';
        AbsentChar(t, w, 'R');
      }
    }
  }

  /** Upper-casing the rewrite gives the upper-cased original, cut after its trailing ';' run is dropped, plus the clause. */
  lemma UpperWithLimit(sql: string)
    ensures var p := RStripChar(sql, ';');
      |p| <= |sql| && Upper(WithLimit(sql)) == Upper(sql)[..|p|] + LimitClause
  {
    var p := RStripChar(sql, ';');
    RStripCharShape(sql, ';');
    LimitClauseFacts();
    UpperConcat(p, LimitClause);
    UpperPrefix(sql, p);
  }

  /**
   * The characters that make the SELECT or WITH prefix are not ';', so
   * rstrip(';') leaves them in place.
   */
  lemma ReadPrefixSurvives(sql: string) returns (a: nat, b: nat)
    requires IsReadQuery(Normalized(sql))
    ensures var u := Upper(sql); var p := RStripChar(sql, ';');
      && a <= b <= |u| && Normalized(sql) == u[a..b]
      && (forall k :: 0 <= k < a ==> IsSpace(u[k]))
      && (forall k :: b <= k < |u| ==> IsSpace(u[k]))
      && a + 4 <= |p|
      && (StartsWith(Normalized(sql), "SELECT") ==> a + 6 <= |p|)
  {
    var u := Upper(sql);
    var p := RStripChar(sql, ';');
    RStripCharShape(sql, ';');
    a, b := StripBounds(u);
    var n := Normalized(sql);
    var w := if StartsWith(n, "SELECT") then "SELECT" else "WITH";
    var m := |w|;
    assert StartsWith(n, w);
    assert n[m - 1] == w[m - 1] != ';';
    var i := a + m - 1;
    assert u[i] == n[m - 1];
    assert sql[i] != ';';
  }

  /** The trimmed, upper-cased rewrite is the upper-cased original from the start of its trim, cut by rstrip(';'), plus " LIMIT 100". */
  lemma RewriteNormalized(sql: string) returns (a: nat, b: nat)
    requires IsReadQuery(Normalized(sql))
    ensures var u := Upper(sql); var p := RStripChar(sql, ';');
      && a <= b <= |u| && Normalized(sql) == u[a..b]
      && (forall k :: b <= k < |u| ==> IsSpace(u[k]))
      && a + 4 <= |p| <= |u|
      && (StartsWith(Normalized(sql), "SELECT") ==> a + 6 <= |p|)
      && Normalized(WithLimit(sql)) == u[a..|p|] + LimitClause
  {
    var u := Upper(sql);
    var p := RStripChar(sql, ';');
    a, b := ReadPrefixSurvives(sql);
    UpperWithLimit(sql);
    LimitClauseFacts();
    var t := LimitClause;
    var v := u[..|p|];
    var e := v + t;
    assert Upper(WithLimit(sql)) == e;
    assert e[|e| - 1] == t[|t| - 1];
    RStripKeeps(e);
    assert e[a] == u[a] == Normalized(sql)[0];
    forall k | 0 <= k < a
      ensures IsSpace(e[k])
    {
      assert e[k] == u[k];
    }
    LStripAt(e, a);
    assert e[a..] == v[a..] + t;
    assert v[a..] == u[a..|p|];
  }

  /** The rewrite passes the blocklist: the kept text lies within the original's trimmed text, and the clause has no keyword. */
  lemma RewritePassesBlocklist(sql: string)
    requires PassesBlocklist(sql) && IsReadQuery(Normalized(sql))
    ensures PassesBlocklist(WithLimit(sql))
  {
    var a, b := RewriteNormalized(sql);
    var u := Upper(sql);
    var p := RStripChar(sql, ';');
    var n := Normalized(sql);
    var x := u[a..|p|];
    var t := LimitClause;
    KeywordsAreCapitalWords();
    LimitClauseFacts();
    forall k | 0 <= k < |BlockedKeywords|
      ensures !Contains(x + t, BlockedKeywords[k])
    {
      var w := BlockedKeywords[k];
      if Contains(x + t, w) {
        ContainsConcat(x, t, w);
        var c := if |p| <= b then |p| else b;
        ContainsWithinSpaces(x, 0, c - a, w);
        assert x[0..c - a] == u[a..c];
        ContainsPrefix(n, u[a..c], w);
      }
    }
  }

  /** The rewrite still starts with the SELECT or WITH that the original started with, and now carries a LIMIT. */
  lemma RewriteIsLimitedRead(sql: string)
    requires IsReadQuery(Normalized(sql))
    ensures IsReadQuery(Normalized(WithLimit(sql)))
    ensures !NeedsLimit(Normalized(WithLimit(sql)))
  {
    var a, b := RewriteNormalized(sql);
    var u := Upper(sql);
    var p := RStripChar(sql, ';');
    var n := Normalized(sql);
    var x := u[a..|p|];
    var ne := Normalized(WithLimit(sql));
    var m := if StartsWith(n, "SELECT") then 6 else 4;
    forall i | 0 <= i < m
      ensures ne[i] == n[i]
    {
      assert ne[i] == x[i] == u[a + i];
    }
    assert ne[..m] == n[..m];
    LimitClauseFacts();
    var t := LimitClause;
    assert ne[|x| + 1..|x| + 6] == t[1..6];
    assert OccursAt(ne, "LIMIT", |x| + 1);
  }

  /** The effective SQL of a valid statement passes the blocklist and the prefix test again, and no longer needs a LIMIT. */
  lemma EffectiveSqlIsSafe(sql: string, parses: string -> bool)
    requires Validate(sql, parses).isValid
    ensures Safe(Validate(sql, parses).effectiveSql.value)
    ensures !NeedsLimit(Normalized(Validate(sql, parses).effectiveSql.value))
  {
    ValidIff(sql, parses);
    if NeedsLimit(Normalized(sql)) {
      LimitAppended(sql, parses);
      RewritePassesBlocklist(sql);
      RewriteIsLimitedRead(sql);
    } else {
      LimitOrAggregateKept(sql, parses);
    }
  }

  /**
   * Idempotence: validating the effective SQL of a valid statement accepts it
   * and returns it unchanged, so a second LIMIT is never appended.
   */
  lemma RevalidationIsIdentity(sql: string, parses: string -> bool)
    requires Validate(sql, parses).isValid
    requires parses(Validate(sql, parses).effectiveSql.value)
    ensures var e := Validate(sql, parses).effectiveSql.value;
      Validate(e, parses) == Validation(true, ValidMessage, Some(e))
  {
    EffectiveSqlIsSafe(sql, parses);
    var e := Validate(sql, parses).effectiveSql.value;
    ValidIff(e, parses);
  }
}
