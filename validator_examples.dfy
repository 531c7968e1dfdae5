/** Two concrete statements run through the validator. */
module ValidatorExamples {
  import opened Wrappers
  import opened Strings
  import opened SqlValidator

  lemma UpdatedAtHasUpdate(sql: string)
    requires sql == "select updated_at from t"
    ensures OccursAt(Upper(sql), "UPDATE", 7)
  {
    var u := Upper(sql);
    assert |u| == 24;
    assert u[7] == 'U' && u[8] == 'P' && u[9] == 'D' && u[10] == 'A' && u[11] == 'T' && u[12] == 'E';
    assert u[7..13] == "UPDATE";
  }

  lemma UpdatedAtLacksInsert(sql: string)
    requires sql == "select updated_at from t"
    ensures !Contains(Upper(sql), "INSERT")
  {
    UpperAbsent(sql, 'I');
    AbsentChar(Upper(sql), "INSERT", 'I');
  }

  /** When UPDATE but not INSERT occurs in the upper-cased text, UPDATE (index 1) is the keyword reported. */
  lemma UpdateBeforeInsert(sql: string)
    requires Contains(Upper(sql), "UPDATE") && !Contains(Upper(sql), "INSERT")
    ensures FirstBlocked(Normalized(sql), 0) == 1
  {
    var w0, w1 := BlockedKeywords[0], BlockedKeywords[1];
    assert w1 == "UPDATE" && w0 == "INSERT";
    KeywordsAreCapitalWords();
    TrimIrrelevant(sql, w0);
    TrimIrrelevant(sql, w1);
    FirstBlockedAt(Normalized(sql), 0, 1);
  }

  /** A column named updated_at trips the UPDATE keyword. */
  lemma UpdatedAtIsBlocked(sql: string, parses: string -> bool)
    requires sql == "select updated_at from t"
    ensures !Validate(sql, parses).isValid
    ensures Validate(sql, parses).message == BlockedMessage(BlockedKeywords[1]) && BlockedKeywords[1] == "UPDATE"
  {
    UpdatedAtHasUpdate(sql);
    UpdatedAtLacksInsert(sql);
    UpdateBeforeInsert(sql);
    BlockedVerdict(sql, parses, 1);
  }

  lemma TrailingBlankNormalized(sql: string)
    requires sql == "SELECT 1; "
    ensures Normalized(sql) == "SELECT 1;"
  {
    var u := Upper(sql);
    assert u == sql;
    var a, b := StripBounds(u);
    assert !IsSpace(u[0]) && !IsSpace(u[8]) && IsSpace(u[9]);
    assert a == 0 && b == 9;
    assert u[0..9] == "SELECT 1;";
  }

  /** "SELECT 1; " passes every check, needs a LIMIT, and its rewrite keeps the ';' because a blank follows it. */
  lemma TrailingBlankChecks(sql: string)
    requires sql == "SELECT 1; "
    ensures Safe(sql) && NeedsLimit(Normalized(sql))
    ensures WithLimit(sql) == "SELECT 1;  LIMIT 100"
  {
    TrailingBlankNormalized(sql);
    var n := Normalized(sql);
    NoKeywordWithout(n);
    AbsentChar(n, "LIMIT", 'I');
    AbsentChar(n, "COUNT(", 'O');
    AbsentChar(n, "SUM(", 'U');
    AbsentChar(n, "AVG(", 'A');
    assert StartsWith(n, "SELECT");
    assert RStripChar(sql, ';') == sql;
    assert LimitClause == " LIMIT 100";
  }

  /**
   * The rewrite strips semicolons from the untrimmed text, so a statement
   * ending in "; " keeps its semicolon in front of the appended LIMIT.
   */
  lemma TrailingBlankKeepsSemicolon(sql: string, parses: string -> bool)
    requires sql == "SELECT 1; " && parses(sql)
    ensures Validate(sql, parses).effectiveSql == Some("SELECT 1;  LIMIT 100")
  {
    TrailingBlankChecks(sql);
    LimitAppended(sql, parses);
  }
}
