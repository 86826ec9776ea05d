/** The reserved words of the lexer. */
module Keywords {
  import T = Tokens

  const CLAUSE_WORDS: set<string> :=
    {"MATCH", "OPTIONAL", "WHERE", "WITH", "UNWIND", "RETURN", "UNION", "CREATE", "MERGE", "SET", "DELETE", "DETACH",
     "REMOVE"}

  const PROJECTION_WORDS: set<string> :=
    {"AS", "ORDER", "BY", "ASC", "ASCENDING", "DESC", "DESCENDING", "SKIP", "LIMIT", "DISTINCT", "ALL", "ANY",
     "NONE", "SINGLE"}

  const OPERATOR_WORDS: set<string> :=
    {"AND", "OR", "XOR", "NOT", "IN", "IS", "NULL", "TRUE", "FALSE", "STARTS", "ENDS", "CONTAINS"}

  const PHRASE_WORDS: set<string> :=
    {"CASE", "WHEN", "THEN", "ELSE", "END", "USING", "INDEX", "SCAN", "JOIN", "FOREACH", "ON", "CALL", "CYPHER",
     "YIELD"}

  const OTHER_WORDS: set<string> :=
    {"EXISTS", "COUNT", "COLLECT", "SHORTESTPATH", "ALLSHORTESTPATHS", "NEXT", "INSERT", "USE", "FINISH", "FILTER",
     "LET", "FOR"}

  const KEYWORDS: set<string> := CLAUSE_WORDS + PROJECTION_WORDS + OPERATOR_WORDS + PHRASE_WORDS + OTHER_WORDS

  predicate NotCoalesce(w: string) {
    |w| != 8 || w[0] != 'C' || w[2] != 'A'
  }

  lemma ClauseWord(w: string)
    requires w in CLAUSE_WORDS
    ensures NotCoalesce(w)
  {
  }

  lemma ProjectionWord(w: string)
    requires w in PROJECTION_WORDS
    ensures NotCoalesce(w)
  {
  }

  lemma OperatorWord(w: string)
    requires w in OPERATOR_WORDS
    ensures NotCoalesce(w)
  {
  }

  lemma PhraseWord(w: string)
    requires w in PHRASE_WORDS
    ensures NotCoalesce(w)
  {
  }

  lemma OtherWord(w: string)
    requires w in OTHER_WORDS
    ensures NotCoalesce(w)
  {
  }

  lemma NoSuchKeyword(w: string)
    requires w in KEYWORDS
    ensures NotCoalesce(w)
  {
    if w in CLAUSE_WORDS { ClauseWord(w); }
    else if w in PROJECTION_WORDS { ProjectionWord(w); }
    else if w in OPERATOR_WORDS { OperatorWord(w); }
    else if w in PHRASE_WORDS { PhraseWord(w); }
    else { OtherWord(w); }
  }

  /** The lexer's table has every word the renderer prints as a keyword, and `coalesce` is not reserved. */
  lemma TableSuffices(t: T.Tables)
    requires t.keywords == KEYWORDS
    ensures T.Vocabulary(t)
  {
    assert OPERATOR_WORDS <= KEYWORDS;
    if "COALESCE" in KEYWORDS { NoSuchKeyword("COALESCE"); }
  }
}
