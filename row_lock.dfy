/** The PostgreSQL row-lock clause both strategies append to a statement. */
module RowLock {
  import opened DotNetText

  const ForUpdateClause := "FOR UPDATE"

  /** What both strategies write after the statement body: one line break,
      then the clause. */
  function LockSuffix(nl: NewLine): (s: string)
    ensures EndsWith(s, ForUpdateClause)
    ensures |s| == |nl.Text()| + |ForUpdateClause| <= 12
    ensures s[0] in nl.Chars()
  {
    nl.Text() + ForUpdateClause
  }
}
