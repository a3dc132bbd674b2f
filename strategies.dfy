/** The two strategies side by side: for the same select body, the command
    text the interceptor patches and the statement the tree-aware generator
    writes come out identical. */
module Strategies {
  import opened DotNetText
  import opened RowLock
  import opened Hints
  import opened SqlGenerators

  /** EF Core writes a tagged statement as the "-- tag" line, white space
      (its blank separator line) and the body. When the body has no white
      space at its ends, the interceptor turns this into exactly the body,
      a line break and FOR UPDATE. */
  lemma {:induction false} PatchRecoversBody(body: string, gap: string, nl: NewLine)
    requires IsTrimmed(body) && AllWhiteSpace(gap)
    ensures PatchedText(QueryPrefix + nl.Text() + gap + body, nl) == Ok(body + LockSuffix(nl))
  {
    var brk, lead := nl.Text()[0], nl.Text()[1..] + gap;
    assert IsWhiteSpace(brk) && AllWhiteSpace(lead) by {
      assert nl.Lf? ==> lead == gap;
    }
    var text := QueryPrefix + nl.Text() + gap + body;
    assert text == QueryPrefix + [] + [brk] + (lead + body) by {
      assert nl.Text() == [brk] + nl.Text()[1..];
    }
    RewritesMarkedText([], brk, lead + body, nl);
    TrimAfterWhiteSpace(lead, body);
  }

  /** Renders one select body both ways, each through a fresh object: the
      generator with the select tagged by ForUpdateTag and no other tag, and
      the interceptor on the statement the same Npgsql rendering writes for
      the select tagged "Use for update" (the marker line, then white space).
      The two statements are equal and end with the lock suffix. */
  method RenderBothWays(processGuid: Guid, npgsql: NpgsqlRendering, nl: NewLine,
                        body: QueryBody, gap: string)
    returns (treeStatement: string, patchedStatement: string, executed: Result<bool>)
    requires npgsql.tagsHeader({}) == [] && IsTrimmed(npgsql.select(body)) && AllWhiteSpace(gap)
    requires npgsql.tagsHeader({QueryTag}) == QueryPrefix + nl.Text() + gap
    ensures executed == Ok(true)
    ensures patchedStatement == treeStatement == npgsql.select(body) + LockSuffix(nl)
    ensures EndsWith(treeStatement, ForUpdateClause)
  {
    var generator := new MagicTagPostgresQuerySqlGenerator(processGuid, npgsql, nl);
    var select := new SelectExpression({generator.forUpdateTag}, body);
    assert generator.forUpdateTag in select.tags;
    ghost var tags := select.tags;
    treeStatement := generator.GetCommand(select);
    assert tags - {generator.forUpdateTag} == {};
    assert treeStatement == PlainStatement(npgsql, {}, body) + LockSuffix(nl);
    assert PlainStatement(npgsql, {}, body) == npgsql.select(body);

    var text := PlainStatement(npgsql, {QueryTag}, body);
    assert text == QueryPrefix + nl.Text() + gap + npgsql.select(body);
    PatchRecoversBody(npgsql.select(body), gap, nl);
    var command := new DbCommand(text);
    var interceptor := new ForUpdateInterceptor(nl);
    executed := interceptor.ReaderExecuting(command, true);
    patchedStatement := command.commandText;
  }
}
