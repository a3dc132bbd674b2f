/** The tree-aware strategy (tests/SqlGenerators/MagicTagPostgresQuerySqlGenerator.cs):
    a subclass of the Npgsql query SQL generator that, while writing the
    header comment of a select, consumes the process-wide ForUpdateTag from
    the select's tag set and remembers it in a flag; after the select has
    been written it appends the row-lock clause when the flag is set. */
module SqlGenerators {
  import opened DotNetText
  import opened RowLock
  import Hints

  /** One hexadecimal digit of a GUID. */
  newtype Nibble = x: int | 0 <= x < 16

  /** A GUID, as its 32 hexadecimal digits in display order. */
  type Guid = s: seq<Nibble> | |s| == 32 witness seq(32, _ => 0 as Nibble)

  /** Lower-case hexadecimal digit, as Guid.ToString() writes it. */
  function HexDigit(n: Nibble): char {
    if n < 10 then (n as int + '0' as int) as char else (n as int - 10 + 'a' as int) as char
  }

  /** Index of the digit shown at position `i` of the "D" format
      xxxxxxxx-xxxx-xxxx-xxxx-xxxxxxxxxxxx, where i is not a dash. */
  function DigitAt(i: nat): nat {
    if i < 8 then i else if i < 13 then i - 1 else if i < 18 then i - 2
    else if i < 23 then i - 3 else i - 4
  }

  /** Position in the "D" format of digit `j`. */
  function PositionOf(j: nat): nat {
    if j < 8 then j else if j < 12 then j + 1 else if j < 16 then j + 2
    else if j < 20 then j + 3 else j + 4
  }

  predicate IsDash(i: nat) {
    i == 8 || i == 13 || i == 18 || i == 23
  }

  /** Guid.ToString(): the "D" format, 36 characters. */
  function GuidText(g: Guid): (r: string)
    ensures |r| == 36
    ensures forall i :: 0 <= i < 36 ==> (r[i] == '-' <==> IsDash(i))
    ensures forall j :: 0 <= j < 32 ==> r[PositionOf(j)] == HexDigit(g[j])
  {
    seq(36, i requires 0 <= i < 36 => if IsDash(i) then '-' else HexDigit(g[DigitAt(i)]))
  }

  const ForUpdateTagPrefix := "FOR-UPDATE-"

  /** MagicTagPostgresQuerySqlGenerator.ForUpdateTag for the GUID drawn
      when the type is initialised. */
  function ForUpdateTag(processGuid: Guid): (tag: string)
    ensures StartsWith(tag, ForUpdateTagPrefix) && |tag| == 47
    ensures forall j :: 0 <= j < 32 ==> tag[11 + PositionOf(j)] == HexDigit(processGuid[j])
  {
    ForUpdateTagPrefix + GuidText(processGuid)
  }

  /** The tag is "FOR-UPDATE-" and a 36-character GUID; it has no line break,
      so EF Core writes it as a single comment line, and it is not the tag
      of the text-level strategy. */
  lemma ForUpdateTagShape(g: Guid)
    ensures StartsWith(ForUpdateTag(g), ForUpdateTagPrefix) && |ForUpdateTag(g)| == 47
    ensures forall k :: 0 <= k < 47 ==> !IsWhiteSpace(ForUpdateTag(g)[k])
    ensures ForUpdateTag(g) != Hints.QueryTag
  {
    var t := ForUpdateTag(g);
    forall k | 0 <= k < 47
      ensures !IsWhiteSpace(t[k])
    {
      if k >= 11 && !IsDash(k - 11) {
        assert t[k] == HexDigit(g[DigitAt(k - 11)]);
      }
    }
    assert t[0] != Hints.QueryTag[0];
  }

  /** Distinct GUIDs give distinct tags: the tag carries the whole GUID. */
  lemma ForUpdateTagInjective(g1: Guid, g2: Guid)
    requires ForUpdateTag(g1) == ForUpdateTag(g2)
    ensures g1 == g2
  {
    forall j | 0 <= j < 32
      ensures g1[j] == g2[j]
    {
      var i := PositionOf(j);
      assert DigitAt(i) == j && !IsDash(i);
      assert ForUpdateTag(g1)[11 + i] == HexDigit(g1[j]);
      assert ForUpdateTag(g2)[11 + i] == HexDigit(g2[j]);
      assert HexDigit(g1[j]) as int == HexDigit(g2[j]) as int;
    }
  }

  /** What a select is, apart from its tags: projection, sources, predicates.
      Only the base Npgsql generator looks inside it. */
  type QueryBody

  /** EF Core's SelectExpression: the query body and the mutable tag set
      that TagWith fills. */
  class SelectExpression {
    var tags: set<string>
    const body: QueryBody

    constructor (tags: set<string>, body: QueryBody)
      ensures this.tags == tags && this.body == body
    {
      this.tags := tags;
      this.body := body;
    }
  }

  /** The base NpgsqlQuerySqlGenerator, which this repository does not define:
      the header comment it writes for a tag set, and the SQL it writes for a
      select body. */
  datatype NpgsqlRendering = NpgsqlRendering(tagsHeader: set<string> -> string, select: QueryBody -> string)

  /** The statement the base Npgsql generator alone renders for a select. */
  function PlainStatement(npgsql: NpgsqlRendering, tags: set<string>, body: QueryBody): string {
    npgsql.tagsHeader(tags) + npgsql.select(body)
  }

  class MagicTagPostgresQuerySqlGenerator {
    const forUpdateTag: string
    const npgsql: NpgsqlRendering
    const newLine: NewLine
    /** `_forUpdate`: set while writing the header, read after the select. */
    var forUpdate: bool
    /** The `Sql` builder the generator appends to. */
    var sql: string

    constructor (processGuid: Guid, npgsql: NpgsqlRendering, newLine: NewLine)
      ensures forUpdateTag == ForUpdateTag(processGuid)
      ensures this.npgsql == npgsql && this.newLine == newLine
      ensures !forUpdate && sql == []
    {
      forUpdateTag := ForUpdateTag(processGuid);
      this.npgsql := npgsql;
      this.newLine := newLine;
      forUpdate := false;
      sql := [];
    }

    /** Consumes the tag, raises the flag if it was there (never lowers it),
        then writes the base header for the tags that remain. */
    method GenerateTagsHeaderComment(select: SelectExpression)
      modifies this`forUpdate, this`sql, select`tags
      ensures select.tags == old(select.tags) - {forUpdateTag}
      ensures forUpdate == (old(forUpdate) || forUpdateTag in old(select.tags))
      ensures sql == old(sql) + npgsql.tagsHeader(old(select.tags) - {forUpdateTag})
    {
      if forUpdateTag in select.tags {
        select.tags := select.tags - {forUpdateTag};
        forUpdate := true;
      }
      sql := sql + npgsql.tagsHeader(select.tags);
    }

    /** Writes the base select, then the lock suffix when the flag is set. */
    method VisitSelect(select: SelectExpression)
      modifies this`sql
      ensures sql == old(sql) + npgsql.select(select.body) + (if forUpdate then LockSuffix(newLine) else [])
      ensures forUpdate ==> EndsWith(sql, LockSuffix(newLine)) && EndsWith(sql, ForUpdateClause)
    {
      sql := sql + npgsql.select(select.body);
      if forUpdate {
        sql := sql + LockSuffix(newLine);
      }
    }

    /** EF Core's root command generation for a select: a fresh builder, the
        header step, then the select. */
    method GetCommand(select: SelectExpression) returns (statement: string)
      modifies this`forUpdate, this`sql, select`tags
      ensures statement == sql
      ensures select.tags == old(select.tags) - {forUpdateTag}
      ensures forUpdate == (old(forUpdate) || forUpdateTag in old(select.tags))
      ensures forUpdate ==>
        statement == PlainStatement(npgsql, old(select.tags) - {forUpdateTag}, select.body) + LockSuffix(newLine)
      ensures !forUpdate ==> statement == PlainStatement(npgsql, old(select.tags), select.body)
    {
      sql := [];
      GenerateTagsHeaderComment(select);
      VisitSelect(select);
      statement := sql;
      if !forUpdate {
        assert old(select.tags) - {forUpdateTag} == old(select.tags);
      }
    }
  }

  /** MagicTagQuerySqlGeneratorFactory: a new generator on every Create, all
      sharing the process-wide tag. */
  class MagicTagQuerySqlGeneratorFactory {
    const processGuid: Guid
    const npgsql: NpgsqlRendering
    const newLine: NewLine

    constructor (processGuid: Guid, npgsql: NpgsqlRendering, newLine: NewLine)
      ensures this.processGuid == processGuid && this.npgsql == npgsql && this.newLine == newLine
    {
      this.processGuid := processGuid;
      this.npgsql := npgsql;
      this.newLine := newLine;
    }

    method Create() returns (generator: MagicTagPostgresQuerySqlGenerator)
      ensures fresh(generator)
      ensures generator.forUpdateTag == ForUpdateTag(processGuid)
      ensures generator.npgsql == npgsql && generator.newLine == newLine
      ensures !generator.forUpdate && generator.sql == []
    {
      generator := new MagicTagPostgresQuerySqlGenerator(processGuid, npgsql, newLine);
    }
  }

  /** A tagged select rendered by a fresh generator ends with the clause; the
      hint tag is gone from both the header and the select's tag set. An
      untagged select renders exactly as plain Npgsql would. */
  method RenderWithFreshGenerator(factory: MagicTagQuerySqlGeneratorFactory, select: SelectExpression)
    returns (statement: string)
    modifies select
    ensures var tag := ForUpdateTag(factory.processGuid);
      && select.tags == old(select.tags) - {tag}
      && (tag in old(select.tags) ==>
            statement == PlainStatement(factory.npgsql, old(select.tags) - {tag}, select.body)
                         + LockSuffix(factory.newLine))
      && (tag !in old(select.tags) ==> statement == PlainStatement(factory.npgsql, old(select.tags), select.body))
  {
    var generator := factory.Create();
    statement := generator.GetCommand(select);
  }

  /** The header step twice on one select: the second finds no tag, so the
      tag set and the flag end as after the first. */
  method HeaderStepTwice(processGuid: Guid, npgsql: NpgsqlRendering, newLine: NewLine,
                         tags: set<string>, body: QueryBody)
    returns (tagsOnce: set<string>, flagOnce: bool, tagsTwice: set<string>, flagTwice: bool)
    ensures tagsOnce == tagsTwice == tags - {ForUpdateTag(processGuid)}
    ensures flagOnce == flagTwice == (ForUpdateTag(processGuid) in tags)
  {
    var generator := new MagicTagPostgresQuerySqlGenerator(processGuid, npgsql, newLine);
    var select := new SelectExpression(tags, body);
    generator.GenerateTagsHeaderComment(select);
    tagsOnce, flagOnce := select.tags, generator.forUpdate;
    generator.GenerateTagsHeaderComment(select);
    tagsTwice, flagTwice := select.tags, generator.forUpdate;
  }

  /** Consumption edits the select itself: two fresh generators rendering the
      same tagged select object give the clause only the first time. */
  method RenderSameSelectTwice(processGuid: Guid, npgsql: NpgsqlRendering, newLine: NewLine,
                               tags: set<string>, body: QueryBody)
    returns (first: string, second: string)
    requires ForUpdateTag(processGuid) in tags
    ensures first == PlainStatement(npgsql, tags - {ForUpdateTag(processGuid)}, body) + LockSuffix(newLine)
    ensures second == PlainStatement(npgsql, tags - {ForUpdateTag(processGuid)}, body)
  {
    var select := new SelectExpression(tags, body);
    var g1 := new MagicTagPostgresQuerySqlGenerator(processGuid, npgsql, newLine);
    first := g1.GetCommand(select);
    var g2 := new MagicTagPostgresQuerySqlGenerator(processGuid, npgsql, newLine);
    second := g2.GetCommand(select);
  }
}
