# FOR UPDATE query hints for EF Core on PostgreSQL, in Dafny

This project models the one piece of original logic in the `dotnet-postgres-samples`
repository: two ways of adding PostgreSQL's row-lock clause `FOR UPDATE` to a query
that the caller has tagged through EF Core's `TagWith`.

- **Text-level strategy** (`Hints`, from `tests/Hints/ForUpdateInterceptor.cs`). The
  caller tags the query with `"Use for update"`, so EF Core writes the comment line
  `-- Use for update` at the top of the command text. A command interceptor checks, before
  every reader or scalar execution, whether the text starts with that marker (ordinal
  comparison). If it does, it looks for the first `\r` or `\n` of `Environment.NewLine` after
  the marker. It drops everything up to that point, trims the rest and appends
  `NewLine + "FOR UPDATE"`. If no line break follows the marker, slicing at index -1 throws.
  The command is then never executed.
- **Tree-aware strategy** (`SqlGenerators`, from
  `tests/SqlGenerators/MagicTagPostgresQuerySqlGenerator.cs`). A subclass of the Npgsql SQL
  generator. While it writes the header comment of a select, it removes the process-wide
  tag `"FOR-UPDATE-" + Guid` from the select's tag set and raises its `_forUpdate` flag.
  After the base generator has written the select, it appends `NewLine + "FOR UPDATE"` to the
  `Sql` buffer when the flag is set.

Files:

- `dotnet_text.dfy` (`DotNetText`): the .NET string primitives the patcher relies on.
  These are `Char.IsWhiteSpace`, ordinal `StartsWith`, `IndexOfAny` with a start index,
  `TrimStart`/`TrimEnd`/`Trim`, and `Environment.NewLine` as a datatype (`Lf`, `CrLf`).
  It also holds lemmas that characterise `Trim`.
- `row_lock.dfy` (`RowLock`): the clause and the line break that both strategies append.
- `hints.dfy` (`Hints`): the pure rewrite `PatchedText` and its properties. It also holds the
  classes `DbCommand` (the mutable command text) and `ForUpdateInterceptor`, with
  `PatchCommandText` and the four execution hooks.
- `sql_generators.dfy` (`SqlGenerators`): the tag (a GUID's "D" format behind the fixed
  prefix), the `SelectExpression` class with its mutable tag set, the generator class with its
  flag and SQL buffer, and the factory. It also holds client methods that run the steps in
  sequence.
- `strategies.dfy` (`Strategies`): proofs that the two strategies give the same statement
  for the same body.

Three behaviours of the code, as written, show up in the proofs:

- Only a marker on the *first* line is recognised. If another tag's comment line comes first,
  the text passes through unchanged (`UnchangedIffUnmarked`).
- Patching again is a no-op exactly when the rewritten body does not itself start with the
  marker (`RepatchIsNoOpIff`).
- Consumption edits the `SelectExpression` in place. A second rendering of the *same* select
  object finds no tag and gets no clause (`RenderSameSelectTwice`). Whether EF Core ever
  re-renders one select object is outside this model.

With no line break after the marker, the slice `[-1..]` throws an
`ArgumentOutOfRangeException`. The model returns the single error value
`MarkerWithoutLineBreak`.

## Model

| member | source | states |
|---|---|---|
| `DotNetText.IsWhiteSpace` | tests/Hints/ForUpdateInterceptor.cs:50 | the set `Char.IsWhiteSpace` accepts, which `Trim` removes: space, tab, `\r` and `\n` are in it; ASCII letters, digits and `-` are not |
| `DotNetText.NewLine.Text` | tests/Hints/ForUpdateInterceptor.cs:50 | `Environment.NewLine`, the line break both strategies write before `FOR UPDATE`: one or two characters ending in `\n`, a two-character one starting with `\r` |
| `DotNetText.NewLine.Chars` | tests/Hints/ForUpdateInterceptor.cs:49 | the characters of `Environment.NewLine` that `IndexOfAny` searches for, exactly those of the text, every one of them white space |
| `DotNetText.StartsWith` | tests/Hints/ForUpdateInterceptor.cs:47 | the ordinal prefix test holds exactly when the prefix fits and every one of its characters equals the text's character at the same position |
| `DotNetText.TrimStart` | tests/Hints/ForUpdateInterceptor.cs:50 | the result is a suffix of the input, what it drops is all white space, and it does not start with white space |
| `DotNetText.TrimEnd` | tests/Hints/ForUpdateInterceptor.cs:50 | the result is a prefix of the input, what it drops is all white space, and it does not end with white space |
| `DotNetText.IndexOfAny` | tests/Hints/ForUpdateInterceptor.cs:49 | the result is -1 exactly when no character from the start index on is in the set; otherwise it holds one and every earlier position from the start does not |
| `DotNetText.Trim` | tests/Hints/ForUpdateInterceptor.cs:50 | the result has no white space at either end and is no longer than the input |
| `DotNetText.TrimSplit` | tests/Hints/ForUpdateInterceptor.cs:50 | the input is white space, then the trimmed result unchanged, then white space |
| `DotNetText.TrimUnique` | tests/Hints/ForUpdateInterceptor.cs:50 | any white-space head and tail around a trimmed middle are exactly what Trim removes |
| `DotNetText.TrimAfterWhiteSpace` | tests/Hints/ForUpdateInterceptor.cs:50 | white space in front of a trimmed text is all that `Trim` removes |
| `DotNetText.TrimIdempotent` | tests/Hints/ForUpdateInterceptor.cs:50 | trimming a trimmed text changes nothing |
| `DotNetText.TrimSkipsWhiteSpace` | tests/Hints/ForUpdateInterceptor.cs:50 | a leading white-space character (such as the line break the slice starts at) does not change the trimmed result |
| `RowLock.LockSuffix` | tests/SqlGenerators/MagicTagPostgresQuerySqlGenerator.cs:36 | the appended text starts with a line-break character, ends with `FOR UPDATE` and is at most 12 characters long |
| `Hints.PatchedText` | tests/Hints/ForUpdateInterceptor.cs:47-50 | an unmarked text is kept as it is; only a marked text can fail; a rewritten marked text ends with the line break and `FOR UPDATE` and is shorter than the original |
| `Hints.MarkerIsTagComment` | tests/Hints/ForUpdateInterceptor.cs:42-43 | the marker is the `-- ` comment prefix followed by the tag callers attach |
| `Hints.UnchangedIffUnmarked` | tests/Hints/ForUpdateInterceptor.cs:47-51 | the patch returns the text unchanged if and only if the text does not start with the marker |
| `Hints.FailsIffNoLineBreak` | tests/Hints/ForUpdateInterceptor.cs:49-50 | the patch fails if and only if the marker is present and no character of the NewLine follows it |
| `Hints.RewritesMarkedText` | tests/Hints/ForUpdateInterceptor.cs:47-50 | for the marker, any rest of its line and a line break, then a statement, the result is the trimmed statement followed by the line break and `FOR UPDATE` |
| `Hints.RewriteShape` | tests/Hints/ForUpdateInterceptor.cs:49-50 | every rewrite drops the marker line through its first line break. What follows is white space, an unchanged trimmed body and white space; the result is that body plus the suffix once |
| `Hints.LineBreakDropped` | tests/Hints/ForUpdateInterceptor.cs:49-50 | the line-break search starts at the end of the marker, and the line break found is discarded together with the text before it |
| `Hints.SuffixKeepsMarker` | tests/Hints/ForUpdateInterceptor.cs:47-50 | the body with the suffix appended starts with the marker if and only if the body does |
| `Hints.RepatchIsNoOpIff` | tests/Hints/ForUpdateInterceptor.cs:47-50 | patching a rewritten text again leaves it unchanged if and only if its body does not start with the marker |
| `Hints.ForUpdateInterceptor.PatchCommandText` | tests/Hints/ForUpdateInterceptor.cs:45-52 | on success the command text becomes the patched text; on failure it is left as it was and the failure is reported |
| `Hints.ForUpdateInterceptor.ReaderExecuting` | tests/Hints/ForUpdateInterceptor.cs:12-17 | patches the command, then hands on the interception result; a failed patch returns the error instead |
| `Hints.ForUpdateInterceptor.ReaderExecutingAsync` | tests/Hints/ForUpdateInterceptor.cs:19-25 | the same patch-then-delegate contract as the synchronous reader hook |
| `Hints.ForUpdateInterceptor.ScalarExecuting` | tests/Hints/ForUpdateInterceptor.cs:27-32 | the same patch-then-delegate contract for scalar commands |
| `Hints.ForUpdateInterceptor.ScalarExecutingAsync` | tests/Hints/ForUpdateInterceptor.cs:34-40 | the same patch-then-delegate contract for asynchronous scalar commands |
| `SqlGenerators.GuidText` | tests/SqlGenerators/MagicTagPostgresQuerySqlGenerator.cs:11 | the GUID's "D" text is 36 characters with dashes exactly at positions 8, 13, 18 and 23, and each of the 32 hexadecimal digits at its display position |
| `SqlGenerators.ForUpdateTag` | tests/SqlGenerators/MagicTagPostgresQuerySqlGenerator.cs:11 | the tag starts with `FOR-UPDATE-`, is 47 characters long and shows every digit of the GUID at its display position after the prefix |
| `SqlGenerators.ForUpdateTagShape` | tests/SqlGenerators/MagicTagPostgresQuerySqlGenerator.cs:11 | the tag is `FOR-UPDATE-` followed by a 36-character GUID, 47 characters with no white space, and differs from the text-level tag |
| `SqlGenerators.ForUpdateTagInjective` | tests/SqlGenerators/MagicTagPostgresQuerySqlGenerator.cs:11 | distinct GUIDs give distinct tags |
| `SqlGenerators.MagicTagPostgresQuerySqlGenerator.constructor` | tests/SqlGenerators/MagicTagPostgresQuerySqlGenerator.cs:11-18 | a new generator carries the process tag, has the flag false and an empty buffer |
| `SqlGenerators.MagicTagPostgresQuerySqlGenerator.GenerateTagsHeaderComment` | tests/SqlGenerators/MagicTagPostgresQuerySqlGenerator.cs:20-29 | removes the tag and leaves every other tag in place. Sets the flag if and only if the tag was present; otherwise the flag is kept and never lowered. Appends the base header of the tags that remain |
| `SqlGenerators.MagicTagPostgresQuerySqlGenerator.VisitSelect` | tests/SqlGenerators/MagicTagPostgresQuerySqlGenerator.cs:31-39 | appends the base select output, then the suffix exactly when the flag is set. The old buffer is a prefix of the new one, and a flagged statement ends with `FOR UPDATE` |
| `SqlGenerators.MagicTagPostgresQuerySqlGenerator.GetCommand` | tests/SqlGenerators/MagicTagPostgresQuerySqlGenerator.cs:20-39 | header then select on a fresh buffer. A flagged statement is the plain Npgsql statement of the remaining tags plus the suffix; an unflagged one is the plain Npgsql statement |
| `SqlGenerators.MagicTagQuerySqlGeneratorFactory.Create` | tests/SqlGenerators/MagicTagQuerySqlGeneratorFactory.cs:19-23 | every call returns a fresh generator with the flag false, an empty buffer and the process tag |
| `SqlGenerators.RenderWithFreshGenerator` | tests/SqlGenerators/MagicTagPostgresQuerySqlGenerator.cs:20-39 | a select rendered through the factory is the plain Npgsql statement of its other tags plus the suffix when it carried the tag, and exactly the plain Npgsql statement when it did not. The tag is gone from it afterwards |
| `SqlGenerators.HeaderStepTwice` | tests/SqlGenerators/MagicTagPostgresQuerySqlGenerator.cs:22-26 | a second header step on the same select finds no tag: tag set and flag stay as after the first |
| `SqlGenerators.RenderSameSelectTwice` | tests/SqlGenerators/MagicTagPostgresQuerySqlGenerator.cs:22-25 | two fresh generators on the same tagged select object: the first statement has the suffix, the second has the tag gone and no suffix |
| `Strategies.PatchRecoversBody` | tests/Hints/ForUpdateInterceptor.cs:47-50 | a marker line, white space and a trimmed body are patched into exactly the body, a line break and `FOR UPDATE` |
| `Strategies.RenderBothWays` | tests/SqlGenerators/MagicTagPostgresQuerySqlGenerator.cs:31-36 | for the same body and one Npgsql rendering, the generator's statement and the interceptor's patched text of the statement tagged `Use for update` are equal. Both are the body plus the suffix, and the command goes on to execute |

## Left out

- The base `NpgsqlQuerySqlGenerator` is foreign code. Its header comment and its select rendering are two function values (`NpgsqlRendering`) chosen by the caller.
- Nested selects are not modelled. In EF Core, the base `VisitSelect` revisits subqueries through the same overridden method, so once the flag is set each nested select would get the clause too. The model treats the base visit as one opaque call.
- The value `VisitSelect` returns (the expression, passed through unchanged) is not modelled.
- The order of EF Core's root command generation (a new builder, the header, then the select) comes from EF Core. `GetCommand` assumes that order.
- `Guid.NewGuid()` randomness is not modelled. The GUID is a parameter, and the factory stands for the type-wide static field by passing the same GUID to every generator.
- `Environment.NewLine` is a parameter (`Lf` or `CrLf`), not read from the platform.
- The hooks' `eventData`, the cancellation tokens and the `ValueTask` wrapping of the asynchronous hooks are not modelled.
- The base `DbCommandInterceptor` hooks are taken to return the result they are given.
- The `ForUpdate`/`UseLockModifiers` extension methods in both `ForUpdateDbContextOptionsBuilderExtensions.cs` files are left out. They are one-line calls of `TagWith`, `AddInterceptors` and `ReplaceService`. Tagging is modelled as the tag set a `SelectExpression` is built with.
- EF Core's query-plan caching and its writing of tags as `-- tag` lines are EF internals and are not modelled. `PatchRecoversBody` takes the marker line, white space and body as its input.
- The integration tests against a live PostgreSQL server (row locks, deadlocks, serialization failures) and the entity model classes are not modelled. They exercise database behaviour and configuration, not this logic.
