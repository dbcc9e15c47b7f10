# Verified model of SQE's benchmark harness, authentication caches and tooling

SQE is a SQL query engine on Iceberg catalogs. This project models the parts of its repository that
decide something hard without help from a library, and proves what they compute:

- **The table qualifier** (`crates/sqe-bench/src/query.rs`). It puts a namespace in front of the base
  tables of a query by walking the token stream with a stack of scopes, without building a tree. The
  model has the SQL grammar as a tree with a printer, the scanner, the collector of CTE names, and a
  reference that reads the tables off the tree with the scope rules of WITH: a CTE is seen by the CTEs
  after it and by the query behind the list, and by itself only under RECURSIVE. The main theorem is an
  if-and-only-if: the scanner and the reference agree on a script exactly when the script is
  *faithful*, a condition on its printed words. The failing families are proved for every table name,
  save RECURSIVE as the name of a CTE: a subquery behind LIKE or any other word that is no opener,
  behind LIMIT and such clause words, the parenthesised source of an INSERT without columns, a CTE that
  reads the table it is named after, a CTE out of scope, a WITH inside a CTE that another CTE follows,
  WITH RECURSIVE, a WITH list followed by a parenthesised body, the leading table of a parenthesised
  join, a table function named like a suite table, and a CTE of an earlier statement. Qualifying twice
  is the same as qualifying once. The loops, the byte offsets and the splicing are modelled as they
  run.
- **The interactive-login store** (`pending_auth.rs`). The object with its methods, and every
  interleaving of its threads, with lookup and locked section as separate steps and removal, expiry and
  eviction in between: what can never happen twice, and what each caller is told, by history alone.
- **The signing-key cache** (`bearer_token.rs`), **the machine-to-machine token** (`oidc_m2m.rs`) and
  **the per-catalog token cache** (`per_catalog.rs`): timed protocols whose bounds are proved over all
  runs, in both directions: when a request is not sent and when one is, how long a key or token is used
  at most, with runs that meet the bound, and how long it is used at least. Findings: the per-catalog
  cache key leaves the client secret out, so every configuration can be served a token fetched with
  another secret; and it tells clients apart if and only if none of their texts holds a `|`.
- **The ARN matcher** (`aws_iam.rs`): leftmost-greedy matching equals the declarative meaning of `*`.
- **The ATTACH statement and its redaction** (`profile.rs`): the logged text is the statement with stars
  for the three secrets if and only if no value hides an option name.
- **The profile attribution** (`scripts/compile-profile-attribute.py`): the stack of the sweep is the
  chain of enclosing events, nothing is charged twice, and each counter holds exactly the time that the
  intervals assign to its name.
- **The changelog folder** (`scripts/changelog-collect.py`): reading back what was written, the exact
  set of accepted fragments, the place of every line in the folded section, and the exact old lines
  that survive. Findings: folding fragments one by one is folding them together if and only if no line
  of the earlier ones begins a release, which the program does not refuse; and text before the first
  heading, or under a heading that comes again, is lost.
- **The result comparator** (`status.rs`): verdicts do not depend on row order or batches; a Pass comes
  with a pairing of rows; trimming zeros keeps the value of a numeral if and only if it is safe. Two
  findings: an exponent's trailing zeros are trimmed as well, so `1.5e1` passes for `1.5e10`, and rows
  that are equal after trimming can be kept apart because sorting comes first -- exactly when trimming
  changes the order of the rows.
- **The Iceberg resolver** (`playground/src/iceberg.rs`): what is refused, what is listed, and exactly
  which paths come back when they are rebased there and back. Finding: a path outside the location is left alone if and only if its text
  does not continue the location's, so a neighbouring directory with a longer name is rebased too.

Strings are sequences of characters; UTF-8 appears where byte offsets matter. Time is a number that
never decreases. Network answers, the JWT library's verdict and the number parser are parameters.
`Prelude`, `Sorted`, `Trimming`, `TextSearch` and `TextOrder` hold what several parts share. `dafny verify
dfyconfig.toml` checks the whole project.

Where code and comments differ the model follows the code: the comparator's comment says that only
fractional zeros are trimmed, and `rebase` is described as leaving paths outside the location alone.

## Model

| member | source | states |
|---|---|---|
| ScanAgreement.ScriptScan | crates/sqe-bench/src/query.rs:245-362 | On every script the scope stack treats each printed word according to its role in the tree, including FROM lists in parentheses taken for calls |
| ScanAgreement.QueriesAndCalls | crates/sqe-bench/src/query.rs:395-431 | A parenthesis is taken for a call exactly where the grammar has no query or grouping: behind a word that is none of those of predicates, CASE, select lists, FROM lists and set operations |
| CollectAgreement.ScriptGather | crates/sqe-bench/src/query.rs:435-477 | When every WITH list is followed by SELECT or VALUES, the collector records exactly the words the tree marks as reachable CTE names |
| CollectorKeeps.NoNameIsMissed | crates/sqe-bench/src/query.rs:435-477 | On every script, whatever follows its WITH lists, each reachable CTE name is among those collected |
| Binding.ScriptIsGrounded | crates/sqe-bench/src/query.rs:433-477 | Every reference the tree marks as bound follows a CTE of its name, so the reference calls nothing bound without a binder |
| Qualification.CollectorOnScript | crates/sqe-bench/src/query.rs:435-477 | Under the same condition the set of CTE names collected from the tokens equals the set read off the tree |
| Qualification.ScannerAgreesWithTree | crates/sqe-bench/src/query.rs:228-362 | On every script the scanner marks exactly the bare suite tables that no CTE in scope binds, if and only if the script is faithful |
| Qualification.ClosedScriptAgreement | crates/sqe-bench/src/query.rs:228-362 | Where WITH lists are followed by SELECT or VALUES, the same holds with the CTE names read off the tree, so that the condition needs no scan |
| CollectorKeeps.EverydayAgreement | crates/sqe-bench/src/query.rs:228-362 | Where nothing named like a suite table stands in one of the failing places, the scanner is right if and only if no table it should qualify has a collected name, and it is right where WITH lists are followed by SELECT or VALUES |
| Placement.PlacedMarks | crates/sqe-bench/src/query.rs:245-362 | Where subqueries stand behind IN, EXISTS, an operator, a comma and such, the scanner marks in all of them every suite table that is not collected, but for the leading ones of parenthesised joins |
| Placement.PlacedAgreement | crates/sqe-bench/src/query.rs:228-362 | On such scripts, with no suite table in one of the other failing places, the scanner is right if and only if no table it should qualify has a collected name, and it is right where WITH lists are followed by SELECT or VALUES |
| Qualification.StatementsAreApart | crates/sqe-bench/src/query.rs:288-291 | On all tokens, what stands behind a semicolon is scanned as if nothing came before it |
| Misreadings.MisreadAt | crates/sqe-bench/src/query.rs:341-362 | One reference anywhere in a script that the scope and the scanner judge differently makes the script misread for that table |
| Misreadings.WordIsMisread | crates/sqe-bench/src/query.rs:264-300 | Behind LIKE, and every word that is no opener keyword, a subquery's tables are missed |
| Misreadings.ClauseIsMisread | crates/sqe-bench/src/query.rs:264-300 | So they are behind LIMIT, OFFSET and the other clause words that are no openers |
| Misreadings.InsertIsMisread | crates/sqe-bench/src/query.rs:264-300 | The tables of a parenthesised source of an INSERT without columns are missed |
| Misreadings.SelfNamedIsMisread | crates/sqe-bench/src/query.rs:433-477 | The base table read by a CTE of the same name is missed |
| Misreadings.OutOfScopeIsMisread | crates/sqe-bench/src/query.rs:433-477 | A CTE of a derived table hides the table of its name outside |
| Misreadings.NestedWithIsMisread | crates/sqe-bench/src/query.rs:435-477 | A WITH inside a CTE hides the CTEs after it from the collector |
| Misreadings.RecursiveWithIsMisread | crates/sqe-bench/src/query.rs:435-477 | After RECURSIVE no CTE name is collected |
| ParenthesisedBodies.ParenthesisedBodyIsMisread | crates/sqe-bench/src/query.rs:447-470 | A parenthesised body leaves the collector inside the WITH list, and a word of a later grouping is collected |
| Misreadings.ParenthesisedJoinIsMisread | crates/sqe-bench/src/query.rs:245-362 | The leading table of a parenthesised join is not qualified |
| Misreadings.TableFunctionIsMisread | crates/sqe-bench/src/query.rs:341-362 | A table function named like a suite table is qualified |
| Misreadings.TwoStatementsAreMisread | crates/sqe-bench/src/query.rs:435-477 | A CTE of one statement hides the table of the next |
| Idempotence.RewriteFollowsMarks | crates/sqe-bench/src/query.rs:245-362 | The rewritten token list is the original with the path in front of the marked tokens |
| Idempotence.SameNames | crates/sqe-bench/src/query.rs:435-477 | The collector finds the same CTE names in the qualified tokens as in the original ones |
| Idempotence.RewriteTwice | crates/sqe-bench/src/query.rs:245-362 | From any scanner state, the rewritten tokens are left alone by a second scan with the same names |
| Idempotence.QualifyIsIdempotent | crates/sqe-bench/src/query.rs:228-362 | Qualifying a qualified token list changes nothing, when no suite table is named `as` and the namespace is a path of identifiers |
| Sorted.SortDistinct | crates/sqe-bench/src/query.rs:380-381 | Sorting and removing duplicates gives the increasing sequence of the same elements |
| Sorted.IncreasingIsUnique | crates/sqe-bench/src/query.rs:380-381 | There is only one increasing sequence of given elements, so the iteration order before it cannot matter |
| TextSplice.ByteOffset | crates/sqe-bench/src/query.rs:480-494 | The offset found for a line and column is the UTF-8 offset of the character there, and nothing is found exactly when no character is there |
| TextSplice.Utf8Carries | crates/sqe-bench/src/query.rs:480-494 | The bytes of a character carry its code point in the fewest bytes, as in section 3 of RFC 3629 |
| TextSplice.LocationsGrow | crates/sqe-bench/src/query.rs:480-494 | Positions grow with the character index, so every character has its own |
| TextSplice.DeleteUndoesInsert | crates/sqe-bench/src/query.rs:364-392 | Deleting the inserted prefixes restores the text |
| TextSplice.InsertLength | crates/sqe-bench/src/query.rs:364-392 | The text grows by one prefix for each insertion |
| QualifyTables.CollectCteNames | crates/sqe-bench/src/query.rs:435-477 | The loop over the token vector collects the names of the collector machine |
| QualifyTables.ScanToken | crates/sqe-bench/src/query.rs:255-362 | One turn of the loop on the scope vector is one step of the scope stack, including its early continues |
| QualifyTables.FindInsertions | crates/sqe-bench/src/query.rs:245-362 | The insertion list holds the positions of exactly the marked tokens, in order |
| QualifyTables.OffsetsIn | crates/sqe-bench/src/query.rs:368-379 | Fails if and only if some position lies outside the text, and otherwise yields the offsets of the characters at the positions |
| QualifyTables.Splice | crates/sqe-bench/src/query.rs:383-392 | Copying stretches between sorted offsets gives the encoding of the text with a prefix before each chosen character |
| QualifyTables.Qualify | crates/sqe-bench/src/query.rs:228-393 | The result is the input, byte for byte, with `namespace.` before each marked token; an error exactly when a marked position lies outside the text |
| QualifyTables.LowerIgnoresCase | crates/sqe-bench/src/query.rs:234-234 | Names are the same in lower case if and only if they differ in the case of ASCII letters alone |
| QualifyScript.ScriptInsertions | crates/sqe-bench/src/query.rs:228-393 | On a text whose tokens are a script's, the insertion points are the unbound base-table references of the tree if and only if the script is faithful |
| PendingAuthStore.Store.InsertPending | crates/sqe-auth/src/pending_auth.rs:79-95 | Stores a new entry awaiting its callback under the key and leaves every other key alone |
| PendingAuthStore.Store.FinishFlow | crates/sqe-auth/src/pending_auth.rs:99-122 | Succeeds if and only if the entry is live and awaiting or exchanging; then its state is the result and its deadline stays, otherwise nothing changes |
| PendingAuthStore.Store.TakeCallbackVerifier | crates/sqe-auth/src/pending_auth.rs:126-148 | Hands out the verifier if and only if the entry is live and awaiting and its stored state is the returned one, and moves it to exchanging; which error otherwise |
| PendingAuthStore.Store.Poll | crates/sqe-auth/src/pending_auth.rs:151-155 | Shows a live entry that is not consumed and changes nothing |
| PendingAuthStore.Store.PollAndConsume | crates/sqe-auth/src/pending_auth.rs:160-172 | Takes completed tokens out once: the shared entry becomes consumed and is no longer stored |
| PendingAuthStore.Store.Remove | crates/sqe-auth/src/pending_auth.rs:174-176 | Removes the key and touches no entry |
| PendingAuthRuns.RunKeepsInv | crates/sqe-auth/src/pending_auth.rs:79-176 | Every interleaving keeps the tie between entry states and what was handed out |
| PendingAuthRuns.AtMostOnce | crates/sqe-auth/src/pending_auth.rs:99-172 | Per inserted entry at most one verifier is handed out, at most one completion or failure succeeds and at most one poll delivers tokens, over every interleaving |
| PendingAuthRuns.AnswersAreGenuine | crates/sqe-auth/src/pending_auth.rs:99-172 | Delivered tokens are those of an earlier successful completion of the same entry, and a claimed verifier is the inserted one, claimed with the stored state |
| PendingAuthRuns.NoResurrection | crates/sqe-auth/src/pending_auth.rs:70-176 | Over runs of any length entries only move forward, and what left the store never comes back |
| PendingAuthRuns.DeadlineIsKept | crates/sqe-auth/src/pending_auth.rs:70-95 | No lookup at or after insertion time plus timeout finds the entry, whatever happened to it, and every lookup before that finds the stored one |
| PendingAuthRuns.SectionAnswers | crates/sqe-auth/src/pending_auth.rs:104-172 | What each caller is told, by the history of the entry alone: the first completion or failure succeeds, the first callback with the stored state of an unfinished flow gets the verifier, the first to consume completed tokens gets them, and polls show where the flow stands until then |
| PendingAuthRuns.SectionMoves | crates/sqe-auth/src/pending_auth.rs:104-172 | The entry then stands where its longer history puts it |
| PendingAuthRuns.LoginSucceeds | crates/sqe-auth/src/pending_auth.rs:79-172 | From every reachable state a flow that is inserted, claimed, exchanged and polled delivers its verifier and its tokens |
| ArnGlob.Find | crates/sqe-auth/src/aws_iam.rs:353-357 | Finds the first occurrence, or there is none |
| ArnGlob.SplitJoins | crates/sqe-auth/src/aws_iam.rs:327-327 | The parts of a pattern hold no star and joined by stars give it back |
| ArnGlob.Leftmost | crates/sqe-auth/src/aws_iam.rs:352-358 | Taking a middle part at its first occurrence loses no match |
| ArnGlob.ArnGlobMatches | crates/sqe-auth/src/aws_iam.rs:326-362 | True if and only if the text arises from the pattern by putting any text for each star |
| ArnGlob.ResolveRoles | crates/sqe-auth/src/aws_iam.rs:211-221 | The strictly sorted list of exactly the roles of the matching patterns |
| ArnGlob.RolesAreDetermined | crates/sqe-auth/src/aws_iam.rs:211-221 | That list is one and the same for every iteration order of the mappings |
| AttachSql.EscapeRoundTrip | crates/sqe-bench/src/profile.rs:189-191 | Scanning an escaped value stops at its closing quote, and un-doubling gives the value back |
| AttachSql.ScanValue | crates/sqe-bench/src/profile.rs:252-268 | Stops at the first quote that is not doubled, or at the end |
| AttachSql.RedactOption | crates/sqe-bench/src/profile.rs:238-280 | Replaces the value behind every occurrence of the option by stars |
| AttachSql.RedactIsIdempotent | crates/sqe-bench/src/profile.rs:238-280 | Redacting twice is redacting once, for every option name and every text |
| AttachSql.UnclosedValueIsHidden | crates/sqe-bench/src/profile.rs:255-278 | A value that no lone quote closes becomes stars to the end of the text |
| AttachRedaction.RedactFields | crates/sqe-bench/src/profile.rs:238-280 | On a list of quoted fields none of which hides the option name, exactly the option's values become stars |
| AttachRedaction.RedactOneOption | crates/sqe-bench/src/profile.rs:238-280 | That happens if and only if no other value hides the option name |
| AttachRedaction.RedactThreeOptions | crates/sqe-bench/src/profile.rs:224-230 | Three passes star exactly the three options if and only if no pass meets a hidden name |
| AttachRedaction.RenderIsInjective | crates/sqe-bench/src/profile.rs:196-221 | Two field lists with the same introductions print alike only if they are equal |
| AttachRedaction.HidesIfMentions | crates/sqe-bench/src/profile.rs:189-191 | An escaped value hides an option name if and only if the raw value ends with the name or holds it in front of a quote |
| AttachStatement.RedactAttachSql | crates/sqe-bench/src/profile.rs:224-230 | Runs the three passes in the order secret key, access key, token |
| AttachStatement.StatementReadsBack | crates/sqe-bench/src/profile.rs:196-221 | Scanning the value behind the name of each option gives back that field, for every catalog, profile and secrets |
| AttachStatement.RedactionIsExact | crates/sqe-bench/src/profile.rs:196-280 | For a catalog name without quotes, the logged statement is the statement built with stars for the three secrets, all else verbatim, if and only if no interpolated value hides an option name |
| AttachStatement.RedactionBehindFront | crates/sqe-bench/src/profile.rs:196-280 | For any catalog name, behind a front free of the three needles, the same holds if and only if no option hides a name |
| AttachStatement.FrontIsFree | crates/sqe-bench/src/profile.rs:196-221 | The front is free when the catalog name holds no quote and neither the URL nor the warehouse mentions an option |
| AttachStatement.SecretsDoNotShow | crates/sqe-bench/src/profile.rs:196-280 | Behind a free front, two choices of discreet secrets give the same log line, whatever the catalog is named |
| AttachStatement.ATokenThatShows | crates/sqe-bench/src/profile.rs:238-280 | A token holding `S3_SECRET_KEY '` spoils the log line |
| ProfileAttribution.StackIsEnclosing | scripts/compile-profile-attribute.py:50-53 | Just before each event the stack is exactly the chain of earlier events that enclose it |
| ProfileAttribution.ChargedIsOutermost | scripts/compile-profile-attribute.py:54-56 | A charged evaluation is in no other evaluation, so charged events of a thread do not overlap |
| ProfileAttribution.ChargedToInnermostRoot | scripts/compile-profile-attribute.py:57-61 | The root charged is the innermost root query enclosing the event, and there is none exactly when no enclosing event is a root |
| ProfileAttribution.BreakdownsAgree | scripts/compile-profile-attribute.py:62-74 | Both breakdowns grow by exactly the charged time |
| ProfileAttribution.AllBreakdownsAgree | scripts/compile-profile-attribute.py:46-77 | Over all threads the total by function, the total by root and the charged time are equal |
| ProfileAttribution.ChargedWithinSpan | scripts/compile-profile-attribute.py:49-75 | Per thread no more is charged than the span of the thread |
| ProfileAttribution.Sort | scripts/compile-profile-attribute.py:49-49 | An ordered permutation in which events of equal start and duration keep their order |
| ProfileAttribution.FindRoot | scripts/compile-profile-attribute.py:57-61 | The topmost root query of the stack |
| ProfileAttribution.ChargeThread | scripts/compile-profile-attribute.py:50-75 | The sweep charges what the stack at each event says |
| ProfileAttribution.GroupByThread | scripts/compile-profile-attribute.py:42-44 | Each thread's list holds its events in order, and no thread is listed twice |
| ProfileAttribution.Attribute | scripts/compile-profile-attribute.py:40-75 | The counters are those of all threads, each sorted on its own |
| ProfileBooking.CountersAreTimes | scripts/compile-profile-attribute.py:46-75 | Each counter holds exactly the time of the outermost evaluations, of all threads, whose innermost enclosing root has an item beginning with those 110 characters, or that name; `<no root>` holds those without one; told by intervals |
| ProfileBooking.OfThreadCount | scripts/compile-profile-attribute.py:42-44 | Every event is in the list of its own thread, as often as it occurs, and in no other |
| Jwks.Provider.GetJwks | crates/sqe-auth/src/bearer_token.rs:322-327 | A map younger than 15 minutes is returned without a request; otherwise one request, whose keys are cached as seen now and whose failure leaves the cache alone |
| Jwks.Provider.CarryOver | crates/sqe-auth/src/bearer_token.rs:533-552 | The merged map is the fresh keys and the retired ones within their grace window |
| Jwks.Provider.RefetchJwks | crates/sqe-auth/src/bearer_token.rs:509-560 | No request is sent if and only if the last refetch is less than 30 seconds ago and a map younger than 15 minutes is cached; otherwise one request, and on success exactly the fresh keys and the retired ones within grace |
| Jwks.Provider.ValidateJwt | crates/sqe-auth/src/bearer_token.rs:565-606 | The verdict is that of the key first obtained unless it is missing or does not fit the signature, then that of the key after a refetch; a token whose key the endpoint serves is accepted when no refetch was sent in the last 30 seconds; whatever is accepted verified under a key then cached |
| JwksRuns.RunKeepsInv | crates/sqe-auth/src/bearer_token.rs:471-560 | Every run keeps: each cached key was published at its last-seen time, and was within its grace window when its map was put together, with answer, merge and storing at instants of their own |
| JwksRuns.KeyAgeBound | crates/sqe-auth/src/bearer_token.rs:296-327 | A key that can be obtained was in an answer less than grace window plus TTL ago, plus the longest time an answer took to be stored |
| JwksRuns.RevokedKeyIsGone | crates/sqe-auth/src/bearer_token.rs:296-327 | A key no answer carried after some time is gone when that bound has passed |
| JwksRuns.KeyAgeBoundIsTight | crates/sqe-auth/src/bearer_token.rs:509-560 | For every grace window below the TTL and every storing time a run still obtains a retired key one second before the bound |
| JwksRuns.AfterRefetch | crates/sqe-auth/src/bearer_token.rs:526-560 | What a refetch stores next holds the fresh keys and exactly those retired keys that were last seen within the grace window, and nothing after an empty answer |
| JwksRuns.CacheChangesOnlyOnSuccess | crates/sqe-auth/src/bearer_token.rs:471-560 | Only the storing of a successful answer or an eviction changes the cached keys |
| JwksRuns.RefetchSpacing | crates/sqe-auth/src/bearer_token.rs:509-530 | While a map is cached, n requests of refetches, failed ones included, span at least 30(n-1) seconds |
| JwksRuns.RefetchIsSent | crates/sqe-auth/src/bearer_token.rs:509-530 | Over every run, a task that gets the mutex for a refetch sends a request if and only if the last one is 30 seconds ago or more or no map younger than 15 minutes is cached |
| JwksRuns.FetchIsSent | crates/sqe-auth/src/bearer_token.rs:322-327 | A lookup sends no request if and only if a map younger than 15 minutes is cached |
| JwksRuns.SingleRequest | crates/sqe-auth/src/bearer_token.rs:471-485 | At most one request is in flight, and none while an answer is being stored |
| OidcM2m.Provider.CachedIfFresh | crates/sqe-auth/src/oidc_m2m.rs:159-170 | The cached token exactly when more than the skew is left of it |
| OidcM2m.Provider.GetToken | crates/sqe-auth/src/oidc_m2m.rs:124-157 | Which of the two checks or the request answers the call, and what the cache then holds, whatever another task stored meanwhile |
| OidcM2mRuns.RunKeepsInv | crates/sqe-auth/src/oidc_m2m.rs:124-170 | Every interleaving of tasks keeps the mutex, the timing of the fetches and the origin of each token handed out |
| OidcM2mRuns.SingleFlight | crates/sqe-auth/src/oidc_m2m.rs:133-141 | At most one token request is in flight |
| OidcM2mRuns.FetchSpacing | crates/sqe-auth/src/oidc_m2m.rs:124-157 | Successful fetches are as far apart as the clamped lifetimes between them less one skew each |
| OidcM2mRuns.CacheChangesOnlyOnSuccess | crates/sqe-auth/src/oidc_m2m.rs:141-151 | Only a successful fetch changes the cache, and to its own token |
| OidcM2mRuns.CachedTokenMargin | crates/sqe-auth/src/oidc_m2m.rs:141-170 | A token from the cache has more than the skew less the answer's travel time left of its lifetime, counted as one second at least and one day at most; so it has of its issued lifetime, unless that is zero |
| OidcM2mRuns.CallIsServed | crates/sqe-auth/src/oidc_m2m.rs:124-170 | Over every run the last token answers a call without a request if and only if more than the skew is left of its lifetime, the issued one if that is a second to a day |
| OidcM2mRuns.CachedTokenMarginIsTight | crates/sqe-auth/src/oidc_m2m.rs:141-170 | For every issued lifetime, skew and travel time a run meets that bound to the nanosecond, so the margin is not the skew itself |
| OidcM2mRuns.ShortTokensAreNotReused | crates/sqe-auth/src/oidc_m2m.rs:142-170 | A token whose lifetime does not exceed the skew goes only to the call that fetched it |
| PerCatalog.TokenCache.ResolveBearer | crates/sqe-auth/src/per_catalog.rs:86-142 | The bearer of each variant, when a request is made, and that only a successful answer is remembered, under a key without the secret |
| PerCatalog.KeyIsUnique | crates/sqe-auth/src/per_catalog.rs:66-73 | A configuration shares its cache key with exactly those of the same endpoint, client and scope if and only if these texts hold no bar |
| PerCatalogRuns.RunKeepsInv | crates/sqe-auth/src/per_catalog.rs:108-140 | Over every interleaving of concurrent misses each entry ends a margin before its token does |
| PerCatalogRuns.CachedBearerMargin | crates/sqe-auth/src/per_catalog.rs:108-140 | A bearer from the cache has more than 60 seconds of its issued lifetime left at the sampled instant and was issued for 90 at least |
| PerCatalogRuns.ShortTokensAreNotCached | crates/sqe-auth/src/per_catalog.rs:123-139 | Tokens living less than 90 seconds are never cached |
| PerCatalogRuns.LongTokensAreReused | crates/sqe-auth/src/per_catalog.rs:108-139 | A token of 90 seconds or more is stored until a minute before its end, and a lookup is answered from the cache exactly up to then |
| PerCatalogRuns.NoForeignTokens | crates/sqe-auth/src/per_catalog.rs:66-116 | A configuration without bars is only served tokens issued for its endpoint, client and scope |
| PerCatalogRuns.ForeignToken | crates/sqe-auth/src/per_catalog.rs:66-116 | For every configuration with a bar a run serves it a token issued to another client |
| PerCatalogRuns.ForeignSecret | crates/sqe-auth/src/per_catalog.rs:66-118 | For every configuration and every secret a run serves it a token fetched with that secret |
| ChangelogText.SplitJoin | scripts/changelog-collect.py:66-66 | Joining lines and splitting the text gives the lines back |
| ChangelogText.JoinSplit | scripts/changelog-collect.py:66-66 | Splitting a text that does not end in a newline and joining gives it back |
| ChangelogText.StripJoin | scripts/changelog-collect.py:94-94 | Stripping newlines off a text is trimming blank lines off its lines |
| Changelog.ReadEmit | scripts/changelog-collect.py:78-102 | Reading the sections that were written gives back their order and their lines |
| Changelog.SortedIsSorted | scripts/changelog-collect.py:90-90 | The section order grows by rank in the fixed list, unknown sections last |
| ChangelogLayout.GlueStacks | scripts/changelog-collect.py:95-101 | Parts stand in their order, each at the sum of what is before it, with one blank line between two of them and nothing else |
| ChangelogLayout.NewBodyLayout | scripts/changelog-collect.py:75-102 | The new section, line by line: known names in their fixed order and unknown ones behind as they were; under each the collected entries in their order, then the text that stood under the last heading of that name |
| ChangelogLayout.FoldedLayout | scripts/changelog-collect.py:64-103 | The same of the lines of the returned text, between everything up to `## [Unreleased]` and everything from the next line that begins with `## [` |
| ChangelogFold.BodyTwice | scripts/changelog-collect.py:75-102 | Folding A and then B into a body gives the lines of one fold with the merged entries, whatever B holds |
| ChangelogFold.OutsideIsUntouched | scripts/changelog-collect.py:64-103 | Whatever the entries hold, everything up to the heading of the unreleased section and from the next release on is untouched |
| ChangelogFold.FoldKeepsOutside | scripts/changelog-collect.py:64-103 | Entries without release lines leave a section that ends where it should, so that it is found again |
| ChangelogLimits.ReadsBackWhole | scripts/changelog-collect.py:64-103 | The folded section is found again whole if and only if no entry holds a release line |
| ChangelogLimits.CompositionFails | scripts/changelog-collect.py:64-103 | For every A with a release line in an entry there is a file and a harmless B such that folding A and then B is not folding both |
| ChangelogLimits.ComposesIffNoRelease | scripts/changelog-collect.py:64-103 | Folding A and then B is folding both, for all B and all files, if and only if no entry of A holds a release line |
| ChangelogLimits.FoldComposesIffNoRelease | scripts/changelog-collect.py:64-103 | The same for the texts the program reads and writes |
| ChangelogKept.KeptExactly | scripts/changelog-collect.py:75-102 | A text line is in the new section if and only if an entry holds it, or the old section holds it under a heading that does not come again |
| ChangelogKept.NothingIsLost | scripts/changelog-collect.py:75-86 | No text line of the old section is lost if and only if none stands before the first heading and none under a heading that comes again |
| ChangelogFold.FoldTwice | scripts/changelog-collect.py:64-103 | Folding A and then B is folding once with the merged entries, on the lines of the file, whatever B holds |
| ChangelogProgram.ReadBody | scripts/changelog-collect.py:78-86 | The reading loop fills the order, the texts and the current section of the reading machine |
| ChangelogProgram.AddNames | scripts/changelog-collect.py:88-91 | The collected sections that are new are appended in their order |
| ChangelogProgram.WriteSections | scripts/changelog-collect.py:92-102 | Each section is written with its collected entries before its old text |
| ChangelogProgram.Fold | scripts/changelog-collect.py:64-103 | Fails exactly when there is no unreleased heading and otherwise returns the folded text |
| ChangelogProgram.FoldComposes | scripts/changelog-collect.py:64-103 | Folding A and then B gives the same text as one fold whose sections hold B's entries before A's |
| ChangelogFragment.Flush | scripts/changelog-collect.py:29-35 | A section ends with its stripped text, or is refused exactly when nothing is left of it |
| ChangelogFragment.ParseFragment | scripts/changelog-collect.py:25-57 | Accepts a fragment if and only if only blank lines precede the first heading, every section is known, occurs once and has an entry; returns each section's text |
| ChangelogKept.AcceptedFragmentFolds | scripts/changelog-collect.py:25-57 | What an accepted fragment yields meets all that the fold asks of its entries but for release lines, and an entry holds one if and only if the fragment does |
| ChangelogKept.FragmentComposes | scripts/changelog-collect.py:25-103 | An accepted fragment composes with all others on every changelog if and only if none of its lines begins a release |
| RowOrder.Sort | crates/sqe-bench/src/status.rs:60-63 | The rows in lexicographic order, none lost or added |
| RowOrder.SortIsUnique | crates/sqe-bench/src/status.rs:60-63 | Sorted rows are determined by the multiset of rows |
| RowOrder.FirstCell | crates/sqe-bench/src/status.rs:60-63 | Rows are ordered by the first cell in which they differ |
| TextOrder.FirstDifference | crates/sqe-auth/src/aws_iam.rs:211-221 | Texts are ordered by the first character in which they differ, shorter ones first |
| Comparator.BatchesToStringRows | crates/sqe-bench/src/status.rs:179-206 | The texts of the rows of all batches in order, a null cell as NULL |
| Comparator.RowsInOrder | crates/sqe-bench/src/status.rs:179-206 | Each row stands behind all rows of the batches before it, and each cell is its text, or NULL |
| Comparator.CompareSorted | crates/sqe-bench/src/status.rs:69-150 | Pass, Diff or the first disagreement in reading order |
| Comparator.CompareResults | crates/sqe-bench/src/status.rs:35-151 | The verdict on the sorted rows, or the row counts where they differ |
| Comparator.VerdictIsDetermined | crates/sqe-bench/src/status.rs:35-151 | No two verdicts fit one comparison |
| Comparator.OrderAndBatchesDoNotMatter | crates/sqe-bench/src/status.rs:35-151 | Permuting rows on either side or cutting them into other batches of the schema leaves the verdict as it is |
| Comparator.EqualRowsPass | crates/sqe-bench/src/status.rs:60-150 | Equal multisets of rows pass |
| Comparator.VerdictPairs | crates/sqe-bench/src/status.rs:69-150 | Pass and Diff come with a one-to-one pairing whose cells are equal after trimming or, in numeric columns, differ by at most epsilon or epsilon times the expected size; it is Pass exactly when all are equal after trimming |
| Comparator.FailureIsReal | crates/sqe-bench/src/status.rs:105-136 | A value mismatch names cells of the sorted rows that are neither equal after trimming nor within tolerance |
| Comparator.PassIffPaired | crates/sqe-bench/src/status.rs:60-150 | Where trimming keeps the row order on both sides, the verdict is Pass if and only if some pairing makes all rows equal after trimming |
| Comparator.PassIffOrderSurvives | crates/sqe-bench/src/status.rs:60-150 | Against rows of surviving order that they can be paired with, rows pass if and only if trimming keeps their own order too |
| Comparator.PassesAllItPairsWith | crates/sqe-bench/src/status.rs:60-150 | Trimming keeps the order of rows if and only if there are such rows and they pass against all of them; there are wherever trimming a cell twice is trimming it once |
| DecimalText.TrimKeepsValue | crates/sqe-bench/src/status.rs:93-99 | For every numeral, with or without sign, point and exponent, trimming keeps the value if and only if it is safe |
| DecimalText.NumeralTrimsOnce | crates/sqe-bench/src/status.rs:93-99 | Trimming a numeral twice is trimming it once |
| ComparatorLimits.PassMeansEqualNumbers | crates/sqe-bench/src/status.rs:89-102 | After a Pass, paired cells that are safe to trim denote the same number |
| ComparatorLimits.TrailingExponentZeroIsLost | crates/sqe-bench/src/status.rs:93-102 | For every mantissa with a point, an exponent passes for the exponent with a zero after it |
| ComparatorLimits.DifferentNumbersPass | crates/sqe-bench/src/status.rs:93-102 | `1.5e1` passes for `1.5e10` |
| ComparatorLimits.EqualRowsFail | crates/sqe-bench/src/status.rs:60-102 | Rows that can be paired after trimming, on which the verdict is a failure |
| Iceberg.RebaseUnder | playground/src/iceberg.rs:109-127 | A path under the location moves to the same place under the base |
| Iceberg.UrlRoundTrip | playground/src/iceberg.rs:109-127 | Between URLs, rebasing there and back is the identity on a path under the location if and only if it does not repeat the slash |
| Iceberg.PlainRoundTrip | playground/src/iceberg.rs:109-127 | From a location without a scheme to a URL and back, exactly those paths under the location return that hold no scheme and do not repeat the slash, or that both ways take for paths elsewhere |
| Iceberg.RebaseRoundTrip | playground/src/iceberg.rs:109-127 | The exact condition for every location and base: from a URL no repeated slash, and no further scheme if the base has none; without a scheme as in `PlainRoundTrip` |
| Iceberg.OutsideIsLeftAlone | playground/src/iceberg.rs:109-127 | A path outside the location is left alone if and only if its stripped text does not begin with the location's |
| Iceberg.NeighbourIsMoved | playground/src/iceberg.rs:121-126 | A path whose name merely continues the location's is moved below the base, for every location |
| Iceberg.ReadManifestList | playground/src/iceberg.rs:204-219 | Refuses exactly the lists with a delete manifest and otherwise yields the rebased manifest paths in order |
| Iceberg.ReadManifest | playground/src/iceberg.rs:228-248 | Refuses exactly the manifests with a live delete file and otherwise appends the rebased live files in order |
| Iceberg.ManifestsInOrder | playground/src/iceberg.rs:204-219 | The paths of two manifest lists come one after the other, each entry giving its own |
| Iceberg.FilesInOrder | playground/src/iceberg.rs:228-248 | So do the files of two manifests, an entry giving its path unless its status is 2 or it has none |
| Iceberg.SnapshotInOrder | playground/src/iceberg.rs:221-248 | And those of all manifests, in the order of their paths |
| Iceberg.Load | playground/src/iceberg.rs:204-255 | Succeeds if and only if nothing carries deletes, every manifest can be read and some live file is listed |
| Iceberg.FilesAreTheLiveOnes | playground/src/iceberg.rs:221-248 | A file is listed if and only if a live entry of some manifest carries it |

## Left out

- The SQL tokenizer: its tokens and positions are an input.
- SQL outside the modelled grammar, such as `IS DISTINCT FROM`, UPDATE with FROM, table arguments of table functions, PIVOT or MERGE.
- CollectAgreement.ScriptGather: asks that every WITH list is followed by SELECT or VALUES; behind a parenthesised body more may be recorded, as `ParenthesisedBodies` shows, but never less, as `CollectorKeeps` proves; the main theorem asks for nothing of the kind.
- Qualification.CollectorOnScript: the same condition, for the same reason.
- AttachStatement.RedactionIsExact: asks that the catalog name holds no quote, as the only caller's constant `golden` does (`crates/sqe-bench/src/run.rs:12`); the statement prints the name unescaped and an option in it is redacted as well; `RedactionBehindFront` covers names with quotes as long as no option is found in front of the warehouse's closing quote.
- Byte positions in the ARN matcher and the redaction: both work on characters here, which cannot be told apart since the texts searched for are ASCII or whole parts.
- Idempotence.QualifyIsIdempotent: is about tokens, not about text, because the tokenizer is not part of the model.
- Cache internals: a cache is a map with a time to live and arbitrary eviction, and a lock is an atomic section that may fail.
- JWKS parsing and the choice of a key's algorithm: an answer is a map of loadable keys.
- Jwks.Provider.ValidateJwt: one call sees one instant; the instants between its awaits are those of `JwksRuns`.
- JwksRuns.RefetchSpacing: counts seconds, where the program compares durations of finer grain.
- JWT and STS verification, TLS, HTTP and AWS signing: uninterpreted or not modelled.
- Comparator.CompareSorted: computes the tolerance in real numbers, so NaN, infinities and rounding are not captured.
- Comparator.CompareResults: the same real arithmetic.
- CSV parsing, Arrow display of cells and the outcome taxonomy beyond the verdict.
- Line separators other than the newline in the changelog; white space is space, tab and carriage return.
- ChangelogProgram.FoldComposes: asks that what is folded first holds no release line, which is the exact condition by `ChangelogLimits.FoldComposesIffNoRelease`.
- ChangelogFold.FoldTwice: the same, on lines, by `ChangelogLimits.ComposesIffNoRelease`.
- ChangelogFold.BodyTwice: the same, on the body.
- ProfileAttribution.Attribute: durations stay in microseconds, and the name of a root is taken as already cleaned up; printing and the per-module roll-up are not modelled.
- The metadata document of an Iceberg table, its schema and the choice of the current snapshot; Avro decoding.
- The remaining authentication providers, the CLI, report writing, charts, data generators and the static server: plumbing and input/output.
