# pgdiagnose decision logic, modelled in Dafny

pgdiagnose runs a fixed battery of eight diagnostic probes against a
PostgreSQL database and assembles their outcomes into a report. Each probe
runs a query and classifies the rows it gets back as green, yellow or red.
A probe whose query fails is reported as `skipped`, and the rest of the
battery still runs. This project models the rules that turn query results
into that report, the plan table that supplies the connection limit, and
the small request-side decisions of the HTTP server.

Every query result is an input to the model. `QueryResult<T>` is either
`QueryFailed` or `Rows(rows)`. A `Database` is either `Unreachable(error)`,
when opening the connection or the `select 1` ping fails, or
`Reachable(probes)`, which holds the answer to every probe query. The
follow-up query that measures one sequence is the function
`seqPct: string -> Option<int>`. It takes the sequence name and returns the
percentage in hundredths, or `None` when that query fails.

Files:
- `wrappers.dfy`: the `Option` and `Result` datatypes.
- `plans.dfy` (module `Plans`): `trimName` and `GetPlan`.
- `checks.dfy` (module `Checks`): the `Check` record and the status enum
  (`Status.Label` gives the strings "green", "yellow", "red" and "skipped").
  It also holds the eight probe wrappers, `connCountStuats`, the six list
  statuses, `seqCheck` as a loop, and `CheckSql`, which fills an 8-slot array.
- `server.dfy` (module `Server`): `JobParams` as a class whose `Sanitize`
  updates its fields in place, the early rejection in `createJob`, and
  `getReport`'s status choice.

Numbers:
- The connection ratio `count/limit` is compared by exact
  cross-multiplication. `Checks.ConnCountMatchesDivision` proves this agrees
  with exact real division when the limit is non-zero. Limit 0 follows IEEE
  division: +Inf for a positive count gives red; 0/0 is NaN, and both
  comparisons fail, so the result is green.
- Sequence percentages are integers in hundredths, because the follow-up
  query rounds them to two decimals. 75.00 is 7500 and 90.00 is 9000.

Boundary cases, as the code decides them:
- 18 of 20 connections is red. The ratio 0.9 meets the `>= 0.9` case, so it
  is not yellow.
- A limit of 0 with 0 connections is green, as NaN compares false. It is not
  red.
- A sequence at exactly 75.00% is not a finding, because the code keeps only
  `pct > 75` (checks.go:261). It does not count toward yellow.

## Model

| member | source | states |
|---|---|---|
| `Plans.TierLimit` | plans.go:12-26 | the switch over a trimmed name only ever yields one of 0, 20, 60, 120, 200, 400, 500 |
| `Plans.TierLimitMatchesTable` | plans.go:12-26 | the switch agrees with the tier table entry by entry: dev/basic 20, crane/yanari 60, kappa/"0" 120, ronin/tengu/fugu 200, ika/"2" 400, zilla/baku/mecha/ryu/"4".."7" 500, and 0 for any name outside the table |
| `Plans.GetPlan` | plans.go:11-27 | the plan's limit is always one of 0, 20, 60, 120, 200, 400, 500 |
| `Plans.GetPlanMatchesTable` | plans.go:11-27 | the limit is the table's entry for the trimmed name, and 0 (the zero plan) when the trimmed name is not in the table |
| `Plans.GetPlanEmptyName` | plans.go:26 | the empty name gets the zero plan |
| `Plans.TrimName` | plans.go:29-35 | trimName: the four TrimPrefix calls in their fixed order (enterprise-, premium-, standard-, hobby-); it has no contract of its own, and its properties are the `Plans.TrimName*` lemmas below |
| `Plans.TrimPrefix` | plans.go:30-33 | strings.TrimPrefix: when `s` starts with the prefix, `s` is the prefix followed by the result; otherwise the result is `s` |
| `Plans.TrimPrefixIsSuffix` | plans.go:30-33 | one prefix removal leaves a suffix of its input |
| `Plans.TrimNameIsSuffix` | plans.go:29-35 | trimName's output is a suffix of its input |
| `Plans.TrimNameUntiered` | plans.go:29-35 | a name that starts with none of the four prefixes comes back unchanged |
| `Plans.TrimNameOnePrefix` | plans.go:29-35 | one tier prefix in front of an untiered name is removed, and nothing else is |
| `Plans.GetPlanIgnoresTierPrefix` | plans.go:11-35 | for every listed tier name and every single prefix, the prefixed name gets the same limit as the bare name (e.g. "premium-crane" 60, "hobby-dev" 20) |
| `Plans.TrimNameNestedExample` | plans.go:29-35 | prefixes are tried in their fixed order, so "enterprise-premium-dev" loses both and becomes "dev" |
| `Plans.TrimNameOrderExample` | plans.go:29-35 | a later prefix cannot expose an earlier one: "hobby-premium-dev" becomes "premium-dev" |
| `Plans.TrimNameOnceExample` | plans.go:29-35 | each prefix is removed at most once: "premium-premium-dev" becomes "premium-dev" |
| `Checks.MakeErrorCheck` | checks.go:55-60 | a failed probe keeps its name, has status "skipped" and results `{"error": "could not do check"}` |
| `Checks.RatioAtLeast` | checks.go:77-83 | the float comparison `perc >= num/den` of connCountStuats, decided exactly; for limit 0 it follows IEEE division (+Inf, -Inf, NaN) |
| `Checks.RatioAtLeastIsDivision` | checks.go:77-83 | for every non-zero limit, the cross-multiplication holds exactly when count/limit ≥ num/den as an exact quotient |
| `Checks.ConnCountStatus` | checks.go:76-85 | never skipped; for a positive limit, red iff 10·count ≥ 9·limit and yellow iff 4·count ≥ 3·limit and 10·count < 9·limit; for limit 0, red iff count > 0 and never yellow |
| `Checks.ConnCountMatchesDivision` | checks.go:76-85 | for a non-zero limit the classification equals the ratio rule applied to count/limit as an exact quotient (yellow for 0.75 ≤ ratio < 0.9, red for ratio ≥ 0.9, else green) |
| `Checks.ConnCountMonotoneInCount` | checks.go:76-85 | for a fixed non-negative limit, more connections never lower the severity |
| `Checks.ConnCountAntitoneInLimit` | checks.go:76-85 | for a fixed non-negative count, a larger limit never raises the severity |
| `Checks.ConnCountExamples` | checks.go:76-85 | (18,20) and (19,20) red, (15,20) yellow, (10,20) green, (1,0) red, (0,0) green |
| `Checks.ConnCountCheck` | checks.go:66-74 | named "Connection Count"; skipped with the generic reason iff the query failed; otherwise classifies the first row's count against the limit and carries the rows |
| `Checks.LongQueriesStatus` | checks.go:103-109 | green exactly when there are no rows, red otherwise |
| `Checks.IdleQueriesStatus` | checks.go:127-133 | green exactly when there are no rows, red otherwise |
| `Checks.UnusedIndexesStatus` | checks.go:154-160 | green exactly when there are no rows, yellow otherwise |
| `Checks.BloatStatus` | checks.go:179-185 | green exactly when there are no rows, red otherwise |
| `Checks.HitRateStatus` | checks.go:202-208 | green exactly when there are no rows, red otherwise |
| `Checks.BlockingStatus` | checks.go:229-235 | green exactly when there are no rows, red otherwise |
| `Checks.LongQueriesCheck` | checks.go:93-101 | named "Long Queries"; skipped with the generic reason iff the query failed; otherwise its status rule applied to the rows, which it carries |
| `Checks.IdleQueriesCheck` | checks.go:117-125 | named "Idle in Transaction"; skipped iff the query failed; otherwise its status rule applied to the rows, which it carries |
| `Checks.UnusedIndexesCheck` | checks.go:144-152 | named "Indexes"; skipped iff the query failed; otherwise its status rule applied to the rows, which it carries |
| `Checks.BloatCheck` | checks.go:169-177 | named "Bloat"; skipped iff the query failed; otherwise its status rule applied to the rows, which it carries |
| `Checks.HitRateCheck` | checks.go:192-200 | named "Hit Rate"; skipped iff the query failed; otherwise its status rule applied to the rows, which it carries |
| `Checks.BlockingCheck` | checks.go:219-227 | named "Blocking Queries"; skipped iff the query failed; otherwise its status rule applied to the rows, which it carries |
| `Checks.Measure` | checks.go:256-260 | a measured candidate keeps its column and sequence; its percentage is the follow-up's answer, or 0 when the follow-up fails |
| `Checks.Findings` | checks.go:256-267 | no more findings than candidates, and every finding is strictly above 75.00 |
| `Checks.FindingsSnoc` | checks.go:256-267 | one more candidate is appended to the findings exactly when its measured percentage exceeds 75.00 |
| `Checks.FindingsAppend` | checks.go:256-267 | findings of a concatenation are the concatenated findings, so discovery order is kept |
| `Checks.MeasuredAboveSnoc` | checks.go:256-262 | one more candidate adds exactly its own measurement, when above 75.00, to the rows that qualify |
| `Checks.FindingsExactly` | checks.go:243-267 | a row is a finding iff it is some candidate's measurement and that measurement exceeds 75.00 |
| `Checks.FailedFollowUpIgnored` | checks.go:257-262 | a candidate whose follow-up fails is dropped without changing the findings of the candidates around it |
| `Checks.SeqSeverity` | checks.go:269-276 | never skipped, and green exactly when there are no findings |
| `Checks.FindingsStep` | checks.go:256-267 | one pass of the loop body extends the findings of the candidates seen so far by the next candidate's measurement exactly when it exceeds 75.00 |
| `Checks.SeverityOfMax` | checks.go:263-276 | grading the largest kept percentage (≥ 90 red, ≥ 75 yellow, else green) gives red iff some finding is ≥ 90.00, yellow iff findings exist and all are below, green iff none |
| `Checks.GradeOfRunningMax` | checks.go:263-279 | after the loop, grading the running maximum of all kept rows yields exactly the probe's outcome: name "Sequences", that grade, and the kept rows |
| `Checks.SeqSeverityGrows` | checks.go:269-276 | adding findings never lowers the sequence severity |
| `Checks.SeqSeverityMonotone` | checks.go:256-276 | discovering more sequences never lowers the sequence severity |
| `Checks.SeqCutoffExamples` | checks.go:244-276 | 75.00, 74.99 and a failed follow-up are dropped; 80.00 is one yellow finding; 92.30 is red |
| `Checks.SeqOutcome` | checks.go:243-279 | named "Sequences"; skipped with the generic reason iff the discovery query failed |
| `Checks.SeqCheck` | checks.go:243-279 | the loop's kept list and running maximum produce exactly the findings and their graded severity |
| `Checks.Battery` | checks.go:24-33 | exactly eight checks named, in order, Connection Count, Long Queries, Idle in Transaction, Indexes, Bloat, Hit Rate, Blocking Queries, Sequences |
| `Checks.SkippedExactlyWhenFailed` | checks.go:55-60 | each entry of the battery is skipped exactly when its own query failed, and then it is the generic error check |
| `Checks.FailureIsolated` | checks.go:17-34 | failing one probe's query gives the same battery with only that entry replaced by its skipped check |
| `Checks.CheckSql` | checks.go:17-34 | fails with the connection error and no checks iff the database is unreachable; otherwise returns the eight-entry battery for the plan's limit |
| `Checks.ScenarioReport` | checks.go:17-34 | 18 connections on the dev plan, one long query, no idle transaction and one sequence at 80.00%: red, red, green, and yellow with that single finding |
| `Server.IsParamChar` | server.go:33 | a character of the class `[a-zA-Z0-9\-_]`: ASCII letters, digits, `-` and `_` |
| `Server.ValidParam` | server.go:33 | `\A[a-zA-Z0-9\-_]+\z`: the whole string is one or more characters of the class |
| `Server.ValidParamExamples` | server.go:33 | "hobby-dev" and "my_app-2" match; "", "a b" and "x;y" do not, because the pattern is anchored and needs one character |
| `Server.Cleaned` | server.go:33-45 | a sanitised field is empty or a non-empty word of [A-Za-z0-9_-]; a field that already matches is kept |
| `Server.CleanedIdempotent` | server.go:35-45 | sanitising a field twice equals sanitising it once; an empty field stays empty |
| `Server.CleanedBlanksForeignChar` | server.go:33 | a field with any character outside the class is blanked |
| `Server.JobParams.Sanitize` | server.go:35-45 | Plan, App and Database become their sanitised forms, URL and Metrics are unchanged, and already-sanitised parameters are left as they were |
| `Server.CreateJob` | server.go:73-113 | an empty redacted URL gives "bad postgres url" whatever the database; otherwise a connection failure is passed on, or the stored row holds the sanitised labels, the redacted URL and the battery run with the sanitised plan's limit |
| `Server.GetReport` | server.go:142-149 | 200 with the stored JSON iff the lookup succeeds, otherwise 404 with an empty body |

## Left out

- SQL text and thresholds (checks.go:281-487): the database evaluates these, so rows and percentages are inputs. This covers the 64 MB size filters, bloat > 10, hit ratio < 0.99, the unused-index buckets, the sequence-name regex and the rounding of `last_value / 2^31`.
- Database and driver plumbing: `connectDB`, `db.Select`, `db.Get`, `db.Close`, `getResultJSON`, `setupDB` and `health` are foreign calls. A query is modelled only as "error or rows", and a connection only as "unreachable or answering".
- The insert in `createJob` and the id it returns: persistence is external. `CreateJob` returns the row it would insert.
- `CheckLoad` is not part of this model. `createJob` appends its checks to the battery's; the model's job row holds the eight battery checks only.
- `removePassword` depends on URL parsing. It is a parameter of `CreateJob`.
- `PrettyJSON` and JSON encoding are library serialisation.
- `create` runs the job in a goroutine and races a 25-second timer over a channel. Concurrency and wall-clock time are not modelled.
- The HTTP layer (routing, request binding, the HTTPS-header middleware) and the older prototype `pgdiagnose.go` are not modelled.
- Logging (`log.Println`, `log.Printf`) is dropped; the logged errors are otherwise ignored.
- Checks.ConnCountStatus: compares the ratio exactly instead of with float64 rounding. The two agree unless count and limit are beyond realistic connection counts. Hit-rate ratios are carried as `real` values and never inspected.
- Checks.ConnCountCheck: requires a non-empty count result. `count(*)` always returns one row, and indexing an empty result would panic in the code.
