# Valdrics operational tooling, modelled and proved

A Dafny 4.11 model of the release and operations scripts: the environment-file printer and parser, the
generator that reads its own output back, the contributor licence register as a protocol of concurrent
runs, the finance packet and the assumptions derived for it, the route-template matcher, the tenant
purge, the staged promotions, the readiness report and the PKG/FIN evidence. `dafny verify
dfyconfig.toml` checks the whole project.

| module | models |
|---|---|
| `Text`, `JsonValue` | Python strings as the scripts use them (strip, splitlines, code-point order), parsed JSON |
| `Shlex` | `shlex.quote` and the POSIX lexer behind `shlex.split`, as a state machine (IEEE Std 1003.1, Shell Command Language, section 2.2) |
| `ShellWords` | the texts `shlex.split` accepts, as a grammar |
| `EnvFile`, `EnvPrinting`, `EnvReading`, `Preflight` | printing and parsing environment files: the round trip, what is printed line by line, and what is read from text that was not printed |
| `ManagedContract`, `RuntimeEnv`, `RuntimeArguments`, `RuntimeSample` | the managed runtime environment generator; what its command line does, key by key; a library that meets its assumptions, and files from which it loses values |
| `ClaRegister`, `ClaReview`, `ClaEntries` | the signature register and one run's decisions, also in terms of the JSON they are read from |
| `ClaProtocol`, `ClaStatus` | many runs against one repository: what the file keeps, and which verdict each run posts |
| `Rounding`, `FinanceCommon`, `FinanceEngine`, `FinanceScenarios`, `FinanceAssumptions`, `FinancePacket`, `FinanceGates` | the finance packet, the derived assumptions, and the two together |
| `FinanceReading`, `FinancePublished`, `FinanceWhatIf`, `FinanceDerivation`, `FinanceAccepts` | what is published and derived, from the JSON that is read, and when there is a packet at all |
| `Percentile` | tenant cost percentiles |
| `RoutePatterns`, `Routes` | path templates and when their matcher is right; frontend and backend route templates |
| `Purge`, `PurgeRows`, `PurgeRun` | the tenant purge: the schema, whose a row is, and the commits on a database |
| `Promotion` | moving generated files into place |
| `Readiness` | what keeps a deployment bundle from being ready |
| `PkgFin`, `PkgFinReading`, `PkgFinAccepts` | the PKG/FIN evidence generator and its validator; what the generator writes and what the validator accepts |

Assumptions that hold throughout:

- JSON text, base64, URL and CIDR validity, ISO dates and the ordering of JSON object keys are not looked
  into; they are parameters with the laws each file states (`RuntimeEnv.Lawful`, which
  `RuntimeSample.SampleLawful` shows can be met, `FinanceCommon.Lawful`, `PkgFin.CleanWording`). Error messages are reduced to the name of the field.
- Amounts are exact reals, and rounding is to the nearest grid point with ties to the even one. A number
  that is not finite counts as one that cannot be converted.
- GitHub is a store in which a sha always stands for the same content, and which accepts a write only
  when the supplied sha is the file's or when there is neither. Only workflow runs write the signature
  file, and the date of a comment is not blank (`ClaRegister.SignedIffDated` says what happens otherwise).
- SQLAlchemy lists referenced tables first, references are to `id` columns, `cost_records` has ids and
  does not refer to itself. A file is staged completely or not at all.
- Lower case and upper case are those of ASCII letters; `casefold` and `str` of other JSON values are
  arbitrary functions.

What the model found about the code:

- A value with a line break is not carried by the environment file: the text does not parse back
  (`EnvFile.ParseUndoesRender`, `Preflight.PreflightReadsBack`).
- The header of the generated file promises that existing values are preserved. They are not, and for
  every key `RuntimeEnv.ExistingValuesPreserved` has the exact condition on the existing text. Settings
  that every run prints alike lose any other value (`RuntimeSample.TokenLost` loses a Jira token), so do
  the environment and the CORS list; a CIDR text that is not written as the generator writes a valid
  list gives way to the placeholder list (`RuntimeSample.CidrLost` loses `10.0.0.0/8`); "Groq" becomes
  "groq" and "yes" becomes "true"; a Paystack key that is not live is blanked while activation is
  pending, and so is the key of every LLM provider that is not selected; white space at the ends goes;
  and a key the generator does not print falls back to the template.
- The route matcher is wrong in two ways, and `RoutePatterns.RightIff` has the exact condition for all
  templates. It misses a shared path exactly when one template ends before two or more catch-alls of
  the other (`RoutePatterns.MissedIff`); it reports a match that no path fits exactly when it meets a
  catch-all and what follows cannot meet (`RoutePatterns.OverreportedIff`), which with at most one
  catch-all each is a matter of the ends and lengths (`RoutePatterns.OneCatchAllEach`).
- A failed promotion of the seven artifacts leaves a mix of new and old or missing ones exactly when
  moving stops midway and an artifact already moved cannot be deleted again (`Promotion.MixedIff`).
- Two of the seven PKG/FIN gates, coverage and post-launch commitments, can never be computed false:
  the same conditions are enforced before (`PkgFinAccepts.BacklogIff`).
- When two signers comment at once, one run fails and its signer has to comment again
  (`ClaProtocol.RacingWrite`); a signing with a blank date would erase the signer
  (`ClaRegister.SignedIffDated`).
- A failed regeneration of the runtime environment deletes the environment file that was there
  (`Promotion.BothGone`), or leaves the new one beside a report that is not new when a deletion fails too
  (`Promotion.PairMixedIff`).
- Deleting in batches deletes rows that share an id with a doomed row
  (`Purge.ByIdIsByRow`).

## Model

| member | source | states |
|---|---|---|
| Shlex.SplitQuote | scripts/env_generation_common.py:207-210 | lexing the quoted form of any non-empty string ends in an accepting state with exactly that string as its one token |
| Shlex.QuoteShape | scripts/env_generation_common.py:248-256 | a quoted form is not empty, is unchanged by `strip`, never takes the raw JSON shortcut, and holds a line break only if the string did |
| Shlex.SplitKeepsOneLine | scripts/env_generation_common.py:252-256 | tokens of a single line are single lines |
| EnvFile.RenderEnv | scripts/env_generation_common.py:213-238 | the two loops print the specified lines: template lines with overrides in place, then the keys the template lacks in order |
| EnvFile.ParseEnvText | scripts/env_generation_common.py:241-257 | the parsing loop computes the specified map or stops with the same error, the last line of a key winning |
| EnvFile.ParseUndoesRender | scripts/env_generation_common.py:213-257 | for template lines without line breaks, the rendered text reads back as the template's raw values overridden by the overrides if and only if every key is well formed and no value holds a line break |
| EnvFile.LinesRoundTrip | scripts/env_generation_common.py:213-257 | taken line by line, rendering reads back for all values, duplicate template keys and appended keys included |
| EnvFile.BrokenValueFails | scripts/env_generation_common.py:207-257 | one value with a line break makes parsing fail altogether, because the quotation stays open |
| EnvPrinting.TextPrinted | scripts/env_generation_common.py:213-238 | the printed text has one line for each line of the template, blank lines, comments and lines without `=` as they are, the others as trimmed key and override or own raw value, and then one line for each override that no line assigns, in the order of the keys; values are plain or in single quotes |
| ShellWords.SplitItems | scripts/env_generation_common.py:255 | every text of words between blanks is split into what its words mean, bare, escaped, single-quoted and double-quoted pieces in any mix |
| ShellWords.SplitSpelled | scripts/env_generation_common.py:255 | whatever text is split at all is such a text of words |
| EnvReading.QuotedListSplits | scripts/env_generation_common.py:255 | quoted strings joined by blanks are split into exactly those strings, for every list |
| EnvReading.FirstWordIsRead | scripts/env_generation_common.py:252-256 | a value of one word, a blank and any lexable rest is read as what the first word means |
| EnvReading.ValueForms | scripts/env_generation_common.py:249-256 | a blank value reads as nothing, text starting with a bracket or brace as itself, and anything else that reads at all as its first word |
| EnvReading.WrittenForms | scripts/env_generation_common.py:249-256 | the bare, single-quoted, double-quoted, backslash-escaped and printed forms of a string read as the string, whatever lexable text follows after a blank |
| EnvReading.AssignmentIsRead | scripts/env_generation_common.py:241-257 | a line of a key and a value with white space around both sets that key to that value |
| EnvReading.SkippedLines | scripts/env_generation_common.py:244-246 | blank lines, comments and lines without `=` are passed over |
| EnvReading.ReadableIff | scripts/env_generation_common.py:241-257 | a text can be read if and only if each of its lines can |
| EnvReading.LastLineWins | scripts/env_generation_common.py:241-257 | a key has the value of the last line that assigns it |
| Preflight.RenderEnvPayload | scripts/preflight_runtime_env_contract.py:49-55 | the loop prints one quoted entry per key, in order |
| Preflight.PayloadPrinted | scripts/preflight_runtime_env_contract.py:49-55 | the payload is one line for each key in the order of the keys, values plain or in single quotes |
| Preflight.PreflightReadsBack | scripts/preflight_runtime_env_contract.py:49-55 | the generator reads the rendered payload back unchanged if and only if keys are well formed and values are single lines |
| Preflight.PreflightKeeps | scripts/preflight_runtime_env_contract.py:83-90 | the generator that is run on the payload keeps a supplied value under exactly the conditions under which it keeps an existing one |
| RuntimeEnv.NormalizeTrustedProxyCidrs | scripts/generate_managed_runtime_env.py:165-180 | the loop trims every entry and fails at the first blank or invalid one |
| RuntimeEnv.NormalizeCidrsTwice | scripts/generate_managed_runtime_env.py:165-180 | normalizing an already normalized list gives it back |
| RuntimeEnv.OutputRoundTrip | scripts/generate_managed_runtime_env.py:589-598 | the printed file with its header parses to the template's values overridden by the overrides |
| RuntimeEnv.Printed | scripts/generate_managed_runtime_env.py:660-689 | a successful run prints a file that parses to the template overridden by exactly the overrides it computed |
| RuntimeArguments.ArgumentsPrinted | scripts/generate_managed_runtime_env.py:335-586 | for every key the text that is printed, from the raw arguments, the existing text, the defaults and the fresh secrets: a given argument under its own key whatever the file says, URLs and Paystack keys stripped, accounts and networks as JSON lists, the lowered provider with its own key alone; else the existing text, else the named default |
| RuntimeArguments.OthersPrinted | scripts/generate_managed_runtime_env.py:433-598 | every key a run does not compute is printed with its constant, else as the last template line that assigns it says, else not at all |
| RuntimeArguments.SucceedsIff | scripts/generate_managed_runtime_env.py:165-299 | a run succeeds if and only if the environment is known, the existing file can be read, and the wanted networks, URLs, Paystack keys, pending word and provider are acceptable |
| RuntimeEnv.ReadBack | scripts/generate_managed_runtime_env.py:305-332 | every value the next run looks up in that file is the one this run resolved |
| RuntimeEnv.ResolveAgain | scripts/generate_managed_runtime_env.py:335-586 | resolving from the printed values without arguments gives the same settings once untrimmed arguments are settled, Paystack pending and live cases, provider keys, URLs and secrets included |
| RuntimeEnv.RegenerationSettles | scripts/generate_managed_runtime_env.py:601-738 | after any run the next one succeeds, prints the same file if and only if the arguments were tidy and the proxy list stable, and every later run prints what that one did |
| RuntimeEnv.RegenerationFixpoint | scripts/generate_managed_runtime_env.py:335-738 | without arguments a second run prints the first run's file again, for every template, existing file and pair of generated secrets |
| RuntimeEnv.ExistingValuesPreserved | scripts/generate_managed_runtime_env.py:335-689 | for every key, printed or not, the exact condition on the existing text under which a run without arguments keeps it |
| RuntimeEnv.UnreadableCidrsReplaced | scripts/generate_managed_runtime_env.py:320-332 | a CIDR text that is not a JSON list, or shows a placeholder, is replaced by the placeholder list |
| RuntimeSample.ConstantOverwrites | scripts/generate_managed_runtime_env.py:433-581 | from a file that gives any constant key any other plain value a run succeeds and prints the constant |
| RuntimeSample.TokenLost | scripts/generate_managed_runtime_env.py:567-571 | a run on a file with a Jira token succeeds and leaves it blank |
| RuntimeSample.CidrLost | scripts/generate_managed_runtime_env.py:320-332 | a run on a file with the network `10.0.0.0/8` succeeds and replaces it by the placeholder list |
| ClaRegister.NormalizeSignatures | scripts/cla_assistant.py:263-297 | the loop keeps exactly the readable entries, sorted by folded name |
| ClaRegister.UpsertSigners | scripts/cla_assistant.py:307-330 | an upsert adds exactly the signer, sorts the register, and keeps a canonical register canonical |
| ClaRegister.RegisterStaysCanonical | scripts/cla_assistant.py:307-330 | any sequence of upserts keeps a canonical register sorted and unique, with the old and the new signers and no others |
| ClaRegister.UpsertsCommute | scripts/cla_assistant.py:307-330 | upserts of different signers commute, whatever the register |
| ClaRegister.UpsertReplaces | scripts/cla_assistant.py:317-330 | signing again replaces the signer's own entry and nothing else |
| ClaRegister.NormalizedShape | scripts/cla_assistant.py:263-297 | whatever the payload, a register that was read is sorted and can be read again |
| ClaRegister.EntryReadBack | scripts/cla_assistant.py:52-74 | what one written entry is read back as, and that it is lost when its name or date is blank |
| ClaRegister.RegisterRoundTrip | scripts/cla_assistant.py:263-304 | reading a serialized register gives it back if and only if it is sorted and its entries are trimmed, non-blank and with integer ids |
| ClaRegister.SignedIffDated | scripts/cla_assistant.py:590-616 | after a signing run's write the file holds the old signers and the new one if the date is not blank, and loses the signer otherwise |
| ClaEntries.RegisterRead | scripts/cla_assistant.py:263-297 | the register that is read holds each entry as often as items of `signedContributors` stand for it, told from their JSON fields, in the order of the folded names |
| ClaEntries.UpsertCount | scripts/cla_assistant.py:307-330 | a signing is in the register once afterwards, no other entry under its folded name is, and every other entry is as often as before |
| ClaReview.ListAll | scripts/cla_assistant.py:151-179 | the pagination loop ends and returns the whole list, for every length |
| ClaReview.ExtractCommitAuthors | scripts/cla_assistant.py:412-422 | the loop returns the distinct logins of the commits' authors in order |
| ClaEntries.AuthorsIff | scripts/cla_assistant.py:412-422 | a login is a commit author if and only if the `author.login` of some commit is that text |
| ClaReview.RequiredExactly | scripts/cla_assistant.py:333-346 | the required signers are the PR and commit authors not on the allow list under any spelling, each once, in order |
| ClaReview.EvaluatePartitions | scripts/cla_assistant.py:349-365 | signed and missing signers partition the required list |
| ClaReview.SatisfiedIff | scripts/cla_assistant.py:349-365 | the check passes if and only if every required signer is in the register under some spelling |
| ClaReview.SigningRemovesExactly | scripts/cla_assistant.py:307-365 | a signing takes exactly the case-equal names off the missing list, keeping the order |
| ClaReview.FindExistingCommentId | scripts/cla_assistant.py:399-409 | the loop returns the id of the first comment with the marker and an integer id |
| ClaReview.CommentStaysInPlace | scripts/cla_assistant.py:372-519 | the text a run writes is found again by the next run in the same comment, which keeps its id, and no other comment changes |
| ClaEntries.PendingMentions | scripts/cla_assistant.py:389-396 | while signatures are missing the comment mentions every missing signer, the phrase and the document |
| ClaEntries.SatisfiedMentions | scripts/cla_assistant.py:378-387 | once nobody is missing the comment mentions everyone who had to sign |
| ClaProtocol.WriteAdds | scripts/cla_assistant.py:236-255 | an accepted write leaves the register that the signing makes of the register it replaces |
| ClaProtocol.NoLostSignature | scripts/cla_assistant.py:236-616 | under every interleaving of any number of runs, the signers of accepted writes and everyone in the file before are in every later file |
| ClaProtocol.SuccessStaysSound | scripts/cla_assistant.py:537-641 | a posted success implies that every author not on the allow list is in the file then and in every later state |
| ClaStatus.StatusIsVerdict | scripts/cla_assistant.py:537-616 | under every interleaving, a posted status is a success if and only if everyone who has to sign for the pull request was in the file right after the run that posted it loaded it or had its own signing recorded |
| ClaStatus.UndisturbedRun | scripts/cla_assistant.py:558-642 | a run that nobody disturbs posts a status, a success if and only if the file covers everyone |
| ClaStatus.UndisturbedSigning | scripts/cla_assistant.py:590-642 | a run whose own signing is accepted posts a success if and only if the file and its signer together cover everyone |
| ClaStatus.FirstRun | scripts/cla_assistant.py:458-497 | the run that creates the branch posts a success if and only if the file it starts with covers everyone |
| ClaProtocol.Linearizes | scripts/cla_assistant.py:481-616 | the file after any schedule is what the accepted signings make of the first one when applied one after the other |
| ClaProtocol.FileStaysCanonical | scripts/cla_assistant.py:307-616 | a canonical signature file stays canonical under every schedule, also one that first creates the branch from a canonical file |
| ClaProtocol.UnreadableStays | scripts/cla_assistant.py:481-497 | a file that is not JSON is never written over |
| ClaProtocol.RacingWrite | scripts/cla_assistant.py:236-255 | of two runs that loaded the same version the second is refused, unless the first changed nothing |
| Rounding.RoundMonotone | scripts/finance_committee_packet_engine.py:88-92 | rounding is monotone |
| Rounding.RoundGrid | scripts/finance_committee_packet_engine.py:180-201 | a rounded number is on the grid, and rounding changes nothing if and only if the number is on it |
| Rounding.RoundClose | scripts/finance_committee_packet_engine.py:88-92 | rounding moves a number by at most half a unit |
| Rounding.RoundIff | scripts/finance_committee_packet_engine.py:88-92 | the result is the nearest multiple of the unit, and of two equally near the even one |
| FinanceCommon.IndexByTier | scripts/finance_committee_packet_common.py:74-83 | the loop builds the specified index or fails at the first bad row |
| FinanceCommon.IndexedExactly | scripts/finance_committee_packet_common.py:74-83 | the index exists if and only if every row is an object with a tier of its own, and holds exactly those rows |
| FinanceCommon.ParseTierFloatMap | scripts/finance_committee_packet_common.py:86-104 | the loop parses the value of every tracked tier or fails at the first that is out of range |
| FinanceCommon.TierMapParsesBack | scripts/finance_committee_packet_common.py:86-104 | a tier map within the bounds is parsed back unchanged |
| FinanceCommon.ThresholdsParseBack | scripts/finance_committee_packet_common.py:107-148 | written thresholds parse back if and only if they are in range |
| FinanceCommon.ParseCloseHistory | scripts/finance_committee_packet_common.py:151-181 | the loop parses the close history or fails at the first bad or repeated month |
| FinanceCommon.ParsedHistory | scripts/finance_committee_packet_common.py:151-181 | a parsed history has every item in order, distinct months and margins from 0 to 100 |
| FinanceEngine.BuildTierUnitEconomics | scripts/finance_committee_packet_engine.py:22-120 | the loop builds one row per tracked tier, with the specified parsing, arithmetic and failures |
| FinanceEngine.EconomicsRows | scripts/finance_committee_packet_engine.py:47-120 | there is one row per tracked tier in order, in cents, with nothing negative and effective revenue at most revenue |
| FinanceEngine.ComputeMetrics | scripts/finance_committee_packet_engine.py:123-202 | the loop computes the totals, the running worst p95 share and the rounded metrics |
| FinanceEngine.TotalsAreSums | scripts/finance_committee_packet_engine.py:142-160 | the accumulated totals are the column sums of the rows |
| FinanceEngine.WorstIsGreatest | scripts/finance_committee_packet_engine.py:161-174 | the p95 metric is the greatest cost share of any tier with paying tenants, or zero when there is none |
| FinanceEngine.MarginMonotone | scripts/finance_committee_packet_common.py:68-71 | a margin never rises with costs, also without revenue |
| FinanceEngine.MarginsKeepBounds | scripts/finance_committee_packet_engine.py:167-187 | after rounding the discount impact is a percentage and the stress margin is at most the blended margin for every multiplier of at least one |
| FinanceEngine.BlendedBetweenTiers | scripts/finance_committee_packet_engine.py:94-194 | when every tier earns something the rounded blended margin lies within any bounds of the rounded tier margins |
| FinanceReading.RowsRead | scripts/finance_committee_packet_engine.py:40-118 | each row is made of the numbers under the literal keys of the telemetry: every subscription pays the price, those with annual billing the factor of it, with model, infrastructure and support costs and the margin of the rounded amounts |
| FinanceReading.P95Published | scripts/finance_committee_packet_engine.py:161-182 | the published p95 metric is the rounded greatest share of any tier, the share being the number at `tenant_monthly_cost_percentiles_usd.p95` of the tier's row over what a tenant pays, zero without that object |
| FinanceReading.MeasuredSays | scripts/finance_committee_packet_engine.py:142-202 | margins, discount impact, signals and totals are those of the column sums, the stress margin with infrastructure costs times the multiplier |
| FinanceReading.GatesOnLastCloses | scripts/finance_committee_packet_engine.py:205-221 | the margin gate looks at the last closes, as many as are required, whatever came before, and there are no gates with fewer |
| FinanceScenarios.ComputeScenarioRows | scripts/finance_committee_packet_scenarios.py:15-112 | the outer loop computes the specified row of every scenario or fails at the first bad one |
| FinanceScenarios.ScenarioMonotone | scripts/finance_committee_packet_scenarios.py:51-112 | reported effective revenue never falls when any subscription or price multiplier rises |
| FinanceScenarios.OnesReproduceTotals | scripts/finance_committee_packet_scenarios.py:51-112 | with all multipliers one the reported effective revenue is within 0.045 of the rounded total |
| FinanceAssumptions.DeriveAssumptionsInputs | scripts/finance_committee_packet_assumptions_engine.py:49-307 | the derivation computes the specified assumptions, the tier loop filling the dictionaries and sums |
| FinanceAssumptions.DerivedTiers | scripts/finance_committee_packet_assumptions_engine.py:76-131 | the derived dictionaries have exactly the tracked tiers, every value inside its clamp after rounding |
| FinanceDerivation.DerivationSays | scripts/finance_committee_packet_assumptions_engine.py:49-283 | everything derived, from the telemetry: annual mix, infrastructure and support costs, signals and multiplier by formulas over the numbers of the tiers, thresholds with their exact slack to the measured values inside absolute bounds, the synthesized close, and the five hosting costs under their keys |
| FinanceDerivation.WindowDerived | scripts/finance_committee_packet_assumptions_engine.py:212-218 | the derived assumptions are dated now and named after the window, or after the day when it has no name |
| FinanceDerivation.ModelsWritten | scripts/finance_committee_packet_assumptions_engine.py:244-275 | the three derived scenarios with their names and multipliers |
| FinanceDerivation.DeriveIff | scripts/finance_committee_packet_assumptions_engine.py:49-216 | assumptions are derived if and only if the packet program could compute its metrics from the telemetry and there is a window object |
| FinancePacket.PacketKeepsBounds | scripts/finance_committee_packet_engine.py:142-202 | for all telemetry and assumptions a published packet keeps the margin bounds |
| FinancePacket.PacketOnes | scripts/finance_committee_packet_scenarios.py:51-112 | in every packet the all-ones scenario reproduces the packet's own effective revenue within 0.045 |
| FinancePublished.PacketMeasures | scripts/finance_committee_packet_engine.py:250-314 | in every packet rows, metrics, totals and the p95 metric are those of the numbers in the telemetry and the assumptions, read under their literal keys |
| FinancePublished.PacketJudges | scripts/finance_committee_packet_engine.py:316-399 | in every packet the gates judge its own metrics by the thresholds, the margin also by the last closes with the current one, it passes when all five do, and a year of revenue is set against the sum of five hosting costs |
| FinanceWhatIf.PacketScenarios | scripts/finance_committee_packet_scenarios.py:51-112 | every packet reports one scenario for each item of the assumptions: revenue times both multipliers, model and support costs times subscriptions, infrastructure costs in proportion to revenue |
| FinanceAccepts.EconomicsIff | scripts/finance_committee_packet_engine.py:31-92 | the unit economics exist if and only if pricing is an object, both lists are about different tiers and the numbers of the four tiers are in range |
| FinanceAccepts.AssumptionsIff | scripts/finance_committee_packet_engine.py:255-299 | the assumptions are read if and only if every number is there and in range and the closes are of different months |
| FinanceAccepts.PacketIff | scripts/finance_committee_packet_engine.py:250-399 | there is a packet if and only if telemetry and assumptions are in order, there are as many closes as the margin gate needs, and scenarios and hosting costs can be read |
| FinanceGates.GatesAtFloors | scripts/finance_committee_packet_engine.py:205-247 | gates computed with derived thresholds pass exactly at margin 60, p95 share 35, discount 35 and stress 45; the expansion gate always passes |
| FinanceGates.PriorMeetsFloor | scripts/finance_committee_packet_assumptions_engine.py:219-242 | the synthesized prior close always meets the derived margin floor |
| FinanceGates.WhatWasDerived | scripts/finance_committee_packet_assumptions_engine.py:49-242 | everything the derivation returns follows from the metrics it measured and is in range |
| FinanceGates.DerivedParseBack | scripts/finance_committee_packet_engine.py:250-299 | the derived assumptions, written as JSON, never fail the packet's parsing and come through unchanged |
| FinanceGates.SelfDerivedGates | scripts/finance_committee_packet_assumptions_engine.py:49-307 | for all telemetry the derivation accepts, the packet built from the derived assumptions succeeds if and only if the window is named, and then its gates pass exactly at the floors and its first scenario reproduces its totals |
| Percentile.PercentileBounded | scripts/collect_finance_telemetry_snapshot.py:123-137 | a percentile lies between the least and the greatest value, and the special cases for 0 and 100 agree with the general formula |
| Percentile.PercentileMonotone | scripts/collect_finance_telemetry_snapshot.py:123-137 | a higher percentile is never lower |
| Percentile.PercentileOfPermutation | scripts/collect_finance_telemetry_snapshot.py:130 | the order of the values does not matter |
| Percentile.PercentileMonotoneInCosts | scripts/collect_finance_telemetry_snapshot.py:123-137 | when values rise no percentile falls |
| Percentile.SnapshotConsistent | scripts/finance_telemetry_snapshot_queries.py:132-141 | the published p50, p95 and p99 are in order after rounding, independent of order and monotone in the costs |
| Percentile.PercentileIs | scripts/collect_finance_telemetry_snapshot.py:123-137 | a percentile is read off the sorted values in proportion between the two neighbours of its rank, at a whole rank the value itself |
| Percentile.SnapshotIs | scripts/finance_telemetry_snapshot_queries.py:132-141 | the published snapshot is the sum of the costs and their 50th, 95th and 99th percentile, rounded |
| RoutePatterns.TemplatesMatch | scripts/check_frontend_api_contracts.py:233-255 | the two-pointer loop decides the specified relation on templates |
| Routes.PathMatches | scripts/check_frontend_api_contracts.py:220-255 | path texts are split, classified and matched as specified, the string comparison at the start included |
| Routes.SegmentsIff | scripts/check_frontend_api_contracts.py:231-232 | the segments of a path are the only non-empty texts without slash that make it up in order with slashes between them, however many |
| Routes.PartIff | scripts/check_frontend_api_contracts.py:220-225 | a segment in braces is a parameter, and a catch-all if and only if its name ends with `:path` |
| RoutePatterns.MatchesSymmetric | scripts/check_frontend_api_contracts.py:228-255 | matching is symmetric |
| RoutePatterns.MatchesItself | scripts/check_frontend_api_contracts.py:229-230 | a template matches itself, so the string comparison at the start is redundant |
| RoutePatterns.MissedIff | scripts/check_frontend_api_contracts.py:249-255 | for all templates: they share a path and are not matched if and only if one ends before at least two segments of the other that are all catch-alls |
| RoutePatterns.OverreportedIff | scripts/check_frontend_api_contracts.py:237-240 | for all templates: they are matched and share no path if and only if the loop meets a catch-all and what is left cannot meet |
| RoutePatterns.RightIff | scripts/check_frontend_api_contracts.py:228-255 | the answer is right if and only if neither error is made, whatever catch-alls there are |
| RoutePatterns.OneCatchAllEach | scripts/check_frontend_api_contracts.py:228-255 | with at most one catch-all in each template no shared path is missed, and a match is wrong if and only if the ends after a catch-all do not fit or one template is too short for the other's end |
| RoutePatterns.TrailingJudged | scripts/check_frontend_api_contracts.py:228-255 | with catch-alls only in last position the answer is right |
| RoutePatterns.LeadingCatchAllMisjudged | scripts/check_frontend_api_contracts.py:237-240 | a catch-all followed by one literal matches every other literal, which no path fits |
| RoutePatterns.TwoCatchAllsMisjudged | scripts/check_frontend_api_contracts.py:246-255 | two catch-alls at the end keep templates from matching that a path fits |
| Routes.CollectMissing | scripts/check_frontend_api_contracts.py:268-271 | the loop collects exactly the references that no declared path matches |
| Routes.MissingIff | scripts/check_frontend_api_contracts.py:268-271 | a reference that is rightly judged against every declared template is reported if and only if no path fits both it and one of them |
| Purge.CollectPurgeTargets | scripts/purge_simulation_data.py:99-145 | the loops return the target of every table with owner columns, last table first |
| Purge.TargetPlace | scripts/purge_simulation_data.py:99-145 | every table with owner columns has its target in the list exactly once |
| Purge.ReferringTablesFirst | scripts/purge_simulation_data.py:99-145 | a table that refers to another stands strictly before it in the list of targets |
| Purge.ByIdIsByRow | scripts/purge_simulation_data.py:164-188 | deleting by the ids of the doomed rows is deleting the doomed rows if and only if no surviving row shares an id with one |
| Purge.IntegrityKept | scripts/purge_simulation_data.py:227-255 | a committed state of a purge has no dangling reference, when whatever refers to a doomed row is doomed |
| PurgeRows.DoomedIff | scripts/purge_simulation_data.py:86-161 | a row is meant to go if and only if a column called tenant_id or referring to tenants holds one of the tenant ids, or a column called user_id or referring to users holds the id of a user of theirs |
| PurgeRun.DeleteBatched | scripts/purge_simulation_data.py:164-188 | the loop ends for every batch size, deletes the rows with doomed ids and no others, counts them, and commits only such states |
| PurgeRun.AllGone | scripts/purge_simulation_data.py:176-188 | when the batch query finds nothing more, every doomed id has been deleted |
| PurgeRun.PurgeTargets | scripts/purge_simulation_data.py:227-255 | the loop over the targets previews or purges every one, in order, and counts |
| PurgeRun.PurgeSimulationData | scripts/purge_simulation_data.py:191-277 | a missing tenant or a dry run changes nothing, a dry run reports the targets an execution would, an execution purges every table, and every commit is pruned only of doomed ids with no doomed reference left |
| PurgeRun.LossesExact | scripts/purge_simulation_data.py:246-255 | the reported count of a table is the number of rows it lost |
| PurgeRun.PurgedExactly | scripts/purge_simulation_data.py:227-255 | after an execution a row is in a table if and only if it was there and belongs to no purged tenant or user |
| PurgeRun.ExecutionRows | scripts/purge_simulation_data.py:191-277 | after an execution every row is in its table as often as before, or not at all when it belongs to the tenants or their users by its own columns |
| PurgeRun.PreviewIff | scripts/purge_simulation_data.py:227-243 | a report lists exactly the tables that have a column of a kind for which there are ids |
| PurgeRun.PurgeKeepsIntegrity | scripts/purge_simulation_data.py:227-255 | an execution leaves no dangling reference |
| Promotion.PromoteBundle | scripts/generate_managed_deployment_artifacts.py:809-845 | for every pattern of failures, those of the clean-up and of making directories included, which outcome follows and what the directory then holds |
| Promotion.Prune | scripts/generate_managed_deployment_artifacts.py:338-346 | in whatever order files are listed, exactly the files not on the allow list go, or some of them when one cannot be deleted |
| Promotion.WhatIsHeld | scripts/generate_managed_deployment_artifacts.py:830-844 | for every outcome, which artifacts are new, which are as they were and which are gone |
| Promotion.OthersUntouched | scripts/generate_managed_deployment_artifacts.py:338-346 | allow-listed files are never touched, and nothing else remains after success |
| Promotion.MixedIff | scripts/generate_managed_deployment_artifacts.py:809-845 | a run leaves some artifacts new and some not if and only if moving stops midway and an artifact already moved cannot be deleted |
| Promotion.PromoteStagedFile | scripts/env_generation_common.py:190-204 | on failure the staged file goes and the output is kept, or deleted when asked, up to the first file that cannot be deleted |
| Promotion.PromotePair | scripts/generate_managed_runtime_env.py:720-738 | for every pattern of failures, deletions included, what is left of the two outputs and of the staged files |
| Promotion.BothGone | scripts/generate_managed_runtime_env.py:731-737 | a failure after staging, with deletions working, leaves neither output and changes nothing else |
| Promotion.PairMixedIff | scripts/generate_managed_runtime_env.py:728-737 | the new environment stands beside a report that is not new if and only if the report could not be moved and a deletion failed before the environment was gone; never the other way round |
| Readiness.BlockersIff | scripts/generate_managed_deployment_artifacts.py:415-431 | a nested payload has no blockers if and only if no string reachable in it is blank or holds a placeholder |
| Readiness.BlockersNamed | scripts/generate_managed_deployment_artifacts.py:415-431 | the blockers are exactly the texts of the ways to the strings that are blank or hold a placeholder |
| Readiness.PlaceholderStripped | scripts/generate_managed_deployment_artifacts.py:434-439 | whether a text holds a placeholder does not depend on the white space around it |
| Readiness.ReadyIff | scripts/generate_managed_deployment_artifacts.py:654-771 | there are no value blockers if and only if every input was given a real value, every other string has one, and neither environment holds a blank value or a placeholder |
| Readiness.ReadyForTerraform | scripts/generate_managed_deployment_artifacts.py:654-771 | every remaining input, every input not given and every secret or plain value without a real value is named among the value blockers |
| Readiness.IdentifyRuntimeUnresolvedKeys | scripts/managed_deployment_contract.py:162-182 | the sorted result holds exactly the required keys, pending Paystack keys excepted, and the selected provider's key, that have no real value |
| Readiness.RuntimeBlockers | scripts/generate_managed_deployment_artifacts.py:234-302 | the sorted result holds exactly the unresolved keys of the runtime contract and the keys whose real value has the wrong form |
| Readiness.BlockersExtendContract | scripts/generate_managed_deployment_artifacts.py:234-302 | of the two reported lists, every unresolved key of the runtime contract is a deployment blocker, and the blockers added are exactly the keys with a real value of the wrong form |
| Readiness.KeysReported | scripts/generate_managed_deployment_artifacts.py:234-302 | key by key on the raw values: required keys without a real value, Paystack keys unless activation is pending, the selected provider's key, and values of the wrong form by their prefixes and lengths, are exactly what is reported |
| PkgFin.BuildTierUnitEconomics | scripts/generate_pkg_fin_policy_decisions.py:182-255 | indexing the three lists and looping over the tiers computes the specified rows or the same failure |
| PkgFinAccepts.EconomicsIff | scripts/generate_pkg_fin_policy_decisions.py:182-255 | the rows can be built if and only if the three lists can be indexed, pricing is an object and the numbers of all four tiers are there and in range |
| PkgFin.RowIsConsistent | scripts/generate_pkg_fin_policy_decisions.py:225-252 | after the nested rounding effective revenue is at most revenue and nothing is negative |
| PkgFin.EconomicsConsistent | scripts/generate_pkg_fin_policy_decisions.py:182-255 | the generated rows are those of the required tiers and all consistent |
| PkgFinReading.EconomicsRead | scripts/generate_pkg_fin_policy_decisions.py:182-255 | the generator writes one row for each of the four tiers, made of the numbers under the literal keys of the telemetry, the annual factor included |
| PkgFinAccepts.TelemetryIff | scripts/pkg_fin_policy_decisions_core.py:32-98 | telemetry is accepted if and only if months, source and every row are in order and every required tier is named |
| PkgFinAccepts.BacklogIff | scripts/pkg_fin_policy_decisions_core.py:241-376 | a backlog is accepted if and only if the ids listed and the ids of the items are the canonical ones, the latter without duplicates, and every item is in order; coverage and post-launch commitments are then always true |
| PkgFinAccepts.VerdictIff | scripts/pkg_fin_policy_decisions_core.py:379-461 | for every payload: the evidence is accepted if and only if it is fresh, its window ordered, at least two months observed, prices guarded, every part in order, launch blockers locked and all gates reported as passed |
| PkgFin.RequiredIds | scripts/pkg_fin_policy_decisions_constants.py:45-76 | the canonical ids are distinct, trimmed and in capitals |
| PkgFin.BacklogAccepted | scripts/generate_pkg_fin_policy_decisions.py:258-320 | the generated backlog passes: canonical ids without duplicates, blockers locked, legal target dates with criteria |
| PkgFinReading.ItemsWritten | scripts/generate_pkg_fin_policy_decisions.py:258-287 | one item for each canonical id: its owner by its prefix, which block the launch, and which three are scheduled thirty days after approval |
| PkgFin.GeneratedEvidenceAccepted | scripts/generate_pkg_fin_policy_decisions.py:290-361 | the validator accepts every generated payload, all seven gates matching, if and only if it is fresh and the window is a pair of times in order |

## Left out

- ClaProtocol.NoLostSignature: signings come from comments with a date that is not blank; a run that is refused does not try again, as in the source.
- ClaReview.CommentStaysInPlace: one run after another; two first runs at once can each create a comment.
- Routes.MissingIff: a reference that is misjudged against some declared template is outside it; `RoutePatterns.RightIff` says exactly which those are.
- PurgeRun.PurgedExactly: for `cost_records` only when no surviving row shares an id with a doomed one; `Purge.ByIdIsByRow` shows that this is exact.
- Purge.IntegrityKept: a reference from a row that is not doomed to a doomed one, which the database itself would refuse to delete, is excluded.
- PurgeRun.PurgeSimulationData: tenant ids are already parsed, table names are distinct, and the schema is as SQLAlchemy sorts it, without cycles other than a table referring to itself.
- Promotion.PromoteBundle: the staging directory, which a failing clean-up leaves behind, is not modelled.
- PkgFin.GeneratedEvidenceAccepted: fields of the wrong JSON type, which the validator also rejects, are not modelled.
- RuntimeEnv.RegenerationFixpoint: overrides that are the same in every run are one map parameter, and what the report file says is not modelled.
- Preflight.PreflightReadsBack: the checks for keys in both payloads and for misclassified keys are not modelled.
- Command lines of the finance programs, CSV and JSON writing, and the timestamps in their outputs.
- IEEE floating point.
- HTTP clients, subprocesses, argument parsing, path resolution and printing: input and output around the modelled logic.
- The remaining manifests of the deployment bundle, promotion references and the Technology Value Contract checks: field-by-field copies and single-branch checks.
- Frontend source scanning and route declaration parsing: regular expressions over source text.
- The FastAPI application, the dashboard, load tests and repository hygiene checks.
