# PixelBuilds daily download counter — accounting model

The PixelBuilds download counter runs once a day. It reads the device catalog. For each
device it asks two release hosts, GitHub and Gitea, for their release listings. It adds up
the `download_count` of every qualifying asset.

It then reconciles that count against two JSON ledgers:

- `available_downloads.json`, the snapshot of the latest absolute counts;
- `downloads.json`, the cumulative running total, which only grows.

Finally it finalises the run-wide `_total`, `_total_diff` and `_date` entries, builds a
report, and decides whether to rewrite the cumulative ledger and whether to send the report
to Telegram.

This project models that accounting engine, the body of `main()` in `main.py`. HTTP, file
and Telegram I/O are taken out:

- the hosts' answers, the loaded ledgers, the bot configuration and the date are inputs;
- the ledger files to write, the report and the notify decision are the outcome.

Modules, in dependency order:

- `Strings`: `startswith` and `endswith`.
- `Decimal`: `str()` of an integer, with its inverse.
- `Assets`: release listings, the asset filter, and the counting loops as the method
  `CountHost`.
- `Ledger`: the key layout of both ledgers, and the sum `Mass` of the per-device entries.
- `Engine`: the run.
  - `Step`, `Fold`, `Finish` and `RunSpec` define the run as functions.
  - The methods `CollectHost`, `ReconcileDevice`, `ProcessDevice`, `AppendSkipSection`,
    `Finalize` and `DailyRun` follow the source one statement at a time, over local maps,
    accumulators, a skip list and a message string.
  - Each method is proved to compute its function.
- `Properties`: what a run guarantees. This covers the skip and abort rules, the snapshot
  overwrite, cumulative monotonicity, the growth of `_total`, the write and notify decisions,
  the report layout, and the behaviour over any sequence of daily runs.
- `Scenarios`: two concrete runs worked through the model.

Four readings of the code are easy to get wrong, and the model follows the code in each:

- **The asset filter is an OR.** An asset is passed over only when its name has neither the
  `PixelBuilds_` prefix nor the `.zip` suffix. Either condition alone makes it count.
- **Report lines show the old value.** A device's report line shows its cumulative value
  from before this run's increment, followed by ` (+diff)`.
- **Skipped devices are still enrolled.** A codename seen for the first time is enrolled
  in the cumulative ledger at 0, even when the device is then skipped because neither host
  answered.
- **A GitHub 403 aborts only when Gitea answered 200.** The both-hosts-failed test comes
  first, so with Gitea also failing the device is merely skipped.

`negatives` starts at 0 in every run.

When `totalDiff <= 0`, `downloads.json` is not rewritten, yet the snapshot is. In that case
a device's positive difference is never added to its cumulative value. The next run compares
against the new snapshot, so the gain is lost for good.
`Scenarios.OffsetGainIsNeverRecorded` works through such a run.

## Model

| member | source | states |
|---|---|---|
| Assets.CountHost | main.py:95-103 | the nested loop over releases and assets returns the sum of `download_count` over exactly the qualifying assets (`HostTotal`) |
| Assets.QualifyingMembers | main.py:97-100 | an asset survives the filter iff it is in the listing and its name starts with `PixelBuilds_` or ends with `.zip` |
| Assets.AssetContribution | main.py:96-103 | wherever an asset sits in a listing, it adds its `download_count` to the total iff its name qualifies, and nothing otherwise |
| Assets.HostTotalSplits | main.py:95-103 | a host's total over a list of releases is the sum of the totals of any split of that list |
| Assets.NothingQualifiesAddsNothing | main.py:97-100 | a listing in which no asset name qualifies adds 0 |
| Assets.EitherConditionCounts | main.py:97-100 | a name with only the prefix counts, a name with only the `.zip` suffix counts, and a name with neither does not |
| Decimal.IntToDecimalRoundTrip | main.py:154 | the decimal text of an integer in the report reads back as the same integer |
| Decimal.IntToDecimalInjective | main.py:154 | different integers never render as the same report text |
| Ledger.DiffKey | main.py:60 | `codename + "_diff"` ends in `_diff` and differs from the codename, `_total` and `_date`; it equals `_total_diff` only for the codename `_total` |
| Ledger.MassUpdate | main.py:157-158 | setting a per-device key changes the per-device sum by the change at that key; setting any other key leaves it unchanged |
| Engine.CollectHost | main.py:88-132 | one host adds its qualifying total only when it answered 200. It adds one `(host) - no releases` entry for a 200 with no releases, one `(host) - no data` entry for any other status, and never both a count and an entry |
| Engine.ReconcileDevice | main.py:136-159 | the reconciliation of one device computes `Reconcile`: snapshot overwrite, totals, `negatives`, the report line, and growth by a positive difference |
| Engine.ProcessDevice | main.py:45-159 | one pass of the device loop computes `Step`: enrol, skip when both hosts fail, abort on a GitHub 403, otherwise count both hosts and reconcile |
| Engine.AppendSkipSection | main.py:167-174 | appends `Skipped devices:`, one line per entry in order, and a blank line, only when the list is non-empty |
| Engine.Finalize | main.py:162-198 | the finalisation computes `Finish`, including the `MissingTotal` outcome when `_total` is absent and the net difference is positive |
| Engine.DailyRun | main.py:28-198 | the whole imperative run computes `RunSpec`, stopping with `RateLimited` at the first GitHub 403 whose Gitea answered 200 |
| Engine.AbortPersists | main.py:84-86 | once a prefix of the catalog has aborted, the whole run aborts |
| Properties.BothFailedSkipsDevice | main.py:58-82 | when neither host answers 200, the device adds exactly one `- no data from both GitHub and Gitea` entry. It leaves the snapshot, the totals, `negatives` and the report unchanged, and changes the cumulative ledger only by enrolling a new codename at 0 |
| Properties.RateLimitAborts | main.py:72-86 | a device aborts the run iff GitHub answers 403 while Gitea answers 200; with both failing it is only skipped |
| Properties.OnlyAnsweringHostsCount | main.py:88-132 | a host that did not answer 200, or answered with no releases, adds 0; a 200 host adds its qualifying total |
| Properties.ReconcileSnapshot | main.py:136-149 | for a reconciled device, the snapshot takes the new count and its difference from the previous value (0 when absent), and every other snapshot key is kept |
| Properties.ReconcileTotals | main.py:145-152 | for a reconciled device, the totals grow by the count and by the previous value, and `negatives` by the absolute value of a negative difference |
| Properties.ReconcileCumulative | main.py:156-158 | for a reconciled device, the cumulative value grows by a positive difference with `_diff` set to it; otherwise both entries are kept. The value never ends below its enrolled value |
| Properties.NewDeviceStartsFromZero | main.py:58-158 | a codename new to the cumulative ledger ends up holding its positive difference, or 0 |
| Properties.ReportLineShowsOldValue | main.py:154-159 | a reconciled device appends `"\n<codename>: <cumulative value before the increment>"`, then ` (+diff)` only for a positive difference |
| Properties.StepTotals | main.py:145-159 | one device changes the totals, `negatives` and the report exactly as its tally says, and a skipped device changes none of them |
| Properties.FoldAbortsSnoc | main.py:84-86 | one more device makes the loop abort iff the loop before it aborted or that device is rate limited |
| Properties.FoldAbortsIff | main.py:84-86 | the device loop aborts iff some catalogued device is rate limited by GitHub while Gitea answers |
| Properties.RunTotals | main.py:145-152 | after the loop, `totalDownloads`, `totalPrevious` and `negatives` are the sums of the counts, of the previous values, and of the drops of the reconciled devices |
| Properties.StepSkips | main.py:72-132 | one device appends exactly its own skip entries: the both-failed entry, or the GitHub entry then the Gitea entry |
| Properties.RunSkips | main.py:72-132 | the skip list holds every device's skip entries, in catalog order |
| Properties.RunReport | main.py:154-159 | the loop appends the report lines of the reconciled devices, in catalog order |
| Properties.RunCumulativeMonotone | main.py:58-158 | over the loop, every cumulative entry other than a `_diff` entry is kept and never decreases, and every catalogued codename gets an entry, skipped or not |
| Properties.StepCumulative | main.py:58-158 | one device changes the cumulative ledger only by enrolling its codename and, for a positive difference, by growing it and setting its `_diff` entry |
| Properties.StepCumulativeGrows | main.py:58-158 | one device removes no cumulative entry, lowers none except its own `_diff` entry, and leaves its codename at or above its enrolled value |
| Properties.StepMass | main.py:156-158 | one device raises the per-device cumulative sum by its positive difference, or by nothing when it is skipped or its difference is not positive |
| Properties.StepKeepsTotal | main.py:58-158 | with a per-device codename, one device neither adds, removes nor changes `_total` of the cumulative ledger |
| Properties.GrowthMass | main.py:58-158 | enrolment adds 0 to the per-device sum and growth adds exactly the difference; `_total` is untouched |
| Properties.RunMass | main.py:45-159 | over the loop, the per-device cumulative sum grows by exactly the sum of the positive per-device differences |
| Properties.GainedIsNetPlusDropped | main.py:151-162 | the sum of the positive differences equals `totalDiff + negatives` |
| Properties.RateLimitedIff | main.py:84-86 | a run ends with nothing written iff some device is rate limited |
| Properties.FinalDecisions | main.py:162-198 | the snapshot always gets `_total = totalDownloads`, `_total_diff = totalDiff` and the date. `downloads.json` is rewritten iff `totalDiff > 0`, and then carries the date. A notification is due iff token, chat id and `totalDiff > 0` are all present |
| Properties.FinishRewritesCumulative | main.py:177-184 | a rewrite happens only with `totalDiff > 0` and `_total` present; `_total` grows by `totalDiff + negatives`, `_total_diff` records that growth, and nothing else changes |
| Properties.FinishGrowth | main.py:177-183 | the rewrite sets `_total` and `_total_diff` and leaves the per-device sum unchanged |
| Properties.FinishKeepsCumulative | main.py:177-183 | the rewrite lowers no entry other than a `_diff` entry |
| Properties.TotalGrowthMatchesDevices | main.py:162-183 | when `downloads.json` is rewritten, `_total_diff` is the sum of the positive per-device differences (> 0), and both `_total` and the per-device cumulative sum grow by exactly that amount |
| Properties.MissingTotalIff | main.py:177-182 | the run fails on a missing `_total` iff no device is rate limited, `totalDiff > 0` and the loaded cumulative ledger lacks `_total` |
| Properties.PersistedCumulativeNeverShrinks | main.py:58-188 | whatever the run's outcome, the cumulative ledger on disk afterwards keeps every non-`_diff` entry at or above its previous value |
| Properties.ReportLayout | main.py:43-186 | the report is the header, the device lines, a blank line, and the skip section, which is empty iff nothing was skipped. The `Total: <_total> (+<_total_diff>)` line follows exactly when `downloads.json` is rewritten |
| Properties.HistoryNeverShrinks | main.py:28-198 | across any sequence of daily runs, no non-`_diff` cumulative entry ever decreases |
| Properties.HistoryKeepsTotalInStep | main.py:162-183 | across any sequence of daily runs, `_total` minus the per-device cumulative sum stays constant |
| Scenarios.OneAssetListing | main.py:95-103 | a one-asset listing counts that asset iff its name qualifies |
| Scenarios.SingleDeviceRun | main.py:28-198 | a device at 10 with one 15-download `PixelBuilds_device1.zip` on GitHub and no releases on Gitea ends as follows. Snapshot: 15, `_diff` 15, `_total` 15. Cumulative: 25 and `_total` 25. Report: `device1: 10 (+15)`, a `device1 (Gitea) - no releases` skip entry, and `Total: 25 (+15)` |
| Scenarios.OffsetGainIsNeverRecorded | main.py:148-195 | devices at snapshot 10/10 move to 15 and 5. The net difference is 0, so the cumulative ledger stays as loaded while the snapshot records 15, 5, +5, -5, `_total` 20 and `_total_diff` 0 |

## Left out

- HTTP requests to the device catalog, GitHub and Gitea are out of scope. Each host's answer is an input: a status code and a release list. The response text appears only in log output.
- A host timeout or connection error raises out of `main()` and ends the run with nothing written and nothing sent. The model has no such input.
- Reading and writing the JSON files (`indent`, `sort_keys`, `default=str`) is out of scope. The ledgers are maps of their integer entries. `_date` is a separate string field of each written ledger.
- `datetime.now()` is out of scope. The date is an opaque string, used alike in the report header and in `_date`.
- `load_dotenv`, environment lookup and the GitHub bearer header are out of scope. The bot token and chat id are optional strings, read by Python's truthiness rule (set and non-empty).
- The Telegram send and `asyncio` are out of scope. Only the message and the notify decision are modelled.
- `print` logging is out of scope. The device's `manufacturer` is read only for logging and is carried but unused.
- `sys.exit(1)` is modelled as the `RateLimited` outcome, with nothing written.
- A `KeyError` on a missing `_total` is modelled as the `MissingTotal` outcome, with nothing written.
- A loaded ledger's `_date` entry is out of scope, and so are non-integer values. A codename equal to a reserved key or ending in `_diff` would clash with the ledger layout. The engine accepts any codename, but the lemmas about `_total` and the per-device sum (`RunMass`, `TotalGrowthMatchesDevices`, `MissingTotalIff`, `HistoryKeepsTotalInStep`) require codenames that are per-device keys.
- Python integers are unbounded, and so are the model's.
