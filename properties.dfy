/**
 * What a daily run guarantees about the two ledgers, the run-wide totals, the
 * skip list, the report and the write, notify and abort decisions, stated
 * about the run as `Engine` defines it (and so about `Engine.DailyRun`, which
 * is proved to compute it).
 */
module Properties {

  import opened Strings
  import opened Decimal
  import opened Assets
  import opened Ledger
  import opened Engine

  /** What the run records for a device it reconciles (one that was not skipped outright). */
  datatype Tally = Tally(codename: string, downloads: nat, previous: int, before: int)

  /** `deviceDownloads - previous` of a reconciled device. */
  function Diff(t: Tally): int {
    t.downloads - t.previous
  }

  /** The tally of one device: none when it is skipped outright. */
  function StepTally(s: State, f: DeviceFetch): seq<Tally> {
    var c := f.device.codename;
    if BothFailed(f) then []
    else [Tally(c, DeviceDownloads(f), Previous(s.availDownloads, c), Enrol(s.realDownloads, c)[c])]
  }

  /** The reconciled devices of a run that did not abort, in catalog order. */
  function Tallies(s0: State, fetches: seq<DeviceFetch>): seq<Tally>
    decreases |fetches|
  {
    if fetches == [] then []
    else
      match Fold(s0, fetches[..|fetches| - 1])
      case Abort => []
      case Next(s) => Tallies(s0, fetches[..|fetches| - 1]) + StepTally(s, fetches[|fetches| - 1])
  }

  function SumDownloads(ts: seq<Tally>): int {
    if ts == [] then 0 else SumDownloads(ts[..|ts| - 1]) + ts[|ts| - 1].downloads
  }

  function SumPrevious(ts: seq<Tally>): int {
    if ts == [] then 0 else SumPrevious(ts[..|ts| - 1]) + ts[|ts| - 1].previous
  }

  /** The sum of `|diff|` over the devices whose count fell. */
  function Dropped(ts: seq<Tally>): nat {
    if ts == [] then 0
    else Dropped(ts[..|ts| - 1]) + (if Diff(ts[|ts| - 1]) < 0 then -Diff(ts[|ts| - 1]) else 0)
  }

  /** The sum of the positive per-device differences. */
  function Gained(ts: seq<Tally>): nat {
    if ts == [] then 0
    else Gained(ts[..|ts| - 1]) + (if Diff(ts[|ts| - 1]) > 0 then Diff(ts[|ts| - 1]) else 0)
  }

  /** The report lines of the reconciled devices, in order. */
  function ReportLines(ts: seq<Tally>): string {
    if ts == [] then "" else ReportLines(ts[..|ts| - 1]) + DeviceLine(ts[|ts| - 1].codename, ts[|ts| - 1].before, Diff(ts[|ts| - 1]))
  }

  /** The skip entries one device adds. */
  function DeviceSkips(f: DeviceFetch): seq<string> {
    var c := f.device.codename;
    if BothFailed(f) then [BothFailedEntry(c)]
    else HostSkips(c, "GitHub", f.github) + HostSkips(c, "Gitea", f.gitea)
  }

  function AllSkips(fetches: seq<DeviceFetch>): seq<string> {
    if fetches == [] then [] else AllSkips(fetches[..|fetches| - 1]) + DeviceSkips(fetches[|fetches| - 1])
  }

  /** Every codename is a per-device key: not reserved and not ending in `_diff`. */
  predicate CodenamesAreDeviceKeys(fetches: seq<DeviceFetch>) {
    forall i :: 0 <= i < |fetches| ==> IsDeviceKey(fetches[i].device.codename)
  }

  predicate RateLimitedAt(f: DeviceFetch) {
    f.github.status == StatusForbidden && f.gitea.status == StatusOk
  }

  // ---------------------------------------------------------------------------
  // One device
  // ---------------------------------------------------------------------------

  /**
   * main.py:72-82: when neither host answers 200, the device is skipped with
   * exactly one entry naming both hosts; the snapshot, the totals, `negatives`
   * and the report are untouched, and the cumulative ledger changes only by
   * enrolling a new codename with zeroes.
   */
  lemma BothFailedSkipsDevice(s: State, f: DeviceFetch)
    requires BothFailed(f)
    ensures Step(s, f).Next?
    ensures var t, c := Step(s, f).state, f.device.codename;
      && t.availDownloads == s.availDownloads
      && t.totalDownloads == s.totalDownloads && t.totalPrevious == s.totalPrevious
      && t.negatives == s.negatives && t.message == s.message
      && t.skipped == s.skipped + [c + " - no data from both GitHub and Gitea"]
      && (c in s.realDownloads ==> t.realDownloads == s.realDownloads)
      && (c !in s.realDownloads ==> t.realDownloads == s.realDownloads[c := 0][c + DiffSuffix := 0])
  {
  }

  /**
   * main.py:72-86: a device aborts the run exactly when GitHub answers 403
   * and Gitea answers 200; a 403 with Gitea also failing is only a skip.
   */
  lemma RateLimitAborts(s: State, f: DeviceFetch)
    ensures Step(s, f) == Abort <==> RateLimitedAt(f)
  {
  }

  /** Only a host that answered 200 with at least one release adds to the device's count. */
  lemma OnlyAnsweringHostsCount(r: Response)
    ensures r.status != StatusOk || r.releases == [] ==> HostDownloads(r) == 0
    ensures r.status == StatusOk ==> HostDownloads(r) == HostTotal(r.releases)
  {
  }

  /**
   * main.py:136-149 for a reconciled device: the snapshot entries become the
   * latest count and its difference from the previous snapshot (0 if none),
   * and every other snapshot entry is kept.
   */
  lemma ReconcileSnapshot(s: State, f: DeviceFetch)
    requires !BothFailed(f) && f.github.status != StatusForbidden
    ensures Step(s, f).Next?
    ensures var t, c := Step(s, f).state, f.device.codename;
      var previous := if c in s.availDownloads then s.availDownloads[c] else 0;
      && t.availDownloads[c] == DeviceDownloads(f)
      && t.availDownloads[c + DiffSuffix] == DeviceDownloads(f) - previous
      && (forall k :: k != c && k != c + DiffSuffix ==>
            (k in t.availDownloads <==> k in s.availDownloads)
            && (k in s.availDownloads ==> t.availDownloads[k] == s.availDownloads[k]))
  {
    assert Step(s, f).Next?;
    StepReconciles(s, f);
  }

  /**
   * main.py:145-152 for a reconciled device: the totals grow by the count and
   * the previous value, and `negatives` by the size of a drop.
   */
  lemma ReconcileTotals(s: State, f: DeviceFetch)
    requires !BothFailed(f) && f.github.status != StatusForbidden
    ensures Step(s, f).Next?
    ensures var t, c := Step(s, f).state, f.device.codename;
      var previous := if c in s.availDownloads then s.availDownloads[c] else 0;
      var diff := DeviceDownloads(f) - previous;
      && t.totalDownloads == s.totalDownloads + DeviceDownloads(f)
      && t.totalPrevious == s.totalPrevious + previous
      && t.negatives == s.negatives + (if diff < 0 then -diff else 0)
  {
    assert Step(s, f).Next?;
    StepReconciles(s, f);
  }

  /**
   * main.py:156-158 for a reconciled device: the cumulative entry grows by the
   * difference only when it is positive, with `_diff` set to it; otherwise
   * both its entries stay as they were.
   */
  lemma ReconcileCumulative(s: State, f: DeviceFetch)
    requires !BothFailed(f) && f.github.status != StatusForbidden
    ensures Step(s, f).Next?
    ensures var t, c := Step(s, f).state, f.device.codename;
      var diff := DeviceDownloads(f) - Previous(s.availDownloads, c);
      var enrolled := Enrol(s.realDownloads, c);
      && (diff > 0 ==> t.realDownloads == enrolled[c := enrolled[c] + diff][c + DiffSuffix := diff])
      && (diff <= 0 ==> t.realDownloads == enrolled)
      && t.realDownloads[c] >= enrolled[c]
  {
    assert Step(s, f).Next?;
    StepReconciles(s, f);
  }

  /**
   * main.py:58-60 with 156-158: a device never seen before enters the
   * cumulative ledger at 0, and its first positive difference becomes its
   * whole recorded value.
   */
  lemma NewDeviceStartsFromZero(s: State, f: DeviceFetch)
    requires f.device.codename !in s.realDownloads
    requires Step(s, f).Next?
    ensures var t, c := Step(s, f).state, f.device.codename;
      var diff := DeviceDownloads(f) - Previous(s.availDownloads, c);
      && c in t.realDownloads
      && t.realDownloads[c] == (if !BothFailed(f) && diff > 0 then diff else 0)
  {
  }

  /**
   * The line a reconciled device adds to the report shows its cumulative
   * value from before this run's increment, and `(+diff)` only for a
   * positive difference.
   */
  lemma ReportLineShowsOldValue(s: State, f: DeviceFetch)
    requires !BothFailed(f) && f.github.status != StatusForbidden
    ensures var c := f.device.codename;
      var enrolled := Enrol(s.realDownloads, c);
      var diff := DeviceDownloads(f) - Previous(s.availDownloads, c);
      && Step(s, f).Next?
      && Step(s, f).state.message
         == s.message + "\n" + c + ": " + IntToDecimal(enrolled[c])
            + (if diff > 0 then " (+" + IntToDecimal(diff) + ")" else "")
  {
    var c := f.device.codename;
    var enrolled := Enrol(s.realDownloads, c);
    var diff := DeviceDownloads(f) - Previous(s.availDownloads, c);
    var line := "\n" + c + ": " + IntToDecimal(enrolled[c]);
    var note := if diff > 0 then " (+" + IntToDecimal(diff) + ")" else "";
    ConcatAssoc(s.message, line, note);
    ConcatAssoc(s.message, "\n" + c, ": ");
    ConcatAssoc(s.message, "\n", c);
    ConcatAssoc(s.message, "\n" + c + ": ", IntToDecimal(enrolled[c]));
  }

  // ---------------------------------------------------------------------------
  // A whole device loop
  // ---------------------------------------------------------------------------

  lemma FoldPrefix(s0: State, fetches: seq<DeviceFetch>, s: State)
    requires fetches != [] && Fold(s0, fetches) == Next(s)
    ensures Fold(s0, fetches[..|fetches| - 1]).Next?
    ensures Step(Fold(s0, fetches[..|fetches| - 1]).state, fetches[|fetches| - 1]) == Next(s)
  {
  }

  lemma TalliesPrefix(s0: State, fetches: seq<DeviceFetch>)
    requires fetches != [] && Fold(s0, fetches[..|fetches| - 1]).Next?
    ensures Tallies(s0, fetches)
         == Tallies(s0, fetches[..|fetches| - 1]) + StepTally(Fold(s0, fetches[..|fetches| - 1]).state, fetches[|fetches| - 1])
  {
  }

  // Appending the (at most one) tally of a step to a run's tallies moves each
  // sum by that tally alone.

  lemma SumDownloadsSnoc(ts: seq<Tally>, extra: seq<Tally>)
    requires |extra| <= 1
    ensures SumDownloads(ts + extra) == SumDownloads(ts) + (if extra == [] then 0 else extra[0].downloads)
  {
    if extra == [] {
      assert ts + extra == ts;
    } else {
      assert (ts + extra)[..|ts|] == ts;
    }
  }

  lemma SumPreviousSnoc(ts: seq<Tally>, extra: seq<Tally>)
    requires |extra| <= 1
    ensures SumPrevious(ts + extra) == SumPrevious(ts) + (if extra == [] then 0 else extra[0].previous)
  {
    if extra == [] {
      assert ts + extra == ts;
    } else {
      assert (ts + extra)[..|ts|] == ts;
    }
  }

  lemma DroppedSnoc(ts: seq<Tally>, extra: seq<Tally>)
    requires |extra| <= 1
    ensures Dropped(ts + extra) == Dropped(ts) + (if extra == [] || Diff(extra[0]) >= 0 then 0 else -Diff(extra[0]))
  {
    if extra == [] {
      assert ts + extra == ts;
    } else {
      assert (ts + extra)[..|ts|] == ts;
    }
  }

  lemma GainedSnoc(ts: seq<Tally>, extra: seq<Tally>)
    requires |extra| <= 1
    ensures Gained(ts + extra) == Gained(ts) + (if extra == [] || Diff(extra[0]) <= 0 then 0 else Diff(extra[0]))
  {
    if extra == [] {
      assert ts + extra == ts;
    } else {
      assert (ts + extra)[..|ts|] == ts;
    }
  }

  lemma ReportLinesSnoc(ts: seq<Tally>, extra: seq<Tally>)
    requires |extra| <= 1
    ensures ReportLines(ts + extra) == ReportLines(ts) + ReportLines(extra)
  {
    if extra == [] {
      assert ts + extra == ts;
      assert ReportLines(ts) + "" == ReportLines(ts);
    } else {
      assert (ts + extra)[..|ts|] == ts;
      assert extra[..0] == [];
      assert ReportLines(extra) == "" + DeviceLine(extra[0].codename, extra[0].before, Diff(extra[0]));
    }
  }

  /** A device that is not skipped outright and does not abort is reconciled after enrolment. */
  lemma StepReconciles(s: State, f: DeviceFetch)
    requires !BothFailed(f) && Step(s, f).Next?
    ensures var c := f.device.codename;
      var skipped := s.skipped + HostSkips(c, "GitHub", f.github) + HostSkips(c, "Gitea", f.gitea);
      Step(s, f).state == Reconcile(s.(realDownloads := Enrol(s.realDownloads, c), skipped := skipped), c, DeviceDownloads(f))
  {
  }

  /** The sums over the tally of a single reconciled device. */
  lemma SingleTally(x: Tally)
    ensures SumDownloads([x]) == x.downloads && SumPrevious([x]) == x.previous
    ensures Dropped([x]) == (if Diff(x) < 0 then -Diff(x) else 0)
    ensures ReportLines([x]) == DeviceLine(x.codename, x.before, Diff(x))
  {
    assert [x][..0] == [];
    assert ReportLines([x]) == "" + DeviceLine(x.codename, x.before, Diff(x));
  }

  /** One step's effect on the accumulators, in terms of its tally. */
  lemma StepTotals(s: State, f: DeviceFetch)
    requires Step(s, f).Next?
    ensures var t, ts := Step(s, f).state, StepTally(s, f);
      && t.totalDownloads == s.totalDownloads + SumDownloads(ts)
      && t.totalPrevious == s.totalPrevious + SumPrevious(ts)
      && t.negatives == s.negatives + Dropped(ts)
      && t.message == s.message + ReportLines(ts)
  {
    var ts := StepTally(s, f);
    if BothFailed(f) {
      assert ts == [];
      assert s.message + "" == s.message;
    } else {
      StepReconciles(s, f);
      SingleTally(ts[0]);
      assert ts == [ts[0]];
    }
  }

  /** The device loop aborts exactly when some device is rate limited by GitHub while Gitea answers. */
  lemma {:induction false} FoldAbortsIff(s0: State, fetches: seq<DeviceFetch>)
    ensures Fold(s0, fetches) == Abort <==> exists i :: 0 <= i < |fetches| && RateLimitedAt(fetches[i])
    decreases |fetches|
  {
    if fetches != [] {
      var init, last := fetches[..|fetches| - 1], fetches[|fetches| - 1];
      FoldAbortsIff(s0, init);
      FoldAbortsSnoc(s0, fetches);
      RateLimitedSnoc(fetches, init);
    }
  }

  /** Some device of a catalog is rate limited iff one of all but the last is, or the last is. */
  lemma RateLimitedSnoc(fetches: seq<DeviceFetch>, init: seq<DeviceFetch>)
    requires fetches != [] && init == fetches[..|fetches| - 1]
    ensures (exists i :: 0 <= i < |fetches| && RateLimitedAt(fetches[i]))
        <==> (exists i :: 0 <= i < |init| && RateLimitedAt(init[i])) || RateLimitedAt(fetches[|fetches| - 1])
  {
    if exists i :: 0 <= i < |init| && RateLimitedAt(init[i]) {
      var i :| 0 <= i < |init| && RateLimitedAt(init[i]);
      assert fetches[i] == init[i];
    }
    if exists i :: 0 <= i < |fetches| && RateLimitedAt(fetches[i]) {
      var i :| 0 <= i < |fetches| && RateLimitedAt(fetches[i]);
      if i < |init| {
        assert init[i] == fetches[i];
      }
    }
  }

  /** Extending the catalog by one device aborts iff the shorter loop aborted or that device is rate limited. */
  lemma FoldAbortsSnoc(s0: State, fetches: seq<DeviceFetch>)
    requires fetches != []
    ensures Fold(s0, fetches) == Abort
        <==> Fold(s0, fetches[..|fetches| - 1]) == Abort || RateLimitedAt(fetches[|fetches| - 1])
  {
    var init := fetches[..|fetches| - 1];
    if Fold(s0, init).Next? {
      RateLimitAborts(Fold(s0, init).state, fetches[|fetches| - 1]);
    }
  }

  /**
   * main.py:145-152 over the loop: the run-wide totals are the sums of the
   * reconciled devices' counts and previous snapshot values, and `negatives`
   * is the sum of `|diff|` over the devices whose count fell.
   */
  lemma {:induction false} RunTotals(s0: State, fetches: seq<DeviceFetch>, s: State)
    requires Fold(s0, fetches) == Next(s)
    ensures var ts := Tallies(s0, fetches);
      && s.totalDownloads == s0.totalDownloads + SumDownloads(ts)
      && s.totalPrevious == s0.totalPrevious + SumPrevious(ts)
      && s.negatives == s0.negatives + Dropped(ts)
    decreases |fetches|
  {
    if fetches != [] {
      var init := fetches[..|fetches| - 1];
      FoldPrefix(s0, fetches, s);
      var p := Fold(s0, init).state;
      RunTotals(s0, init, p);
      StepTotals(p, fetches[|fetches| - 1]);
      TalliesPrefix(s0, fetches);
      var ts, extra := Tallies(s0, init), StepTally(p, fetches[|fetches| - 1]);
      SumDownloadsSnoc(ts, extra);
      SumPreviousSnoc(ts, extra);
      DroppedSnoc(ts, extra);
    }
  }

  /** The skip list holds every device's entries, in catalog order. */
  lemma {:induction false} RunSkips(s0: State, fetches: seq<DeviceFetch>, s: State)
    requires Fold(s0, fetches) == Next(s)
    ensures s.skipped == s0.skipped + AllSkips(fetches)
    decreases |fetches|
  {
    if fetches != [] {
      var init := fetches[..|fetches| - 1];
      FoldPrefix(s0, fetches, s);
      RunSkips(s0, init, Fold(s0, init).state);
      var p := Fold(s0, init).state;
      StepSkips(p, fetches[|fetches| - 1]);
      assert s.skipped == s0.skipped + AllSkips(init) + DeviceSkips(fetches[|fetches| - 1]);
    }
  }

  /** One device appends exactly its own skip entries. */
  lemma StepSkips(s: State, f: DeviceFetch)
    requires Step(s, f).Next?
    ensures Step(s, f).state.skipped == s.skipped + DeviceSkips(f)
  {
    if !BothFailed(f) {
      var c := f.device.codename;
      StepReconciles(s, f);
      assert s.skipped + HostSkips(c, "GitHub", f.github) + HostSkips(c, "Gitea", f.gitea)
          == s.skipped + (HostSkips(c, "GitHub", f.github) + HostSkips(c, "Gitea", f.gitea));
    }
  }

  /** The report grows by the device lines of the reconciled devices, in order. */
  lemma {:induction false} RunReport(s0: State, fetches: seq<DeviceFetch>, s: State)
    requires Fold(s0, fetches) == Next(s)
    ensures s.message == s0.message + ReportLines(Tallies(s0, fetches))
    decreases |fetches|
  {
    if fetches != [] {
      var init := fetches[..|fetches| - 1];
      FoldPrefix(s0, fetches, s);
      var p := Fold(s0, init).state;
      RunReport(s0, init, p);
      var f := fetches[|fetches| - 1];
      StepTotals(p, f);
      TalliesPrefix(s0, fetches);
      ReportLinesSnoc(Tallies(s0, init), StepTally(p, f));
      ConcatAssoc(s0.message, ReportLines(Tallies(s0, init)), ReportLines(StepTally(p, f)));
    }
  }

  /**
   * The cumulative ledger only grows: every entry other than a `_diff` entry
   * keeps its key and never decreases, and every catalogued codename ends up
   * with an entry, skipped or not.
   */
  lemma {:induction false} RunCumulativeMonotone(s0: State, fetches: seq<DeviceFetch>, s: State)
    requires Fold(s0, fetches) == Next(s)
    ensures forall k :: k in s0.realDownloads && !EndsWith(k, DiffSuffix) ==>
      k in s.realDownloads && s.realDownloads[k] >= s0.realDownloads[k]
    ensures forall i :: 0 <= i < |fetches| ==> fetches[i].device.codename in s.realDownloads
    decreases |fetches|
  {
    if fetches != [] {
      var init := fetches[..|fetches| - 1];
      FoldPrefix(s0, fetches, s);
      var p := Fold(s0, init).state;
      RunCumulativeMonotone(s0, init, p);
      var f := fetches[|fetches| - 1];
      var c := f.device.codename;
      assert Step(p, f) == Next(s);
      StepCumulativeGrows(p, f);
      forall k | k in s0.realDownloads && !EndsWith(k, DiffSuffix)
        ensures k in s.realDownloads && s.realDownloads[k] >= s0.realDownloads[k]
      {
        assert k in p.realDownloads && p.realDownloads[k] >= s0.realDownloads[k];
        assert k != DiffKey(c);
      }
      forall i | 0 <= i < |init|
        ensures fetches[i].device.codename in s.realDownloads
      {
        assert fetches[i] == init[i];
        assert fetches[i].device.codename in p.realDownloads;
      }
    }
  }

  /**
   * One device changes the cumulative ledger only at its codename and its
   * `_diff` entry: it enrols the codename, and its value grows by the
   * positive difference of a reconciled device; every other entry is kept.
   */
  lemma StepCumulative(s: State, f: DeviceFetch)
    requires Step(s, f).Next?
    ensures var t, c := Step(s, f).state, f.device.codename;
      var e := Enrol(s.realDownloads, c);
      var diff := DeviceDownloads(f) - Previous(s.availDownloads, c);
      t.realDownloads == (if !BothFailed(f) && diff > 0 then e[c := e[c] + diff][DiffKey(c) := diff] else e)
  {
    if !BothFailed(f) {
      StepReconciles(s, f);
    }
  }

  /**
   * Hence one device removes no cumulative entry, lowers none except its own
   * `_diff` entry, and enrols its codename.
   */
  lemma StepCumulativeGrows(s: State, f: DeviceFetch)
    requires Step(s, f).Next?
    ensures var t, c := Step(s, f).state, f.device.codename;
      && c in t.realDownloads && t.realDownloads[c] >= Enrol(s.realDownloads, c)[c]
      && s.realDownloads.Keys <= t.realDownloads.Keys
      && (forall k :: k in s.realDownloads && k != DiffKey(c) ==> t.realDownloads[k] >= s.realDownloads[k])
  {
    StepCumulative(s, f);
  }

  /**
   * With codenames that are per-device keys, one device changes the sum of
   * the per-device cumulative values by exactly its positive difference (by
   * nothing when it is skipped).
   */
  lemma StepMass(s: State, f: DeviceFetch)
    requires IsDeviceKey(f.device.codename)
    requires Step(s, f).Next?
    ensures var diff := DeviceDownloads(f) - Previous(s.availDownloads, f.device.codename);
      Mass(Step(s, f).state.realDownloads) == Mass(s.realDownloads) + (if !BothFailed(f) && diff > 0 then diff else 0)
  {
    var c := f.device.codename;
    var diff := DeviceDownloads(f) - Previous(s.availDownloads, c);
    StepCumulative(s, f);
    GrowthMass(s.realDownloads, c, diff, !BothFailed(f) && diff > 0, Step(s, f).state.realDownloads);
  }

  /** With a per-device codename, one device leaves `_total` of the cumulative ledger alone. */
  lemma StepKeepsTotal(s: State, f: DeviceFetch)
    requires IsDeviceKey(f.device.codename)
    requires Step(s, f).Next?
    ensures var t := Step(s, f).state;
      && (TotalKey in t.realDownloads <==> TotalKey in s.realDownloads)
      && (TotalKey in s.realDownloads ==> t.realDownloads[TotalKey] == s.realDownloads[TotalKey])
  {
    var c := f.device.codename;
    StepCumulative(s, f);
    assert TotalKey != c && TotalKey != DiffKey(c);
  }

  /**
   * Enrolling a per-device codename adds nothing to the sum of the
   * per-device values, and growing it by a positive difference adds exactly
   * that difference; `_total` is not touched.
   */
  lemma GrowthMass(m: map<string, int>, c: string, diff: int, grows: bool, after: map<string, int>)
    requires IsDeviceKey(c)
    requires grows ==> diff > 0
    requires var e := Enrol(m, c); after == if grows then e[c := e[c] + diff][DiffKey(c) := diff] else e
    ensures Mass(after) == Mass(m) + (if grows then diff else 0)
    ensures TotalKey in after <==> TotalKey in m
    ensures TotalKey in m ==> after[TotalKey] == m[TotalKey]
  {
    DiffKeyIsNotDeviceKey(c);
    var e := Enrol(m, c);
    if c !in m {
      MassUpdate(m, c, 0);
      MassUpdate(m[c := 0], DiffKey(c), 0);
    }
    assert Mass(e) == Mass(m);
    if grows {
      MassUpdate(e, c, e[c] + diff);
      MassUpdate(e[c := e[c] + diff], DiffKey(c), diff);
    }
  }

  /**
   * Over the loop, the per-device cumulative values grow in sum by exactly the
   * sum of the positive per-device differences, and `_total` is not touched.
   */
  lemma {:induction false} RunMass(s0: State, fetches: seq<DeviceFetch>, s: State)
    requires CodenamesAreDeviceKeys(fetches)
    requires Fold(s0, fetches) == Next(s)
    ensures Mass(s.realDownloads) == Mass(s0.realDownloads) + Gained(Tallies(s0, fetches))
    ensures TotalKey in s.realDownloads <==> TotalKey in s0.realDownloads
    ensures TotalKey in s0.realDownloads ==> s.realDownloads[TotalKey] == s0.realDownloads[TotalKey]
    decreases |fetches|
  {
    if fetches != [] {
      var init := fetches[..|fetches| - 1];
      FoldPrefix(s0, fetches, s);
      var p := Fold(s0, init).state;
      RunMass(s0, init, p);
      var f := fetches[|fetches| - 1];
      assert IsDeviceKey(f.device.codename);
      StepMass(p, f);
      StepKeepsTotal(p, f);
      TalliesPrefix(s0, fetches);
      GainedSnoc(Tallies(s0, init), StepTally(p, f));
    }
  }

  /** The sum of the positive differences is the net difference plus the drops. */
  lemma {:induction false} GainedIsNetPlusDropped(ts: seq<Tally>)
    ensures Gained(ts) == SumDownloads(ts) - SumPrevious(ts) + Dropped(ts)
    decreases |ts|
  {
    if ts != [] {
      GainedIsNetPlusDropped(ts[..|ts| - 1]);
    }
  }

  // ---------------------------------------------------------------------------
  // A whole run
  // ---------------------------------------------------------------------------

  /** main.py:84-86: the run aborts, writing nothing, exactly when some device is rate limited. */
  lemma RateLimitedIff(config: Config, date: string, avail: map<string, int>, cumul: map<string, int>,
                       fetches: seq<DeviceFetch>)
    ensures RunSpec(config, date, avail, cumul, fetches) == RateLimited
        <==> exists i :: 0 <= i < |fetches| && RateLimitedAt(fetches[i])
  {
    FoldAbortsIff(Start(avail, cumul, date), fetches);
  }

  /**
   * main.py:162 and 177-198: the snapshot always records the run's total and
   * net difference; `downloads.json` is rewritten exactly when that
   * difference is positive; a notification is due exactly when the bot token,
   * the chat id and a positive difference are all present; both files carry
   * the run's date.
   */
  lemma FinalDecisions(config: Config, date: string, avail: map<string, int>, cumul: map<string, int>,
                       fetches: seq<DeviceFetch>)
    requires RunSpec(config, date, avail, cumul, fetches).Completed?
    ensures var out, ts := RunSpec(config, date, avail, cumul, fetches), Tallies(Start(avail, cumul, date), fetches);
      var totalDiff := SumDownloads(ts) - SumPrevious(ts);
      && out.snapshot.counts[TotalKey] == SumDownloads(ts)
      && out.snapshot.counts[TotalDiffKey] == totalDiff
      && out.snapshot.date == date
      && (out.cumulative.Some? <==> totalDiff > 0)
      && (out.cumulative.Some? ==> out.cumulative.value.date == date)
      && (out.notify <==> Truthy(config.botToken) && Truthy(config.chatId) && totalDiff > 0)
  {
    var s0 := Start(avail, cumul, date);
    var s := Fold(s0, fetches).state;
    RunTotals(s0, fetches, s);
  }

  /**
   * main.py:177-183: whenever `downloads.json` is rewritten, `_total` grows
   * by `totalDiff + negatives`, which is the sum of the positive per-device
   * differences and exactly the growth of the sum of the per-device
   * cumulative values; `_total_diff` records that growth.
   */
  lemma TotalGrowthMatchesDevices(config: Config, date: string, avail: map<string, int>, cumul: map<string, int>,
                                  fetches: seq<DeviceFetch>)
    requires CodenamesAreDeviceKeys(fetches)
    requires RunSpec(config, date, avail, cumul, fetches).Completed?
    requires RunSpec(config, date, avail, cumul, fetches).cumulative.Some?
    ensures var file, ts := RunSpec(config, date, avail, cumul, fetches).cumulative.value, Tallies(Start(avail, cumul, date), fetches);
      && TotalKey in cumul
      && file.counts[TotalDiffKey] == Gained(ts) > 0
      && file.counts[TotalKey] == cumul[TotalKey] + file.counts[TotalDiffKey]
      && Mass(file.counts) == Mass(cumul) + file.counts[TotalDiffKey]
  {
    var s0 := Start(avail, cumul, date);
    var s := Fold(s0, fetches).state;
    assert RunSpec(config, date, avail, cumul, fetches) == Finish(config, date, s);
    var ts := Tallies(s0, fetches);
    RunTotals(s0, fetches, s);
    RunMass(s0, fetches, s);
    GainedIsNetPlusDropped(ts);
    FinishGrowth(config, date, s);
  }

  /** The growth of `_total`, `_total_diff` and the per-device sum in a rewritten `downloads.json`. */
  lemma FinishGrowth(config: Config, date: string, s: State)
    requires s.negatives >= 0
    requires Finish(config, date, s).Completed? && Finish(config, date, s).cumulative.Some?
    ensures var file, growth := Finish(config, date, s).cumulative.value, s.totalDownloads - s.totalPrevious + s.negatives;
      && TotalKey in s.realDownloads
      && file.counts[TotalDiffKey] == growth
      && file.counts[TotalKey] == s.realDownloads[TotalKey] + growth
      && Mass(file.counts) == Mass(s.realDownloads)
  {
    FinishRewritesCumulative(config, date, s);
    ReservedKeysAreNotDeviceKeys();
    var growth := s.totalDownloads - s.totalPrevious + s.negatives;
    var m := s.realDownloads[TotalKey := s.realDownloads[TotalKey] + growth];
    MassUpdate(s.realDownloads, TotalKey, s.realDownloads[TotalKey] + growth);
    MassUpdate(m, TotalDiffKey, growth);
  }

  /**
   * main.py:177-183: when `downloads.json` is rewritten, the net difference
   * is positive, `_total` existed and grows by the net difference plus
   * `negatives`, `_total_diff` records that growth, and every other entry is
   * the one the device loop left.
   */
  lemma FinishRewritesCumulative(config: Config, date: string, s: State)
    requires s.negatives >= 0
    requires Finish(config, date, s).Completed? && Finish(config, date, s).cumulative.Some?
    ensures var file, growth := Finish(config, date, s).cumulative.value, s.totalDownloads - s.totalPrevious + s.negatives;
      && s.totalDownloads - s.totalPrevious > 0
      && TotalKey in s.realDownloads
      && file.counts == s.realDownloads[TotalKey := s.realDownloads[TotalKey] + growth][TotalDiffKey := growth]
      && file.date == date
  {
  }

  /**
   * main.py:177-182: the run fails on the missing `_total` entry exactly when
   * no device is rate limited, the net difference is positive and the loaded
   * cumulative ledger has no `_total`.
   */
  lemma MissingTotalIff(config: Config, date: string, avail: map<string, int>, cumul: map<string, int>,
                        fetches: seq<DeviceFetch>)
    requires CodenamesAreDeviceKeys(fetches)
    ensures var ts := Tallies(Start(avail, cumul, date), fetches);
      RunSpec(config, date, avail, cumul, fetches) == MissingTotal
      <==> && !(exists i :: 0 <= i < |fetches| && RateLimitedAt(fetches[i]))
           && SumDownloads(ts) - SumPrevious(ts) > 0
           && TotalKey !in cumul
  {
    var s0 := Start(avail, cumul, date);
    FoldAbortsIff(s0, fetches);
    if Fold(s0, fetches).Next? {
      var s := Fold(s0, fetches).state;
      RunTotals(s0, fetches, s);
      RunMass(s0, fetches, s);
    }
  }

  /**
   * main.py:58-60 and 177-188: whatever happens in a run (an abort, a missing
   * `_total`, a non-positive net difference or a rewrite), the cumulative
   * ledger as it stands on disk afterwards keeps every entry other than the
   * `_diff` entries at or above its previous value, `_total` included.
   */
  lemma PersistedCumulativeNeverShrinks(config: Config, date: string, avail: map<string, int>, cumul: map<string, int>,
                                        fetches: seq<DeviceFetch>)
    ensures var after := PersistedCumulative(cumul, RunSpec(config, date, avail, cumul, fetches));
      forall k :: k in cumul && !EndsWith(k, DiffSuffix) ==> k in after && after[k] >= cumul[k]
  {
    var s0 := Start(avail, cumul, date);
    var out := RunSpec(config, date, avail, cumul, fetches);
    if out.Completed? && out.cumulative.Some? {
      var s := Fold(s0, fetches).state;
      assert out == Finish(config, date, s);
      RunTotals(s0, fetches, s);
      RunCumulativeMonotone(s0, fetches, s);
      FinishKeepsCumulative(config, date, s);
    }
  }

  /** The rewrite of main.py:177-183 lowers no entry other than a `_diff` entry. */
  lemma FinishKeepsCumulative(config: Config, date: string, s: State)
    requires s.negatives >= 0
    requires Finish(config, date, s).Completed? && Finish(config, date, s).cumulative.Some?
    ensures var file := Finish(config, date, s).cumulative.value;
      forall k :: k in s.realDownloads && !EndsWith(k, DiffSuffix) ==>
        k in file.counts && file.counts[k] >= s.realDownloads[k]
  {
    FinishRewritesCumulative(config, date, s);
    assert EndsWith(TotalDiffKey, DiffSuffix) by {
      assert TotalDiffKey == TotalKey + DiffSuffix;
      EndsWithAppended(TotalKey, DiffSuffix);
    }
  }

  /** The cumulative ledger's integer entries as they stand on disk after a run. */
  function PersistedCumulative(loaded: map<string, int>, out: Outcome): map<string, int> {
    if out.Completed? && out.cumulative.Some? then out.cumulative.value.counts else loaded
  }

  /** The snapshot ledger's integer entries as they stand on disk after a run. */
  function PersistedSnapshot(loaded: map<string, int>, out: Outcome): map<string, int> {
    if out.Completed? then out.snapshot.counts else loaded
  }

  /**
   * main.py:167-174 with the loop: the report of a completed run is the
   * header, one line per reconciled device, a blank line, the skip section
   * (every skip entry in the order it was recorded, present only when some
   * entry exists) and, only when `downloads.json` is rewritten, the total line.
   */
  lemma ReportLayout(config: Config, date: string, avail: map<string, int>, cumul: map<string, int>,
                     fetches: seq<DeviceFetch>)
    requires RunSpec(config, date, avail, cumul, fetches).Completed?
    ensures var out, ts := RunSpec(config, date, avail, cumul, fetches), Tallies(Start(avail, cumul, date), fetches);
      var body := Header(date) + ReportLines(ts) + "\n" + "\n" + SkipSection(AllSkips(fetches));
      && (out.cumulative.None? ==> out.message == body)
      && (out.cumulative.Some? ==>
            out.message == body + "Total: " + IntToDecimal(out.cumulative.value.counts[TotalKey])
                                + " (+" + IntToDecimal(out.cumulative.value.counts[TotalDiffKey]) + ")")
      && (SkipSection(AllSkips(fetches)) == "" <==> AllSkips(fetches) == [])
  {
    var s0 := Start(avail, cumul, date);
    var s := Fold(s0, fetches).state;
    RunReport(s0, fetches, s);
    RunSkips(s0, fetches, s);
    assert [] + AllSkips(fetches) == AllSkips(fetches);
  }

  // ---------------------------------------------------------------------------
  // Many runs
  // ---------------------------------------------------------------------------

  /** One day's inputs: configuration, date and the hosts' answers. */
  datatype Day = Day(config: Config, date: string, fetches: seq<DeviceFetch>)

  /** The integer entries of both ledger files on disk. */
  datatype Files = Files(snapshot: map<string, int>, cumulative: map<string, int>)

  /** The files after one day's run. */
  function RunDay(files: Files, day: Day): Files {
    var out := RunSpec(day.config, day.date, files.snapshot, files.cumulative, day.fetches);
    Files(PersistedSnapshot(files.snapshot, out), PersistedCumulative(files.cumulative, out))
  }

  /** The files after a sequence of daily runs. */
  function History(files: Files, days: seq<Day>): Files
    decreases |days|
  {
    if days == [] then files else RunDay(History(files, days[..|days| - 1]), days[|days| - 1])
  }

  /**
   * Across any sequence of runs, whatever the hosts report (drops, failures,
   * rate limits), no entry of the cumulative ledger other than a `_diff`
   * entry ever decreases, `_total` and every device's value included.
   */
  lemma {:induction false} HistoryNeverShrinks(files: Files, days: seq<Day>)
    ensures var after := History(files, days).cumulative;
      forall k :: k in files.cumulative && !EndsWith(k, DiffSuffix) ==>
        k in after && after[k] >= files.cumulative[k]
    decreases |days|
  {
    if days != [] {
      var mid := History(files, days[..|days| - 1]);
      HistoryNeverShrinks(files, days[..|days| - 1]);
      var day := days[|days| - 1];
      PersistedCumulativeNeverShrinks(day.config, day.date, mid.snapshot, mid.cumulative, day.fetches);
    }
  }

  /**
   * Across any sequence of runs whose codenames are per-device keys,
   * `_total` minus the sum of the per-device cumulative values never changes:
   * the grand total moves exactly as the devices' cumulative values do, so a
   * per-device drop never puts the two out of step.
   */
  lemma {:induction false} HistoryKeepsTotalInStep(files: Files, days: seq<Day>)
    requires TotalKey in files.cumulative
    requires forall d :: 0 <= d < |days| ==> CodenamesAreDeviceKeys(days[d].fetches)
    ensures var after := History(files, days).cumulative;
      && TotalKey in after
      && after[TotalKey] - Mass(after) == files.cumulative[TotalKey] - Mass(files.cumulative)
    decreases |days|
  {
    if days != [] {
      var mid := History(files, days[..|days| - 1]);
      HistoryKeepsTotalInStep(files, days[..|days| - 1]);
      var day := days[|days| - 1];
      var out := RunSpec(day.config, day.date, mid.snapshot, mid.cumulative, day.fetches);
      if out.Completed? && out.cumulative.Some? {
        TotalGrowthMatchesDevices(day.config, day.date, mid.snapshot, mid.cumulative, day.fetches);
      }
    }
  }
}
