/**
 * Concrete daily runs, worked through the model: a single-device run,
 * and a run in which a per-device gain is never
 * recorded because another device's drop cancels it.
 */
module Scenarios {

  import opened Strings
  import opened Decimal
  import opened Assets
  import opened Ledger
  import opened Engine
  import opened Properties

  /** A listing of one release holding one asset counts that asset when its name qualifies. */
  lemma OneAssetListing(a: Asset)
    ensures HostTotal([Release([a])]) == if Counted(a.name) then a.downloadCount else 0
  {
    assert [Release([a])][..0] == [] && [a][..0] == [];
    assert AllAssets([Release([a])]) == [] + [a] == [a];
    var kept := if Counted(a.name) then [a] else [];
    assert Qualifying([a]) == [] + kept == kept;
    if Counted(a.name) {
      assert TotalCount(kept) == TotalCount([]) + a.downloadCount;
    }
  }

  lemma SmallDecimals()
    ensures IntToDecimal(10) == "10" && IntToDecimal(15) == "15" && IntToDecimal(25) == "25"
  {
    assert NatToDecimal(1) == "1" && NatToDecimal(2) == "2";
  }

  /** The skip section of a run with one skip entry. */
  lemma SkipSectionOfOne(entry: string)
    ensures SkipSection([entry]) == "Skipped devices:" + ("\n" + entry) + "\n" + "\n"
  {
    assert [entry][..0] == [];
    assert SkipLines([entry]) == "" + "\n" + entry;
    assert "" + "\n" == "\n";
  }

  /** The skip entry of the single-device run below, as main.py:114 formats it. */
  function GiteaEmpty(): string {
    "device1" + " (" + "Gitea" + ") - no releases"
  }

  /** What the hosts of the single-device run below report. */
  lemma SingleDeviceFetch(fetch: DeviceFetch)
    requires fetch == DeviceFetch(Device("device1", "google"),
                                  Response(StatusOk, [Release([Asset("PixelBuilds_device1.zip", 15)])]),
                                  Response(StatusOk, []))
    ensures !BothFailed(fetch) && fetch.github.status != StatusForbidden
    ensures DeviceDownloads(fetch) == 15
    ensures HostSkips("device1", "GitHub", fetch.github) == []
    ensures HostSkips("device1", "Gitea", fetch.gitea) == [GiteaEmpty()]
  {
    var asset := Asset("PixelBuilds_device1.zip", 15);
    assert Counted(asset.name) by {
      assert asset.name[..|ProductPrefix|] == ProductPrefix;
    }
    OneAssetListing(asset);
  }

  /** The reconciliation of the single-device run below. */
  lemma SingleDeviceReconcile(s: State, date: string)
    requires s.availDownloads == map[] && s.realDownloads == map["device1" := 10, TotalKey := 10]
    requires s.totalDownloads == 0 && s.totalPrevious == 0 && s.negatives == 0
    requires s.message == Header(date)
    ensures Reconcile(s, "device1", 15)
         == State(map["device1" := 15, DiffKey("device1") := 15],
                  map["device1" := 25, DiffKey("device1") := 15, TotalKey := 10],
                  15, 0, 0, s.skipped,
                  Header(date) + ("\n" + "device1" + ": " + "10" + (" (+" + "15" + ")")))
  {
    SmallDecimals();
  }

  /** The device loop of the single-device run below. */
  lemma SingleDeviceLoop(date: string, fetch: DeviceFetch)
    requires fetch.device.codename == "device1" && !BothFailed(fetch) && fetch.github.status != StatusForbidden
    requires DeviceDownloads(fetch) == 15
    requires HostSkips("device1", "GitHub", fetch.github) == []
    requires HostSkips("device1", "Gitea", fetch.gitea) == [GiteaEmpty()]
    ensures Fold(Start(map[], map["device1" := 10, TotalKey := 10], date), [fetch])
         == Next(State(map["device1" := 15, DiffKey("device1") := 15],
                       map["device1" := 25, DiffKey("device1") := 15, TotalKey := 10],
                       15, 0, 0, [GiteaEmpty()],
                       Header(date) + ("\n" + "device1" + ": " + "10" + (" (+" + "15" + ")"))))
  {
    var cumulative := map["device1" := 10, TotalKey := 10];
    var s0 := Start(map[], cumulative, date);
    assert Fold(s0, [fetch]) == Step(s0, fetch) by {
      assert [fetch][..0] == [];
    }
    assert Enrol(cumulative, "device1") == cumulative;
    var skipped := s0.skipped + HostSkips("device1", "GitHub", fetch.github) + HostSkips("device1", "Gitea", fetch.gitea);
    assert skipped == [GiteaEmpty()];
    SingleDeviceReconcile(s0.(skipped := skipped), date);
  }

  /** The end of the single-device run below: a positive net difference rewrites both files. */
  lemma SingleDeviceFinish(config: Config, date: string, s: State)
    requires s.availDownloads == map["device1" := 15, DiffKey("device1") := 15]
    requires s.realDownloads == map["device1" := 25, DiffKey("device1") := 15, TotalKey := 10]
    requires s.totalDownloads == 15 && s.totalPrevious == 0 && s.negatives == 0
    requires s.skipped == [GiteaEmpty()]
    ensures var out := Finish(config, date, s);
      && out.Completed?
      && out.snapshot
         == LedgerFile(map["device1" := 15, DiffKey("device1") := 15, TotalKey := 15, TotalDiffKey := 15], date)
      && out.cumulative
         == Some(LedgerFile(map["device1" := 25, DiffKey("device1") := 15, TotalKey := 25, TotalDiffKey := 15], date))
      && out.message
         == s.message + "\n" + "\n"
            + ("Skipped devices:" + ("\n" + GiteaEmpty()) + "\n" + "\n")
            + "Total: " + "25" + " (+" + "15" + ")"
  {
    SkipSectionOfOne(GiteaEmpty());
    SmallDecimals();
    var out := Finish(config, date, s);
    assert out.cumulative.value.counts
        == map["device1" := 25, DiffKey("device1") := 15, TotalKey := 25, TotalDiffKey := 15];
  }

  /**
   * One device with cumulative value 10; GitHub lists one qualifying asset
   * with 15 downloads and Gitea answers with no releases. Both ledgers gain
   * the device's 15, `_total` reaches 25, and the report line shows the
   * cumulative value from before the increment (10), followed by `(+15)`.
   * The report is written out piece by piece as the f-strings of
   * main.py:43, 154, 159, 165-174 and 185-186 assemble it.
   */
  lemma SingleDeviceRun(config: Config, date: string, fetch: DeviceFetch)
    requires fetch == DeviceFetch(Device("device1", "google"),
                                  Response(StatusOk, [Release([Asset("PixelBuilds_device1.zip", 15)])]),
                                  Response(StatusOk, []))
    ensures var out := RunSpec(config, date, map[], map["device1" := 10, TotalKey := 10], [fetch]);
      && out.Completed?
      && out.snapshot
         == LedgerFile(map["device1" := 15, DiffKey("device1") := 15, TotalKey := 15, TotalDiffKey := 15], date)
      && out.cumulative
         == Some(LedgerFile(map["device1" := 25, DiffKey("device1") := 15, TotalKey := 25, TotalDiffKey := 15], date))
      && out.message
         == Header(date) + ("\n" + "device1" + ": " + "10" + (" (+" + "15" + ")")) + "\n" + "\n"
            + ("Skipped devices:" + ("\n" + ("device1" + " (" + "Gitea" + ") - no releases")) + "\n" + "\n")
            + "Total: " + "25" + " (+" + "15" + ")"
  {
    SingleDeviceFetch(fetch);
    SingleDeviceLoop(date, fetch);
    var s := Fold(Start(map[], map["device1" := 10, TotalKey := 10], date), [fetch]).state;
    assert RunSpec(config, date, map[], map["device1" := 10, TotalKey := 10], [fetch]) == Finish(config, date, s);
    SingleDeviceFinish(config, date, s);
  }

  /** What the hosts report for one device whose GitHub listing holds one archive and whose Gitea fails. */
  lemma ArchiveOnlyFetch(codename: string, asset: Asset, fetch: DeviceFetch)
    requires asset.name == codename + ".zip"
    requires fetch == DeviceFetch(Device(codename, "x"), Response(StatusOk, [Release([asset])]), Response(404, []))
    ensures !BothFailed(fetch) && fetch.github.status != StatusForbidden
    ensures DeviceDownloads(fetch) == asset.downloadCount
  {
    assert Counted(asset.name) by {
      EndsWithAppended(codename, ".zip");
    }
    OneAssetListing(asset);
  }

  /** What the hosts report for the two devices of the run below. */
  lemma OffsetFetches(a: DeviceFetch, b: DeviceFetch)
    requires a == DeviceFetch(Device("a", "x"), Response(StatusOk, [Release([Asset("a.zip", 15)])]), Response(404, []))
    requires b == DeviceFetch(Device("b", "x"), Response(StatusOk, [Release([Asset("b.zip", 5)])]), Response(404, []))
    ensures a.device.codename == "a" && !BothFailed(a) && a.github.status != StatusForbidden
    ensures DeviceDownloads(a) == 15
    ensures b.device.codename == "b" && !BothFailed(b) && b.github.status != StatusForbidden
    ensures DeviceDownloads(b) == 5
  {
    ArchiveOnlyFetch("a", Asset("a.zip", 15), a);
    ArchiveOnlyFetch("b", Asset("b.zip", 5), b);
  }

  /** A device with counts on an enrolled codename is reconciled, whatever its listing. */
  lemma CountedStep(s: State, f: DeviceFetch, n: nat)
    requires !BothFailed(f) && f.github.status != StatusForbidden && DeviceDownloads(f) == n
    requires f.device.codename in s.realDownloads
    ensures var c := f.device.codename;
      var skipped := s.skipped + HostSkips(c, "GitHub", f.github) + HostSkips(c, "Gitea", f.gitea);
      Step(s, f) == Next(Reconcile(s.(skipped := skipped), c, n))
  {
    assert Enrol(s.realDownloads, f.device.codename) == s.realDownloads;
  }

  /** The first device of the two-device run below: its count rises from 10 to 15. */
  lemma OffsetFirstStep(s0: State, a: DeviceFetch)
    requires a.device.codename == "a" && !BothFailed(a) && a.github.status != StatusForbidden
    requires DeviceDownloads(a) == 15
    requires s0.availDownloads == map["a" := 10, "b" := 10]
    requires s0.realDownloads == map["a" := 7, "b" := 9, TotalKey := 16]
    requires s0.totalDownloads == 0 && s0.totalPrevious == 0
    ensures && Step(s0, a).Next?
      && Step(s0, a).state.availDownloads == map["a" := 15, "b" := 10, DiffKey("a") := 5]
      && Step(s0, a).state.totalDownloads == 15 && Step(s0, a).state.totalPrevious == 10
      && "b" in Step(s0, a).state.realDownloads
  {
    var skipped := s0.skipped + HostSkips("a", "GitHub", a.github) + HostSkips("a", "Gitea", a.gitea);
    var r := Reconcile(s0.(skipped := skipped), "a", 15);
    CountedStep(s0, a, 15);
    assert r.availDownloads == map["a" := 15, "b" := 10, DiffKey("a") := 5];
  }

  /** The second device of the two-device run below: its count falls from 10 to 5. */
  lemma OffsetSecondStep(s1: State, b: DeviceFetch)
    requires b.device.codename == "b" && !BothFailed(b) && b.github.status != StatusForbidden
    requires DeviceDownloads(b) == 5
    requires s1.availDownloads == map["a" := 15, "b" := 10, DiffKey("a") := 5]
    requires s1.totalDownloads == 15 && s1.totalPrevious == 10
    requires "b" in s1.realDownloads
    ensures && Step(s1, b).Next?
      && Step(s1, b).state.availDownloads == map["a" := 15, "b" := 5, DiffKey("a") := 5, DiffKey("b") := -5]
      && Step(s1, b).state.totalDownloads == 20 && Step(s1, b).state.totalPrevious == 20
  {
    var skipped := s1.skipped + HostSkips("b", "GitHub", b.github) + HostSkips("b", "Gitea", b.gitea);
    var r := Reconcile(s1.(skipped := skipped), "b", 5);
    CountedStep(s1, b, 5);
    assert r.availDownloads == map["a" := 15, "b" := 5, DiffKey("a") := 5, DiffKey("b") := -5];
  }

  /** The state after the device loop of the two-device run below. */
  lemma OffsetLoop(date: string, a: DeviceFetch, b: DeviceFetch)
    requires a.device.codename == "a" && !BothFailed(a) && a.github.status != StatusForbidden
    requires DeviceDownloads(a) == 15
    requires b.device.codename == "b" && !BothFailed(b) && b.github.status != StatusForbidden
    requires DeviceDownloads(b) == 5
    ensures var s0 := Start(map["a" := 10, "b" := 10], map["a" := 7, "b" := 9, TotalKey := 16], date);
      && Fold(s0, [a, b]).Next?
      && Fold(s0, [a, b]).state.availDownloads == map["a" := 15, "b" := 5, DiffKey("a") := 5, DiffKey("b") := -5]
      && Fold(s0, [a, b]).state.totalDownloads == 20
      && Fold(s0, [a, b]).state.totalPrevious == 20
  {
    var s0 := Start(map["a" := 10, "b" := 10], map["a" := 7, "b" := 9, TotalKey := 16], date);
    assert [a, b][..1] == [a] && [a][..0] == [];
    assert Fold(s0, [a]) == Step(s0, a);
    OffsetFirstStep(s0, a);
    var s1 := Step(s0, a).state;
    OffsetSecondStep(s1, b);
    assert Fold(s0, [a, b]) == Step(s1, b);
  }

  /** The end of the two-device run below: a net difference of 0 rewrites only the snapshot. */
  lemma OffsetFinish(config: Config, date: string, s: State)
    requires s.availDownloads == map["a" := 15, "b" := 5, DiffKey("a") := 5, DiffKey("b") := -5]
    requires s.totalDownloads == 20 && s.totalPrevious == 20
    ensures Finish(config, date, s).Completed?
    ensures Finish(config, date, s).cumulative.None?
    ensures Finish(config, date, s).snapshot.counts
         == map["a" := 15, "b" := 5, DiffKey("a") := 5, DiffKey("b") := -5, TotalKey := 20, TotalDiffKey := 0]
  {
  }

  /**
   * Two devices with cumulative values 7 and 9, whose archives GitHub
   * counts while Gitea fails: the first gains 5 downloads and the second
   * loses 5. The net difference is 0, so `downloads.json` is not rewritten
   * and the first device's gain reaches no cumulative value, while the
   * snapshot already holds its new count, so no later run counts it again.
   */
  lemma OffsetGainIsNeverRecorded(config: Config, date: string, a: DeviceFetch, b: DeviceFetch)
    requires a == DeviceFetch(Device("a", "x"), Response(StatusOk, [Release([Asset("a.zip", 15)])]), Response(404, []))
    requires b == DeviceFetch(Device("b", "x"), Response(StatusOk, [Release([Asset("b.zip", 5)])]), Response(404, []))
    ensures var cumulative := map["a" := 7, "b" := 9, TotalKey := 16];
      var out := RunSpec(config, date, map["a" := 10, "b" := 10], cumulative, [a, b]);
      && out.Completed?
      && PersistedCumulative(cumulative, out) == cumulative
      && out.snapshot.counts
         == map["a" := 15, "b" := 5, DiffKey("a") := 5, DiffKey("b") := -5, TotalKey := 20, TotalDiffKey := 0]
  {
    OffsetFetches(a, b);
    OffsetLoop(date, a, b);
    var s0 := Start(map["a" := 10, "b" := 10], map["a" := 7, "b" := 9, TotalKey := 16], date);
    var s := Fold(s0, [a, b]).state;
    assert RunSpec(config, date, map["a" := 10, "b" := 10], map["a" := 7, "b" := 9, TotalKey := 16], [a, b])
        == Finish(config, date, s);
    OffsetFinish(config, date, s);
  }
}
