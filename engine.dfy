/**
 * The download-accounting run of main.py `main()`: for each catalogued device,
 * sum the qualifying asset counters reported by GitHub and Gitea, reconcile
 * them against the snapshot ledger (`available_downloads.json`) and the
 * cumulative ledger (`downloads.json`), then finalise the run-wide totals,
 * the report text and the write and notify decisions.
 *
 * The HTTP answers, the loaded ledgers, the configuration and the run's date
 * are inputs; the files to write, the message and whether to send it are the
 * outcome. `Step`, `Fold`, `Finish` and `RunSpec` define the run as functions;
 * `DailyRun` is the run as the source writes it, one device at a time, and is
 * proved to compute `RunSpec`.
 */
module Engine {

  import opened Strings
  import opened Decimal
  import opened Assets
  import opened Ledger

  datatype Option<T> = None | Some(value: T)

  /** A catalog entry; `manufacturer` only appears in log output. */
  datatype Device = Device(codename: string, manufacturer: string)

  /** One host's HTTP answer: its status code and, when that is 200, its release list. */
  datatype Response = Response(status: int, releases: seq<Release>)

  /** A device together with the answers of its two release hosts. */
  datatype DeviceFetch = DeviceFetch(device: Device, github: Response, gitea: Response)

  /** `TG_BOT_TOKEN` and `TG_CHAT_ID`, each possibly unset. */
  datatype Config = Config(botToken: Option<string>, chatId: Option<string>)

  /** A ledger file as written: its integer entries and its `_date` entry. */
  datatype LedgerFile = LedgerFile(counts: map<string, int>, date: string)

  /** How a run ends. */
  datatype Outcome =
    | RateLimited
      // sys.exit(1) after a GitHub 403 (main.py:84-86): nothing written, nothing sent
    | MissingTotal
      // KeyError on `_total` of the cumulative ledger (main.py:179/182): nothing written, nothing sent
    | Completed(snapshot: LedgerFile, cumulative: Option<LedgerFile>, message: string, notify: bool)
      // `cumulative` is None when downloads.json is not rewritten

  /** Everything `main()` has accumulated after some devices. */
  datatype State = State(
    availDownloads: map<string, int>,
    realDownloads: map<string, int>,
    totalDownloads: int,
    totalPrevious: int,
    negatives: int,
    skipped: seq<string>,
    message: string)

  datatype StepResult = Abort | Next(state: State)

  const StatusOk: int := 200
  const StatusForbidden: int := 403

  /** Python truthiness of an environment value: set and non-empty. */
  predicate Truthy(v: Option<string>) {
    v.Some? && v.value != ""
  }

  function Header(date: string): string {
    "Download stats as of " + date + " in last 24 hours:\n"
  }

  /** The state right after the ledgers are loaded (main.py:28-43). */
  function Start(availDownloads: map<string, int>, realDownloads: map<string, int>, date: string): State {
    State(availDownloads, realDownloads, 0, 0, 0, [], Header(date))
  }

  predicate BothFailed(f: DeviceFetch) {
    f.github.status != StatusOk && f.gitea.status != StatusOk
  }

  /** What one host adds to `deviceDownloads`: nothing unless it answered 200. */
  function HostDownloads(r: Response): nat {
    if r.status == StatusOk then HostTotal(r.releases) else 0
  }

  function DeviceDownloads(f: DeviceFetch): nat {
    HostDownloads(f.github) + HostDownloads(f.gitea)
  }

  /** The skip entries one host contributes for a device that was not skipped outright. */
  function HostSkips(codename: string, host: string, r: Response): seq<string> {
    if r.status == StatusOk then
      if |r.releases| == 0 then [codename + " (" + host + ") - no releases"] else []
    else [codename + " (" + host + ") - no data"]
  }

  function BothFailedEntry(codename: string): string {
    codename + " - no data from both GitHub and Gitea"
  }

  /** main.py:58-60: a codename not yet in the cumulative ledger enters with zeroes. */
  function Enrol(realDownloads: map<string, int>, codename: string): map<string, int> {
    if codename in realDownloads then realDownloads else realDownloads[codename := 0][DiffKey(codename) := 0]
  }

  /** main.py:136-141: the snapshot value, 0 for a device not seen before. */
  function Previous(availDownloads: map<string, int>, codename: string): int {
    if codename in availDownloads then availDownloads[codename] else 0
  }

  /** The report line of a device: its cumulative value before the increment, then `(+diff)` if positive. */
  function DeviceLine(codename: string, before: int, diff: int): string {
    ("\n" + codename + ": " + IntToDecimal(before)) + (if diff > 0 then " (+" + IntToDecimal(diff) + ")" else "")
  }

  /**
   * main.py:136-159 for a device with `downloads` counted, once its
   * cumulative entries exist: overwrite the
   * snapshot, accumulate the totals, and grow the cumulative value by a
   * positive difference only.
   */
  function Reconcile(s: State, c: string, downloads: nat): State
    requires c in s.realDownloads
  {
    var previous := Previous(s.availDownloads, c);
    var diff := downloads - previous;
    var cumulative := s.realDownloads[c];
    State(
      s.availDownloads[c := downloads][DiffKey(c) := diff],
      if diff > 0 then s.realDownloads[c := cumulative + diff][DiffKey(c) := diff] else s.realDownloads,
      s.totalDownloads + downloads,
      s.totalPrevious + previous,
      if diff < 0 then s.negatives - diff else s.negatives,
      s.skipped,
      s.message + DeviceLine(c, cumulative, diff))
  }

  /** One pass of the device loop (main.py:45-159). */
  function Step(s: State, f: DeviceFetch): StepResult {
    var c := f.device.codename;
    var enrolled := s.(realDownloads := Enrol(s.realDownloads, c));
    if BothFailed(f) then
      Next(enrolled.(skipped := s.skipped + [BothFailedEntry(c)]))
    else if f.github.status == StatusForbidden then
      Abort
    else
      var skipped := s.skipped + HostSkips(c, "GitHub", f.github) + HostSkips(c, "Gitea", f.gitea);
      Next(Reconcile(enrolled.(skipped := skipped), c, DeviceDownloads(f)))
  }

  /** The device loop over a catalog, stopping at the first abort. */
  function Fold(s0: State, fetches: seq<DeviceFetch>): StepResult
    decreases |fetches|
  {
    if fetches == [] then Next(s0)
    else
      match Fold(s0, fetches[..|fetches| - 1])
      case Abort => Abort
      case Next(s) => Step(s, fetches[|fetches| - 1])
  }

  function SkipLines(skipped: seq<string>): string {
    if skipped == [] then "" else SkipLines(skipped[..|skipped| - 1]) + "\n" + skipped[|skipped| - 1]
  }

  /** main.py:167-174: the skipped-devices block, present only when something was skipped. */
  function SkipSection(skipped: seq<string>): string {
    if |skipped| > 0 then "Skipped devices:" + SkipLines(skipped) + "\n" + "\n" else ""
  }

  /** The finalisation after the device loop (main.py:162-198). */
  function Finish(config: Config, date: string, s: State): Outcome {
    var totalDiff := s.totalDownloads - s.totalPrevious;
    var body := s.message + "\n" + "\n" + SkipSection(s.skipped);
    var snapshot := LedgerFile(s.availDownloads[TotalKey := s.totalDownloads][TotalDiffKey := totalDiff], date);
    var notify := Truthy(config.botToken) && Truthy(config.chatId) && totalDiff > 0;
    if totalDiff > 0 then
      if TotalKey !in s.realDownloads then MissingTotal
      else
        var growth := if s.negatives > 0 then totalDiff + s.negatives else totalDiff;
        var realDownloads := s.realDownloads[TotalKey := s.realDownloads[TotalKey] + growth][TotalDiffKey := growth];
        var message := body + "Total: " + IntToDecimal(realDownloads[TotalKey]) + " (+" + IntToDecimal(growth) + ")";
        Completed(snapshot, Some(LedgerFile(realDownloads, date)), message, notify)
    else
      Completed(snapshot, None, body, notify)
  }

  /** A whole daily run, from the loaded ledgers and the hosts' answers. */
  function RunSpec(config: Config, date: string, availDownloads: map<string, int>, realDownloads: map<string, int>,
                   fetches: seq<DeviceFetch>): Outcome
  {
    match Fold(Start(availDownloads, realDownloads, date), fetches)
    case Abort => RateLimited
    case Next(s) => Finish(config, date, s)
  }

  lemma {:induction false} AbortPersists(s0: State, fetches: seq<DeviceFetch>, i: nat)
    requires i <= |fetches|
    requires Fold(s0, fetches[..i]) == Abort
    ensures Fold(s0, fetches) == Abort
    decreases |fetches| - i
  {
    if i < |fetches| {
      assert fetches[..i + 1][..i] == fetches[..i];
      AbortPersists(s0, fetches, i + 1);
    } else {
      assert fetches[..i] == fetches;
    }
  }

  /**
   * The handling of one host's answer for a device that was not skipped
   * outright (main.py:88-109 for GitHub, 111-132 for Gitea).
   */
  method CollectHost(codename: string, host: string, r: Response) returns (downloads: nat, skips: seq<string>)
    ensures downloads == HostDownloads(r)
    ensures skips == HostSkips(codename, host, r)
    ensures |skips| <= 1 && (downloads > 0 ==> skips == [])
  {
    downloads, skips := 0, [];
    if r.status == StatusOk {
      if |r.releases| == 0 {
        skips := skips + [codename + " (" + host + ") - no releases"];
      } else {
        var n := CountHost(r.releases);
        downloads := downloads + n;
      }
    } else {
      skips := skips + [codename + " (" + host + ") - no data"];
    }
  }

  /** main.py:167-174: the skipped-devices block, one line per entry, only when something was skipped. */
  method AppendSkipSection(message: string, skipped: seq<string>) returns (result: string)
    ensures result == message + SkipSection(skipped)
  {
    result := message;
    if |skipped| > 0 {
      result := result + "Skipped devices:";
      ghost var heading := result;
      var k := 0;
      while k < |skipped|
        invariant 0 <= k <= |skipped|
        invariant result == heading + SkipLines(skipped[..k])
      {
        assert skipped[..k + 1][..k] == skipped[..k];
        ConcatAssoc(heading, SkipLines(skipped[..k]), "\n");
        ConcatAssoc(heading, SkipLines(skipped[..k]) + "\n", skipped[k]);
        result := result + "\n" + skipped[k];
        k := k + 1;
      }
      assert skipped[..k] == skipped;
      ConcatAssoc(message, "Skipped devices:", SkipLines(skipped));
      ConcatAssoc(message, "Skipped devices:" + SkipLines(skipped), "\n");
      ConcatAssoc(message, "Skipped devices:" + SkipLines(skipped) + "\n", "\n");
      result := result + "\n";
      result := result + "\n";
    } else {
      assert message + "" == message;
    }
  }

  /**
   * The finalisation (main.py:162-198): the grand totals of both ledgers, the
   * rest of the report, and whether to write `downloads.json` and to notify.
   */
  method Finalize(config: Config, date: string, availDownloads: map<string, int>, realDownloads: map<string, int>,
                  totalDownloads: int, totalPrevious: int, negatives: int, skipped: seq<string>, message: string)
    returns (outcome: Outcome)
    ensures outcome == Finish(config, date,
      State(availDownloads, realDownloads, totalDownloads, totalPrevious, negatives, skipped, message))
  {
    var availDownloads, realDownloads, message := availDownloads, realDownloads, message;
    var totalDiff := totalDownloads - totalPrevious;
    ghost var body := message + "\n" + "\n";

    message := message + "\n";
    message := message + "\n";
    message := AppendSkipSection(message, skipped);
    assert message == body + SkipSection(skipped);

    var cumulative: Option<LedgerFile> := None;
    if totalDiff > 0 {
      if TotalKey !in realDownloads {
        return MissingTotal;
      }
      if negatives > 0 {
        realDownloads := realDownloads[TotalKey := realDownloads[TotalKey] + totalDiff + negatives];
        realDownloads := realDownloads[TotalDiffKey := totalDiff + negatives];
      } else {
        realDownloads := realDownloads[TotalKey := realDownloads[TotalKey] + totalDiff];
        realDownloads := realDownloads[TotalDiffKey := totalDiff];
      }
      message := message + "Total: " + IntToDecimal(realDownloads[TotalKey]);
      message := message + " (+" + IntToDecimal(realDownloads[TotalDiffKey]) + ")";
      cumulative := Some(LedgerFile(realDownloads, date));
    }

    availDownloads := availDownloads[TotalKey := totalDownloads];
    availDownloads := availDownloads[TotalDiffKey := totalDiff];

    var notify := Truthy(config.botToken) && Truthy(config.chatId) && totalDiff > 0;
    outcome := Completed(LedgerFile(availDownloads, date), cumulative, message, notify);
  }

  /**
   * main.py:136-159: overwrite the snapshot entry, accumulate the totals and
   * `negatives`, add the report line, and grow the cumulative entry when the
   * difference is positive.
   */
  method ReconcileDevice(s: State, codename: string, deviceDownloads: nat) returns (t: State)
    requires codename in s.realDownloads
    ensures t == Reconcile(s, codename, deviceDownloads)
  {
    var availDownloads, realDownloads := s.availDownloads, s.realDownloads;
    var totalDownloads, totalPrevious, negatives := s.totalDownloads, s.totalPrevious, s.negatives;
    var message := s.message;

    if codename !in availDownloads {
      availDownloads := availDownloads[codename := 0];
    }
    var previous := availDownloads[codename];
    availDownloads := availDownloads[codename := deviceDownloads];
    assert availDownloads == s.availDownloads[codename := deviceDownloads] by {
      if codename !in s.availDownloads {
        assert s.availDownloads[codename := 0][codename := deviceDownloads] == s.availDownloads[codename := deviceDownloads];
      }
    }
    totalDownloads := totalDownloads + availDownloads[codename];
    totalPrevious := totalPrevious + previous;
    var diff := availDownloads[codename] - previous;
    availDownloads := availDownloads[DiffKey(codename) := diff];

    if diff < 0 {
      negatives := negatives + (-diff);
    }

    ghost var line := "\n" + codename + ": " + IntToDecimal(realDownloads[codename]);
    message := message + ("\n" + codename + ": " + IntToDecimal(realDownloads[codename]));

    if diff > 0 {
      realDownloads := realDownloads[codename := realDownloads[codename] + diff];
      realDownloads := realDownloads[DiffKey(codename) := diff];
      message := message + (" (+" + IntToDecimal(diff) + ")");
      ConcatAssoc(s.message, line, " (+" + IntToDecimal(diff) + ")");
    } else {
      assert line + "" == line;
    }

    t := State(availDownloads, realDownloads, totalDownloads, totalPrevious, negatives, s.skipped, message);
  }

  /**
   * One pass of the device loop (main.py:46-159) over the state accumulated
   * so far: enrol the codename, skip the device when neither host answers,
   * give up on a GitHub 403, otherwise count both hosts and reconcile.
   */
  method ProcessDevice(s: State, f: DeviceFetch) returns (r: StepResult)
    ensures r == Step(s, f)
  {
    var codename := f.device.codename;
    var realDownloads, skipped := s.realDownloads, s.skipped;
    var deviceDownloads := 0;

    if codename !in realDownloads {
      realDownloads := realDownloads[codename := 0];
      realDownloads := realDownloads[DiffKey(codename) := 0];
    }
    assert realDownloads == Enrol(s.realDownloads, codename);

    if f.github.status != StatusOk && f.gitea.status != StatusOk {
      skipped := skipped + [codename + " - no data from both GitHub and Gitea"];
      return Next(s.(realDownloads := realDownloads, skipped := skipped));
    }

    if f.github.status == StatusForbidden {
      return Abort;
    }

    var fromGithub, githubSkips := CollectHost(codename, "GitHub", f.github);
    deviceDownloads := deviceDownloads + fromGithub;
    skipped := skipped + githubSkips;
    var fromGitea, giteaSkips := CollectHost(codename, "Gitea", f.gitea);
    deviceDownloads := deviceDownloads + fromGitea;
    skipped := skipped + giteaSkips;
    assert deviceDownloads == DeviceDownloads(f);
    assert skipped == s.skipped + HostSkips(codename, "GitHub", f.github) + HostSkips(codename, "Gitea", f.gitea);

    var t := ReconcileDevice(s.(realDownloads := realDownloads, skipped := skipped), codename, deviceDownloads);
    r := Next(t);
  }

  /** `main()` with the I/O taken out: the device loop, then the finalisation. */
  method DailyRun(config: Config, date: string, loadedAvail: map<string, int>, loadedReal: map<string, int>,
                  fetches: seq<DeviceFetch>) returns (outcome: Outcome)
    ensures outcome == RunSpec(config, date, loadedAvail, loadedReal, fetches)
  {
    var totalDownloads, totalPrevious := 0, 0;
    var skipped: seq<string> := [];
    var negatives := 0;
    var availDownloads, realDownloads := loadedAvail, loadedReal;
    var message := "Download stats as of " + date + " in last 24 hours:\n";
    ghost var s0 := Start(loadedAvail, loadedReal, date);

    var i := 0;
    while i < |fetches|
      invariant 0 <= i <= |fetches|
      invariant Fold(s0, fetches[..i]) == Next(State(availDownloads, realDownloads, totalDownloads, totalPrevious, negatives, skipped, message))
    {
      assert fetches[..i + 1][..i] == fetches[..i];
      var r := ProcessDevice(
        State(availDownloads, realDownloads, totalDownloads, totalPrevious, negatives, skipped, message),
        fetches[i]);
      if r.Abort? {
        AbortPersists(s0, fetches, i + 1);
        return RateLimited;
      }
      var t := r.state;
      availDownloads, realDownloads := t.availDownloads, t.realDownloads;
      totalDownloads, totalPrevious, negatives := t.totalDownloads, t.totalPrevious, t.negatives;
      skipped, message := t.skipped, t.message;
      i := i + 1;
    }
    assert fetches[..i] == fetches;

    outcome := Finalize(config, date, availDownloads, realDownloads, totalDownloads, totalPrevious, negatives, skipped, message);
  }
}
