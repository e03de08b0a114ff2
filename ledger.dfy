/**
 * Key layout shared by `available_downloads.json` (the snapshot ledger) and
 * `downloads.json` (the cumulative ledger): one entry per device codename,
 * one `<codename>_diff` entry beside it, and the reserved run-wide entries
 * `_total`, `_total_diff` and `_date`.
 */
module Ledger {

  import opened Strings

  const DiffSuffix: string := "_diff"
  const TotalKey: string := "_total"
  const TotalDiffKey: string := "_total_diff"
  const DateKey: string := "_date"

  /** `codename + "_diff"`. */
  function DiffKey(codename: string): (k: string)
    ensures EndsWith(k, DiffSuffix)
    ensures k != codename && k != TotalKey && k != DateKey
    ensures k == TotalDiffKey <==> codename == TotalKey
  {
    EndsWithAppended(codename, DiffSuffix);
    codename + DiffSuffix
  }

  /**
   * A key that holds a per-device count: neither reserved nor a `_diff` entry.
   * Device codenames are expected to be such keys.
   */
  predicate IsDeviceKey(k: string) {
    k != TotalKey && k != DateKey && !EndsWith(k, DiffSuffix)
  }

  lemma DiffKeyIsNotDeviceKey(codename: string)
    ensures !IsDeviceKey(DiffKey(codename))
  {
  }

  lemma ReservedKeysAreNotDeviceKeys()
    ensures !IsDeviceKey(TotalKey) && !IsDeviceKey(TotalDiffKey) && !IsDeviceKey(DateKey)
  {
    assert TotalDiffKey == TotalKey + DiffSuffix;
    EndsWithAppended(TotalKey, DiffSuffix);
  }

  /** The per-device keys present in a ledger. */
  ghost function DeviceKeys(m: map<string, int>): set<string> {
    set k | k in m && IsDeviceKey(k)
  }

  ghost function Pick(keys: set<string>): string
    requires keys != {}
  {
    var k :| k in keys; k
  }

  ghost function SumOver(m: map<string, int>, keys: set<string>): int
    requires keys <= m.Keys
    decreases keys
  {
    if keys == {} then 0 else var k := Pick(keys); m[k] + SumOver(m, keys - {k})
  }

  /** The sum of all per-device counts of a ledger. */
  ghost function Mass(m: map<string, int>): int {
    SumOver(m, DeviceKeys(m))
  }

  /** The sum does not depend on which key is taken out first. */
  lemma {:induction false} SumOverRemove(m: map<string, int>, keys: set<string>, k: string)
    requires keys <= m.Keys && k in keys
    ensures SumOver(m, keys) == m[k] + SumOver(m, keys - {k})
    decreases keys
  {
    var p := Pick(keys);
    if p != k {
      calc {
        SumOver(m, keys);
        m[p] + SumOver(m, keys - {p});
        { SumOverRemove(m, keys - {p}, k); }
        m[p] + m[k] + SumOver(m, keys - {p} - {k});
        { assert keys - {p} - {k} == keys - {k} - {p}; }
        m[k] + (m[p] + SumOver(m, keys - {k} - {p}));
        { SumOverRemove(m, keys - {k}, p); }
        m[k] + SumOver(m, keys - {k});
      }
    }
  }

  /** Two ledgers that agree on a set of keys sum alike over it. */
  lemma {:induction false} SumOverAgree(m1: map<string, int>, m2: map<string, int>, keys: set<string>)
    requires keys <= m1.Keys && keys <= m2.Keys
    requires forall k :: k in keys ==> m1[k] == m2[k]
    ensures SumOver(m1, keys) == SumOver(m2, keys)
    decreases keys
  {
    if keys != {} {
      SumOverAgree(m1, m2, keys - {Pick(keys)});
    }
  }

  /**
   * Setting one entry moves the device sum by the change of that entry when
   * the key is a device key, and leaves it alone otherwise (a `_diff` entry or
   * a reserved key).
   */
  lemma MassUpdate(m: map<string, int>, k: string, v: int)
    ensures Mass(m[k := v]) == Mass(m) + (if IsDeviceKey(k) then v - (if k in m then m[k] else 0) else 0)
  {
    var m' := m[k := v];
    var keys, keys' := DeviceKeys(m), DeviceKeys(m');
    if IsDeviceKey(k) {
      assert keys' == keys + {k};
      SumOverRemove(m', keys', k);
      assert keys' - {k} == keys - {k};
      SumOverAgree(m, m', keys - {k});
      if k in m {
        SumOverRemove(m, keys, k);
      } else {
        assert keys - {k} == keys;
      }
    } else {
      assert keys' == keys;
      SumOverAgree(m, m', keys);
    }
  }
}
