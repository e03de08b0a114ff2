/**
 * Release listings as the two release hosts return them, the asset filter and
 * the summation of qualifying download counters (main.py:88-132).
 */
module Assets {

  import opened Strings

  /** One asset of a release: only `name` and `download_count` are read. */
  datatype Asset = Asset(name: string, downloadCount: nat)

  /** One release: only its `assets` array is read. */
  datatype Release = Release(assets: seq<Asset>)

  const ProductPrefix: string := "PixelBuilds_"
  const ArchiveSuffix: string := ".zip"

  /**
   * The filter of main.py:97-100 (and 120-123): an asset is passed over only
   * when its name has neither the product prefix nor the archive suffix, so
   * either one alone is enough for it to count.
   */
  predicate Counted(name: string) {
    !(!StartsWith(name, ProductPrefix) && !EndsWith(name, ArchiveSuffix))
  }

  /** Every asset of every release, in listing order. */
  function AllAssets(releases: seq<Release>): (assets: seq<Asset>)
  {
    if releases == [] then []
    else AllAssets(releases[..|releases| - 1]) + releases[|releases| - 1].assets
  }

  /** The assets the filter lets through, in order. */
  function Qualifying(assets: seq<Asset>): (kept: seq<Asset>)
  {
    if assets == [] then []
    else
      var last := assets[|assets| - 1];
      Qualifying(assets[..|assets| - 1]) + (if Counted(last.name) then [last] else [])
  }

  /** The sum of the download counters of `assets`. */
  function TotalCount(assets: seq<Asset>): nat
  {
    if assets == [] then 0 else TotalCount(assets[..|assets| - 1]) + assets[|assets| - 1].downloadCount
  }

  /** What one successful host listing adds to `deviceDownloads`. */
  function HostTotal(releases: seq<Release>): nat
  {
    TotalCount(Qualifying(AllAssets(releases)))
  }

  lemma {:induction false} AllAssetsAppend(xs: seq<Release>, ys: seq<Release>)
    ensures AllAssets(xs + ys) == AllAssets(xs) + AllAssets(ys)
    decreases |ys|
  {
    if ys != [] {
      var zs := ys[..|ys| - 1];
      assert (xs + ys)[..|xs + ys| - 1] == xs + zs;
      AllAssetsAppend(xs, zs);
    } else {
      assert xs + ys == xs;
    }
  }

  lemma {:induction false} QualifyingAppend(xs: seq<Asset>, ys: seq<Asset>)
    ensures Qualifying(xs + ys) == Qualifying(xs) + Qualifying(ys)
    decreases |ys|
  {
    if ys != [] {
      var zs := ys[..|ys| - 1];
      assert (xs + ys)[..|xs + ys| - 1] == xs + zs;
      QualifyingAppend(xs, zs);
    } else {
      assert xs + ys == xs;
    }
  }

  lemma {:induction false} TotalCountAppend(xs: seq<Asset>, ys: seq<Asset>)
    ensures TotalCount(xs + ys) == TotalCount(xs) + TotalCount(ys)
    decreases |ys|
  {
    if ys != [] {
      var zs := ys[..|ys| - 1];
      assert (xs + ys)[..|xs + ys| - 1] == xs + zs;
      TotalCountAppend(xs, zs);
    } else {
      assert xs + ys == xs;
    }
  }

  /** The filter keeps exactly the assets whose name qualifies, and nothing else. */
  lemma {:induction false} QualifyingMembers(assets: seq<Asset>, a: Asset)
    ensures a in Qualifying(assets) <==> a in assets && Counted(a.name)
    decreases |assets|
  {
    if assets != [] {
      var init := assets[..|assets| - 1];
      assert assets == init + [assets[|assets| - 1]];
      QualifyingMembers(init, a);
    }
  }

  /**
   * Wherever an asset sits in a listing, it adds its `download_count` to the
   * total exactly when its name qualifies, and nothing otherwise.
   */
  lemma AssetContribution(pre: seq<Asset>, a: Asset, post: seq<Asset>)
    ensures TotalCount(Qualifying(pre + [a] + post))
         == TotalCount(Qualifying(pre + post)) + (if Counted(a.name) then a.downloadCount else 0)
  {
    QualifyingAppend(pre + [a], post);
    QualifyingAppend(pre, [a]);
    QualifyingAppend(pre, post);
    var qp, qa, qq := Qualifying(pre), Qualifying([a]), Qualifying(post);
    assert Qualifying([a]) == if Counted(a.name) then [a] else [] by {
      assert [a][..0] == [];
    }
    TotalCountAppend(qp + qa, qq);
    TotalCountAppend(qp, qa);
    TotalCountAppend(qp, qq);
    assert TotalCount(qa) == if Counted(a.name) then a.downloadCount else 0 by {
      if Counted(a.name) { assert qa[..0] == []; }
    }
  }

  /** A host's total is additive over its releases. */
  lemma HostTotalSplits(xs: seq<Release>, ys: seq<Release>)
    ensures HostTotal(xs + ys) == HostTotal(xs) + HostTotal(ys)
  {
    AllAssetsAppend(xs, ys);
    QualifyingAppend(AllAssets(xs), AllAssets(ys));
    TotalCountAppend(Qualifying(AllAssets(xs)), Qualifying(AllAssets(ys)));
  }

  /** A listing in which no asset name qualifies adds nothing. */
  lemma NothingQualifiesAddsNothing(releases: seq<Release>)
    requires forall a :: a in AllAssets(releases) ==> !Counted(a.name)
    ensures HostTotal(releases) == 0
  {
    var q := Qualifying(AllAssets(releases));
    if q != [] {
      QualifyingMembers(AllAssets(releases), q[0]);
    }
  }

  /** The filter accepts on either condition alone, and rejects when both fail. */
  lemma EitherConditionCounts()
    ensures Counted("PixelBuilds_lynx-boot.img")
    ensures Counted("lynx-ota.zip")
    ensures !Counted("lynx-boot.img")
  {
    assert "PixelBuilds_lynx-boot.img"[..|ProductPrefix|] == ProductPrefix;
    assert "lynx-ota.zip"[|"lynx-ota.zip"| - |ArchiveSuffix|..] == ArchiveSuffix;
    assert "lynx-boot.img"[..|ProductPrefix|] != ProductPrefix by {
      assert "lynx-boot.img"[0] != ProductPrefix[0];
    }
    assert "lynx-boot.img"[|"lynx-boot.img"| - |ArchiveSuffix|..] != ArchiveSuffix by {
      assert "lynx-boot.img"[10] != ArchiveSuffix[1];
    }
  }

  /**
   * The counting loops of main.py:95-103 (GitHub) and 118-126 (Gitea):
   * `download_count` of every qualifying asset, over all releases.
   */
  method CountHost(releases: seq<Release>) returns (total: nat)
    ensures total == HostTotal(releases)
  {
    total := 0;
    var i := 0;
    while i < |releases|
      invariant 0 <= i <= |releases|
      invariant total == HostTotal(releases[..i])
    {
      var assets := releases[i].assets;
      var j := 0;
      while j < |assets|
        invariant 0 <= j <= |assets|
        invariant total == HostTotal(releases[..i]) + TotalCount(Qualifying(assets[..j]))
      {
        var asset := assets[j];
        assert assets[..j + 1][..j] == assets[..j];
        if !StartsWith(asset.name, ProductPrefix) && !EndsWith(asset.name, ArchiveSuffix) {
          assert Qualifying(assets[..j + 1]) == Qualifying(assets[..j]);
          j := j + 1;
          continue;
        }
        assert Qualifying(assets[..j + 1]) == Qualifying(assets[..j]) + [asset];
        total := total + asset.downloadCount;
        assert TotalCount([asset]) == asset.downloadCount by { assert [asset][..0] == []; }
        TotalCountAppend(Qualifying(assets[..j]), [asset]);
        j := j + 1;
      }
      assert assets[..j] == assets;
      assert releases[..i + 1][..i] == releases[..i];
      QualifyingAppend(AllAssets(releases[..i]), assets);
      TotalCountAppend(Qualifying(AllAssets(releases[..i])), Qualifying(assets));
      i := i + 1;
    }
    assert releases[..i] == releases;
  }
}
