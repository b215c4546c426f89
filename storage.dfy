/**
 * The simulated secure upload (`storage`): a progress counter that steps by 20 on every
 * tick of an interval until it reaches 100, reporting each value to an optional
 * listener, then resolves to a path under `memories/`. The random path suffix is a
 * parameter, and the file being uploaded is never read, so it is not one.
 */
module Storage {
  import opened Strings

  datatype UploadStatus = Uploading | Optimizing | Securing | Complete

  datatype UploadProgress = UploadProgress(progress: nat, status: UploadStatus)

  const Step := 20
  const Done := 100

  /** `progress < 60 ? 'uploading' : progress < 90 ? 'optimizing' : 'securing'` */
  function StatusFor(progress: nat): UploadStatus
  {
    if progress < 60 then Uploading else if progress < 90 then Optimizing else Securing
  }

  /** The reports of the first `ticks` ticks. */
  function Reports(ticks: nat): (reports: seq<UploadProgress>)
    ensures |reports| == ticks
  {
    if ticks == 0 then [] else Reports(ticks - 1) + [UploadProgress(Step * ticks, StatusFor(Step * ticks))]
  }

  const MemoriesPrefix := "memories/"

  /**
   * `uploadMemory`: each loop iteration is one tick. With a listener (`notify`) the
   * reports are those of five ticks; without one, none are made.
   */
  method UploadMemory(notify: bool, suffix: string) returns (path: string, reports: seq<UploadProgress>)
    ensures notify ==> reports == Reports(Done / Step)
    ensures !notify ==> reports == []
    ensures StartsWith(path, MemoriesPrefix) && path[|MemoriesPrefix|..] == suffix
  {
    var progress := 0;
    reports := [];
    while progress < Done
      invariant 0 <= progress <= Done && progress % Step == 0
      invariant reports == if notify then Reports(progress / Step) else []
    {
      progress := progress + Step;
      if notify {
        reports := reports + [UploadProgress(progress, StatusFor(progress))];
      }
    }
    path := MemoriesPrefix + suffix;
  }

  /**
   * A listener hears exactly 20, 40, 60, 80 and 100, strictly increasing and never past
   * 100, with "uploading" below 60, "optimizing" below 90, "securing" after, and never
   * "complete".
   */
  lemma ReportsOfUpload()
    ensures |Reports(Done / Step)| == 5
    ensures forall i :: 0 <= i < 5 ==> Reports(Done / Step)[i].progress == Step * (i + 1)
    ensures forall i, j :: 0 <= i < j < 5 ==> Reports(Done / Step)[i].progress < Reports(Done / Step)[j].progress
    ensures forall i :: 0 <= i < 5 ==> Reports(Done / Step)[i].progress <= Done
    ensures forall i :: 0 <= i < 5 ==> Reports(Done / Step)[i].status != Complete
    ensures Reports(Done / Step)[0].status == Uploading && Reports(Done / Step)[1].status == Uploading
    ensures Reports(Done / Step)[2].status == Optimizing && Reports(Done / Step)[3].status == Optimizing
    ensures Reports(Done / Step)[4].status == Securing
  {
    ReportsProgress(5);
  }

  /** Tick `i` reports `20 * (i + 1)` with the status for that value. */
  lemma {:induction false} ReportsProgress(ticks: nat)
    ensures forall i :: 0 <= i < ticks ==>
      Reports(ticks)[i] == UploadProgress(Step * (i + 1), StatusFor(Step * (i + 1)))
  {
    if ticks > 0 {
      ReportsProgress(ticks - 1);
    }
  }

  /** The status never reads "complete", and tracks the thresholds 60 and 90. */
  lemma StatusThresholds(progress: nat)
    ensures StatusFor(progress) != Complete
    ensures StatusFor(progress) == Uploading <==> progress < 60
    ensures StatusFor(progress) == Securing <==> progress >= 90
  {
  }

  const SecureUrlPrefix := "https://picsum.photos/seed/"
  const SecureUrlSuffix := "/800/450"

  /** `getSecureUrl(path)` */
  function GetSecureUrl(path: string): string
  {
    SecureUrlPrefix + path + SecureUrlSuffix
  }

  /** The path a secure URL was made from, when it has the URL's shape. */
  function PathOf(url: string): string
  {
    if |url| >= |SecureUrlPrefix| + |SecureUrlSuffix| then url[|SecureUrlPrefix|..|url| - |SecureUrlSuffix|] else url
  }

  /** The path can be read back from the URL, so different paths give different URLs. */
  lemma SecureUrlRoundTrip(path: string, other: string)
    ensures PathOf(GetSecureUrl(path)) == path
    ensures StartsWith(GetSecureUrl(path), SecureUrlPrefix)
    ensures path != other ==> GetSecureUrl(path) != GetSecureUrl(other)
  {
    var u := GetSecureUrl(path);
    assert u[|SecureUrlPrefix|..|u| - |SecureUrlSuffix|] == path;
    assert u[..|SecureUrlPrefix|] == SecureUrlPrefix;
    var v := GetSecureUrl(other);
    assert v[|SecureUrlPrefix|..|v| - |SecureUrlSuffix|] == other;
  }
}
