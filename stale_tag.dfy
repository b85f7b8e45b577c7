/**
 * The asset staleness predicates and the "Stale" tag of `StaleTag.tsx`.
 * The predicates are JavaScript `&&` chains, so they return a JavaScript value
 * (possibly `undefined`, `null` or `""`), and callers use its truthiness.
 */
module StaleTag {
  import opened Optional
  import opened Js

  /** The two fields of an asset's live data that the predicates read. */
  datatype LiveData = LiveData(
    currentLogicalVersion: Option<string>,
    projectedLogicalVersion: Option<string>)

  /** The logical version of source assets never observed and of assets materialized before versions existed. */
  const Initial: string := "INITIAL"

  /** `isAssetMissing`: live data is present and the asset has never materialized. */
  function IsAssetMissing(liveData: Option<LiveData>): (v: JsValue)
    ensures Truthy(v) <==> liveData.Some? && liveData.value.currentLogicalVersion.None?
    ensures liveData.None? ==> v == Undefined
  {
    match liveData
    case None => Undefined
    case Some(d) => Bool(d.currentLogicalVersion.None?)
  }

  /** `isAssetStale`: the `&&` chain over the projected and current logical versions. */
  function IsAssetStale(liveData: Option<LiveData>): (v: JsValue)
    ensures Truthy(v) <==>
      liveData.Some? &&
      TruthyString(liveData.value.projectedLogicalVersion) &&
      liveData.value.currentLogicalVersion.Some? &&
      liveData.value.currentLogicalVersion.value != Initial &&
      liveData.value.currentLogicalVersion != liveData.value.projectedLogicalVersion
    ensures liveData.None? ==> v == Undefined
  {
    match liveData
    case None => Undefined
    case Some(d) =>
      And(And(And(FromNullable(d.projectedLogicalVersion),
                  Bool(d.currentLogicalVersion != None)),
              Bool(d.currentLogicalVersion != Some(Initial))),
          Bool(d.currentLogicalVersion != d.projectedLogicalVersion))
  }

  /** What the component renders: the tag's label and whether it is interactive. */
  datatype Tag = Tag(text: string, interactive: bool)

  /** `StaleTag`: a "Stale" tag exactly when the asset is stale, else nothing. */
  function StaleTagView(liveData: Option<LiveData>, hasOnClick: bool): (r: Option<Tag>)
    ensures r.Some? <==> Truthy(IsAssetStale(liveData))
    ensures r.Some? ==> r.value.text == "Stale" && r.value.interactive == hasOnClick
  {
    if Truthy(IsAssetStale(liveData)) then Some(Tag("Stale", hasOnClick)) else None
  }

  // ---------------------------------------------------------------------------
  // Properties of the predicates.
  // ---------------------------------------------------------------------------

  /** Without live data the asset is neither missing nor stale. */
  lemma NoLiveDataNeitherMissingNorStale()
    ensures !Truthy(IsAssetMissing(None)) && !Truthy(IsAssetStale(None))
  {
  }

  /** A stale asset is never a missing one. */
  lemma StaleImpliesNotMissing(liveData: Option<LiveData>)
    ensures Truthy(IsAssetStale(liveData)) ==> !Truthy(IsAssetMissing(liveData))
  {
  }

  /** An asset whose current version is `INITIAL` is never stale. */
  lemma InitialIsNeverStale(projected: Option<string>)
    ensures !Truthy(IsAssetStale(Some(LiveData(Some(Initial), projected))))
  {
  }

  /** A partitioned asset (no projected version, or an empty one), or an up-to-date one, is never stale. */
  lemma NoProjectionOrSameVersionIsNeverStale(liveData: LiveData)
    requires liveData.projectedLogicalVersion in {None, Some("")} ||
             liveData.currentLogicalVersion == liveData.projectedLogicalVersion
    ensures !Truthy(IsAssetStale(Some(liveData)))
  {
  }

  /** The examples: v2 against v3 is stale, INITIAL against v3 is not, a null current version is missing and not stale. */
  lemma StalenessExamples()
    ensures Truthy(IsAssetStale(Some(LiveData(Some("v2"), Some("v3")))))
    ensures !Truthy(IsAssetStale(Some(LiveData(Some("INITIAL"), Some("v3")))))
    ensures Truthy(IsAssetMissing(Some(LiveData(None, Some("v3")))))
    ensures !Truthy(IsAssetStale(Some(LiveData(None, Some("v3")))))
  {
  }
}
