/**
 * The row model of `VirtualizedAssetTable`: each group of assets, keyed by a
 * path, becomes either a folder row or a single asset row, and each row's
 * type, repository address and set of wipeable assets is derived from it.
 */
module VirtualizedAssetTable {
  import opened Optional

  /** The repository an asset definition belongs to. */
  datatype AssetDefinition = AssetDefinition(repositoryName: string, repositoryLocationName: string)

  /** An asset of the table: its key path and, for software-defined assets, its definition. */
  datatype Asset = Asset(keyPath: seq<string>, definition: Option<AssetDefinition>)

  /** One entry of `groups`: the parsed key and the assets under it. */
  datatype Group = Group(key: seq<string>, assets: seq<Asset>)

  datatype Row =
    | AssetRow(path: seq<string>, asset: Asset)
    | FolderRow(path: seq<string>, assets: seq<Asset>)

  /** The `type` passed to a row: 'folder', 'asset' or 'asset_non_sda'. */
  datatype RowType = Folder | AssetWithDefinition | AssetNonSda

  /** `Array.prototype.join` on strings. */
  function Join(parts: seq<string>, separator: string): (s: string)
    ensures |parts| == 1 ==> s == parts[0]
    ensures |parts| == 0 ==> s == ""
  {
    if |parts| == 0 then ""
    else if |parts| == 1 then parts[0]
    else parts[0] + separator + Join(parts[1..], separator)
  }

  /**
   * The row built for one group: a folder unless the group holds exactly one
   * asset whose key path, joined by '/', is the row's path joined by '/'.
   * An empty group makes the source dereference `assets[0]` of an empty array,
   * so every group must hold an asset.
   */
  function BuildRow(prefixPath: seq<string>, group: Group): (row: Row)
    requires |group.assets| > 0
    ensures row.path == prefixPath + group.key
    ensures |group.assets| > 1 ==> row.FolderRow?
    ensures row.AssetRow? <==>
      |group.assets| == 1 && Join(prefixPath + group.key, "/") == Join(group.assets[0].keyPath, "/")
    ensures row.AssetRow? ==> row.asset == group.assets[0]
    ensures row.FolderRow? ==> row.assets == group.assets
  {
    var path := prefixPath + group.key;
    var isFolder := |group.assets| > 1 || Join(path, "/") != Join(group.assets[0].keyPath, "/");
    if isFolder then FolderRow(path, group.assets) else AssetRow(path, group.assets[0])
  }

  /** `rows`: one row per group, in key order. */
  function Rows(prefixPath: seq<string>, groups: seq<Group>): (rows: seq<Row>)
    requires forall i | 0 <= i < |groups| :: |groups[i].assets| > 0
    ensures |rows| == |groups|
    ensures forall i | 0 <= i < |groups| :: rows[i] == BuildRow(prefixPath, groups[i])
  {
    if |groups| == 0 then []
    else [BuildRow(prefixPath, groups[0])] + Rows(prefixPath, groups[1..])
  }

  /** `rowType`: folders are 'folder'; asset rows are 'asset' when the asset has a definition. */
  function RowTypeOf(row: Row): (t: RowType)
    ensures t == Folder <==> row.FolderRow?
    ensures t == AssetWithDefinition <==> row.AssetRow? && row.asset.definition.Some?
  {
    if row.FolderRow? then Folder
    else if row.asset.definition.Some? then AssetWithDefinition
    else AssetNonSda
  }

  /**
   * `repoAddress`: the address `buildRepoAddress` gives the asset's defining
   * repository, or null for folders and assets without a definition.
   * `buildRepoAddress` is not part of this model and is passed in.
   */
  function RepoAddressOf<A>(row: Row, buildRepoAddress: (string, string) -> A): (r: Option<A>)
    ensures r.None? <==> row.FolderRow? || row.asset.definition.None?
    ensures r.Some? ==>
      r.value == buildRepoAddress(row.asset.definition.value.repositoryName,
                                  row.asset.definition.value.repositoryLocationName)
  {
    if row.FolderRow? || row.asset.definition.None? then None
    else
      var repository := row.asset.definition.value;
      Some(buildRepoAddress(repository.repositoryName, repository.repositoryLocationName))
  }

  /** `wipeableAssets`: the folder's assets, or the one asset of an asset row. */
  function WipeableAssets(row: Row): (assets: seq<Asset>)
    ensures row.AssetRow? ==> assets == [row.asset]
    ensures row.FolderRow? ==> assets == row.assets
  {
    match row
    case FolderRow(_, assets) => assets
    case AssetRow(_, asset) => [asset]
  }

  // ---------------------------------------------------------------------------
  // Properties of the rows.
  // ---------------------------------------------------------------------------

  /** Wiping a row wipes exactly the assets of its group, folder or not. */
  lemma WipeableAssetsAreTheGroup(prefixPath: seq<string>, group: Group)
    requires |group.assets| > 0
    ensures WipeableAssets(BuildRow(prefixPath, group)) == group.assets
  {
  }

  /** An asset row is exactly a row with a repository address, whatever `buildRepoAddress` does. */
  lemma RepoAddressIffDefinedAsset<A>(row: Row, buildRepoAddress: (string, string) -> A)
    ensures RepoAddressOf(row, buildRepoAddress).Some? <==> RowTypeOf(row) == AssetWithDefinition
  {
  }

  /** A single asset whose key path is the row's path gives an asset row carrying that asset. */
  lemma MatchingSingleAssetIsAssetRow(prefixPath: seq<string>, key: seq<string>, asset: Asset)
    requires asset.keyPath == prefixPath + key
    ensures BuildRow(prefixPath, Group(key, [asset])) == AssetRow(prefixPath + key, asset)
  {
  }

  /**
   * The test compares joined strings, not paths: a one-segment key "a/b" and an
   * asset keyed ["a", "b"] give an asset row although the paths differ.
   */
  lemma JoinedComparisonMergesSlashes()
    ensures var asset := Asset(["a", "b"], None);
      BuildRow([], Group(["a/b"], [asset])) == AssetRow(["a/b"], asset)
  {
  }
}
