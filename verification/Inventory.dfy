/** The asset inventory of a version-2 archive: the check import makes, what it decides, and
    the archives export writes. */
module Inventory {
  import opened Wrappers
  import opened Replay
  import opened BoardJson
  import opened KeyMapping
  import opened Archive

  datatype InventoryError =
    | MissingInventory | InvalidKey | UnsafeDeclared | InvalidSize | InvalidDigest | DuplicateDeclared
    | MissingState | MissingMetadata | MissingBoardId | InvalidBoardId | UnsafePreview
    | NotCovering | CountMismatch | Undeclared | IntegrityMismatch | MissingDeclared

  // ---- digests ----

  predicate IsHexDigit(ch: char) {
    '0' <= ch <= '9' || 'a' <= ch <= 'f' || 'A' <= ch <= 'F'
  }

  function Lowered(s: string): string {
    seq(|s|, i requires 0 <= i < |s| => AsciiLower(s[i]))
  }

  /** `digest_matches` */
  predicate DigestMatches(c: Codec, expected: string, data: Bytes) {
    && |expected| == 64 && (forall i | 0 <= i < 64 :: IsHexDigit(expected[i]))
    && Lowered(c.sha256Hex(data)) == Lowered(expected)
  }

  // ---- one declaration ----

  datatype Declaration = Declaration(key: string, size: nat, digest: string)

  /** The fields of one inventory item, in the order they are checked. */
  function Declared(item: Json): Result<Declaration, InventoryError> {
    match GetStr(item, "object_key")
    case None => Failure(InvalidKey)
    case Some(key) =>
      if !SafeKey(key) then Failure(UnsafeDeclared)
      else match GetU64(item, "size")
           case None => Failure(InvalidSize)
           case Some(size) =>
             match GetStr(item, "sha256")
             case None => Failure(InvalidDigest)
             case Some(digest) => Success(Declaration(key, size, digest))
  }

  predicate WellFormed(items: seq<Json>) {
    && (forall i | 0 <= i < |items| :: Declared(items[i]).Success?)
    && (forall i, j | 0 <= i < j < |items| :: Declared(items[i]).value.key != Declared(items[j]).value.key)
  }

  function DeclaredKeys(items: seq<Json>): set<string>
    requires forall i | 0 <= i < |items| :: Declared(items[i]).Success?
  {
    set i | 0 <= i < |items| :: Declared(items[i]).value.key
  }

  // ---- the property ----

  /** What the manifest says of its board: state, board id and preview. */
  datatype Source = Source(state: Json, boards: Boards)

  function SourceOf(c: Codec, manifest: Json): Result<Source, InventoryError> {
    match Get(manifest, "state")
    case None => Failure(MissingState)
    case Some(state) =>
      match Get(manifest, "metadata")
      case Some(Obj(fields)) =>
        (match GetStr(Obj(fields), "board_id")
         case None => Failure(MissingBoardId)
         case Some(id) =>
           if !c.isUuid(id) then Failure(InvalidBoardId)
           else
             var preview := GetStr(Obj(fields), "preview_object_key");
             if preview.Some? && !SafeKey(preview.value) then Failure(UnsafePreview)
             else Success(Source(state, Boards(Some(id), preview, ""))))
      case _ => Failure(MissingMetadata)
  }

  /** Declared, referenced and archived keys are the same set, nothing is declared twice, and
      every archived asset has its declared size and digest. */
  predicate Exact(c: Codec, lower: Lower, manifest: Json, assets: seq<Asset>) {
    && Get(manifest, "assets").Some? && Get(manifest, "assets").value.Arr?
    && var items := Get(manifest, "assets").value.items;
    && WellFormed(items)
    && SourceOf(c, manifest).Success?
    && var source := SourceOf(c, manifest).value;
    && DeclaredKeys(items) == References(lower, source.state, source.boards) == AssetKeys(assets)
    && forall i, j | 0 <= i < |items| && 0 <= j < |assets| && Declared(items[i]).value.key == assets[j].key ::
         Matches(c, Declared(items[i]).value, assets[j])
  }

  predicate Matches(c: Codec, d: Declaration, a: Asset) {
    d.key == a.key && d.size == |a.data| && DigestMatches(c, d.digest, a.data)
  }

  // ---- the check ----

  type Table = map<string, (nat, string)>

  predicate DistinctDeclarations(ds: seq<Declaration>) {
    forall i, j | 0 <= i < j < |ds| :: ds[i].key != ds[j].key
  }

  /** The map holds exactly the given declarations. */
  predicate TableOf(table: Table, ds: seq<Declaration>) {
    && (forall i | 0 <= i < |ds| :: ds[i].key in table && table[ds[i].key] == (ds[i].size, ds[i].digest))
    && (forall k | k in table :: exists i :: 0 <= i < |ds| && ds[i].key == k)
    && DistinctDeclarations(ds)
  }

  predicate DeclaredAs(items: seq<Json>, ds: seq<Declaration>) {
    |ds| <= |items| && forall i | 0 <= i < |ds| :: Declared(items[i]) == Success(ds[i])
  }

  /** First loop: the inventory as a map. */
  method ReadInventory(items: seq<Json>) returns (r: Result<Table, InventoryError>, ghost ds: seq<Declaration>)
    ensures r.Success? <==> WellFormed(items)
    ensures r.Success? ==> |ds| == |items| && DeclaredAs(items, ds) && TableOf(r.value, ds)
    ensures r.Failure? ==> r.error != MissingDeclared
  {
    var table: Table := map[];
    ds := [];
    for n := 0 to |items|
      invariant |ds| == n && DeclaredAs(items, ds) && TableOf(table, ds)
    {
      var d := Declared(items[n]);
      if d.Failure? {
        DeclaredErrors(items[n]);
        return Failure(d.error), ds;
      }
      if d.value.key in table {
        DuplicateIsMalformed(table, items, ds, d.value);
        return Failure(DuplicateDeclared), ds;
      }
      TablePush(table, ds, d.value);
      table := table[d.value.key := (d.value.size, d.value.digest)];
      ds := ds + [d.value];
    }
    AllDeclared(items, ds);
    r := Success(table);
  }

  lemma DeclaredErrors(item: Json)
    ensures Declared(item) != Failure(MissingDeclared)
  {
  }

  lemma AllDeclared(items: seq<Json>, ds: seq<Declaration>)
    requires |ds| == |items| && DeclaredAs(items, ds) && DistinctDeclarations(ds)
    ensures WellFormed(items)
  {
  }

  lemma DuplicateIsMalformed(table: Table, items: seq<Json>, ds: seq<Declaration>, d: Declaration)
    requires |ds| < |items| && DeclaredAs(items, ds) && TableOf(table, ds)
    requires Declared(items[|ds|]) == Success(d) && d.key in table
    ensures !WellFormed(items)
  {
    var i :| 0 <= i < |ds| && ds[i].key == d.key;
    assert Declared(items[i]).value.key == Declared(items[|ds|]).value.key;
  }

  lemma TablePush(table: Table, ds: seq<Declaration>, d: Declaration)
    requires TableOf(table, ds) && d.key !in table
    ensures TableOf(table[d.key := (d.size, d.digest)], ds + [d])
  {
    var after := table[d.key := (d.size, d.digest)];
    forall k | k in after
      ensures exists i :: 0 <= i < |ds + [d]| && (ds + [d])[i].key == k
    {
      if k == d.key {
        assert (ds + [d])[|ds|].key == k;
      } else {
        var i :| 0 <= i < |ds| && ds[i].key == k;
        assert (ds + [d])[i].key == k;
      }
    }
  }

  lemma TableKeys(table: Table, items: seq<Json>, ds: seq<Declaration>)
    requires |ds| == |items| && DeclaredAs(items, ds) && TableOf(table, ds)
    ensures WellFormed(items) && table.Keys == DeclaredKeys(items)
  {
    AllDeclared(items, ds);
    forall k
      ensures k in table <==> k in DeclaredKeys(items)
    {
      if k in table {
        var i :| 0 <= i < |ds| && ds[i].key == k;
        assert Declared(items[i]).value.key == k;
      }
    }
  }

  predicate Found(c: Codec, table: Table, a: Asset) {
    a.key in table && Matches(c, Declaration(a.key, table[a.key].0, table[a.key].1), a)
  }

  ghost predicate Remaining(rest: Table, table: Table, assets: seq<Asset>, n: nat)
    requires n <= |assets|
  {
    && (forall k :: k in rest <==> k in table && forall j | 0 <= j < n :: assets[j].key != k)
    && (forall k | k in rest :: rest[k] == table[k])
  }

  lemma RemainingStep(rest: Table, table: Table, assets: seq<Asset>, n: nat)
    requires n < |assets| && Remaining(rest, table, assets, n) && DistinctKeys(assets)
    ensures assets[n].key in rest <==> assets[n].key in table
    ensures Remaining(rest - {assets[n].key}, table, assets, n + 1)
  {
  }

  /** Second loop: every archived asset removes its declaration. */
  method MatchAssets(c: Codec, table: Table, assets: seq<Asset>) returns (r: Result<(), InventoryError>)
    requires DistinctKeys(assets) && |table| == |assets|
    ensures r.Success? <==> forall j | 0 <= j < |assets| :: Found(c, table, assets[j])
    ensures r != Failure(MissingDeclared)
  {
    var rest := table;
    for n := 0 to |assets|
      invariant Remaining(rest, table, assets, n) && |rest| == |assets| - n
      invariant forall j | 0 <= j < n :: Found(c, table, assets[j])
    {
      var key := assets[n].key;
      RemainingStep(rest, table, assets, n);
      if key !in rest { return Failure(Undeclared); }
      var (size, expected) := rest[key];
      RemoveOne(rest, key);
      rest := rest - {key};
      if size != |assets[n].data| || !DigestMatches(c, expected, assets[n].data) {
        assert !Found(c, table, assets[n]);
        return Failure(IntegrityMismatch);
      }
    }
    if |rest| != 0 { return Failure(MissingDeclared); }
    r := Success(());
  }

  lemma RemoveOne(table: Table, key: string)
    requires key in table
    ensures |table - {key}| == |table| - 1
  {
    assert (table - {key}).Keys == table.Keys - {key};
    assert |(table - {key}).Keys| == |table - {key}| && |table.Keys| == |table|;
  }

  /** `validate_v2_assets`: it accepts exactly the archives whose inventory is exact, and its
      last check, for declarations left over, is never the one that fails. */
  method ValidateV2Assets(c: Codec, lower: Lower, manifest: Json, assets: seq<Asset>) returns (r: Result<(), InventoryError>)
    requires DistinctKeys(assets)
    ensures r.Success? <==> Exact(c, lower, manifest, assets)
    ensures r != Failure(MissingDeclared)
  {
    var declared := Get(manifest, "assets");
    if declared.None? || !declared.value.Arr? { return Failure(MissingInventory); }
    var items := declared.value.items;
    var read;
    ghost var ds;
    read, ds := ReadInventory(items);
    if read.Failure? { return Failure(read.error); }
    var table := read.value;
    TableKeys(table, items, ds);
    var source := SourceOf(c, manifest);
    if source.Failure? {
      SourceErrors(c, manifest);
      return Failure(source.error);
    }
    var referenced := CollectObjectKeys(lower, source.value.state, {});
    referenced := CollectPdfPageKeys(source.value.state, source.value.boards.source.value, referenced);
    if source.value.boards.preview.Some? {
      referenced := referenced + {source.value.boards.preview.value};
    }
    assert referenced == References(lower, source.value.state, source.value.boards);
    AssetKeysSize(assets);
    if referenced != table.Keys { return Failure(NotCovering); }
    if |table| != |assets| {
      assert |table.Keys| == |table|;
      return Failure(CountMismatch);
    }
    r := MatchAssets(c, table, assets);
    TableMatches(c, table, items, ds, assets);
  }

  lemma SourceErrors(c: Codec, manifest: Json)
    ensures SourceOf(c, manifest) != Failure(MissingDeclared)
  {
  }

  lemma {:induction false} AssetKeysSize(assets: seq<Asset>)
    requires DistinctKeys(assets)
    ensures |AssetKeys(assets)| == |assets|
  {
    if assets != [] {
      var front := assets[..|assets| - 1];
      var last := assets[|assets| - 1];
      AssetKeysSize(front);
      assert AssetKeys(assets) == AssetKeys(front) + {last.key};
      assert last.key !in AssetKeys(front);
    }
  }

  /** With as many declarations as assets, matching every asset is exactness. */
  lemma TableMatches(c: Codec, table: Table, items: seq<Json>, ds: seq<Declaration>, assets: seq<Asset>)
    requires DistinctKeys(assets) && |table| == |assets|
    requires |ds| == |items| && DeclaredAs(items, ds) && TableOf(table, ds) && WellFormed(items)
    ensures (forall j | 0 <= j < |assets| :: Found(c, table, assets[j]))
            <==> (DeclaredKeys(items) == AssetKeys(assets)
                  && forall i, j | 0 <= i < |items| && 0 <= j < |assets| && Declared(items[i]).value.key == assets[j].key ::
                       Matches(c, Declared(items[i]).value, assets[j]))
  {
    TableKeys(table, items, ds);
    AssetKeysSize(assets);
    assert |table.Keys| == |table|;
    if forall j | 0 <= j < |assets| :: Found(c, table, assets[j]) {
      assert AssetKeys(assets) <= table.Keys;
      SameSize(AssetKeys(assets), table.Keys);
      FoundMatches(c, table, items, ds, assets);
    } else {
      NotFoundMismatches(c, table, items, ds, assets);
    }
  }

  lemma FoundMatches(c: Codec, table: Table, items: seq<Json>, ds: seq<Declaration>, assets: seq<Asset>)
    requires |ds| == |items| && DeclaredAs(items, ds) && TableOf(table, ds)
    requires forall j | 0 <= j < |assets| :: Found(c, table, assets[j])
    ensures forall i, j | 0 <= i < |items| && 0 <= j < |assets| && Declared(items[i]).value.key == assets[j].key ::
              Matches(c, Declared(items[i]).value, assets[j])
  {
    forall i, j | 0 <= i < |items| && 0 <= j < |assets| && Declared(items[i]).value.key == assets[j].key
      ensures Matches(c, Declared(items[i]).value, assets[j])
    {
      assert Declared(items[i]).value == ds[i] && Found(c, table, assets[j]);
    }
  }

  lemma NotFoundMismatches(c: Codec, table: Table, items: seq<Json>, ds: seq<Declaration>, assets: seq<Asset>)
    requires |ds| == |items| && DeclaredAs(items, ds) && TableOf(table, ds) && WellFormed(items)
    requires table.Keys == DeclaredKeys(items)
    requires exists j :: 0 <= j < |assets| && !Found(c, table, assets[j])
    ensures !(DeclaredKeys(items) == AssetKeys(assets)
              && forall i, j | 0 <= i < |items| && 0 <= j < |assets| && Declared(items[i]).value.key == assets[j].key ::
                   Matches(c, Declared(items[i]).value, assets[j]))
  {
    var j :| 0 <= j < |assets| && !Found(c, table, assets[j]);
    assert assets[j].key in AssetKeys(assets);
    if assets[j].key in table {
      var i :| 0 <= i < |ds| && ds[i].key == assets[j].key;
      assert Declared(items[i]).value == ds[i];
      assert !Matches(c, ds[i], assets[j]);
    }
  }

  lemma SameSize(a: set<string>, b: set<string>)
    requires a <= b && |a| == |b|
    ensures a == b
  {
    assert b == a + (b - a);
    assert |b| == |a| + |b - a|;
    assert b - a == {};
  }

  // ---- export ----

  /** The board fields the manifest carries along. */
  datatype Details = Details(title: Json, gridType: Json, backgroundColor: Json, privacyMode: Json, stickerAuthors: Json)

  function AssetItem(c: Codec, a: Asset): Json {
    Obj([Field("object_key", Str(a.key)), Field("size", Int(|a.data|)), Field("sha256", Str(c.sha256Hex(a.data)))])
  }

  function AssetItems(c: Codec, assets: seq<Asset>): seq<Json> {
    seq(|assets|, i requires 0 <= i < |assets| => AssetItem(c, assets[i]))
  }

  function Metadata(d: Details, board: string, preview: Option<string>): Json {
    Obj([Field("title", d.title), Field("grid_type", d.gridType), Field("background_color", d.backgroundColor),
         Field("privacy_mode", d.privacyMode), Field("sticker_authors", d.stickerAuthors),
         Field("board_id", Str(board)),
         Field("preview_object_key", match preview case Some(key) => Str(key) case None => Null)])
  }

  function ExportManifest(c: Codec, d: Details, board: string, preview: Option<string>, assets: seq<Asset>,
                          canonical: Json, state: Json): Json {
    Obj([Field("version", Int(2)), Field("kind", Str("octaboard.board")), Field("metadata", Metadata(d, board, preview)),
         Field("assets", Arr(AssetItems(c, assets))), Field("canonical", canonical), Field("state", state)])
  }

  /** The assets of an export: every reference once, with its stored bytes. */
  predicate Gathered(lower: Lower, storage: map<string, Bytes>, state: Json, b: Boards, assets: seq<Asset>) {
    && DistinctKeys(assets) && AssetKeys(assets) == References(lower, state, b)
    && forall i | 0 <= i < |assets| :: assets[i].key in storage && storage[assets[i].key] == assets[i].data
  }

  /** The order of strings: by code point, a prefix before its extensions. */
  predicate LexLe(a: string, b: string) {
    a == [] || (b != [] && (a[0] < b[0] || (a[0] == b[0] && LexLe(a[1..], b[1..]))))
  }

  lemma {:induction false} LexTotal(a: string, b: string)
    ensures LexLe(a, b) || LexLe(b, a)
  {
    if a != [] && b != [] && a[0] == b[0] {
      LexTotal(a[1..], b[1..]);
    }
  }

  lemma {:induction false} LexTransitive(a: string, b: string, c: string)
    requires LexLe(a, b) && LexLe(b, c)
    ensures LexLe(a, c)
  {
    if a != [] && b != [] && c != [] && a[0] == b[0] == c[0] {
      LexTransitive(a[1..], b[1..], c[1..]);
    }
  }

  predicate SortedKeys(assets: seq<Asset>) {
    forall i, j | 0 <= i < j < |assets| :: LexLe(assets[i].key, assets[j].key)
  }

  /** The next key of the sorted list. */
  method SmallestKey(keys: set<string>) returns (least: string)
    requires keys != {}
    ensures least in keys && forall k | k in keys :: LexLe(least, k)
  {
    least :| least in keys;
    LexTotal(least, least);
    var rest, seen := keys - {least}, {least};
    while rest != {}
      invariant rest + seen == keys && least in seen && forall k | k in seen :: LexLe(least, k)
      decreases rest
    {
      var k :| k in rest;
      LexTotal(least, k);
      LexTotal(k, k);
      if !LexLe(least, k) {
        forall j | j in seen
          ensures LexLe(k, j)
        {
          LexTransitive(k, least, j);
        }
        least := k;
      }
      rest, seen := rest - {k}, seen + {k};
    }
    assert seen == keys;
  }

  /** `export_board`'s gathering loop over the sorted keys; one missing object fails the whole
      export. */
  method GatherAssets(lower: Lower, storage: map<string, Bytes>, state: Json, board: string, preview: Option<string>)
    returns (r: Option<seq<Asset>>)
    ensures var b := Boards(Some(board), preview, "");
            && (r.Some? <==> References(lower, state, b) <= storage.Keys)
            && (r.Some? ==> Gathered(lower, storage, state, b, r.value) && SortedKeys(r.value))
  {
    var keys := CollectObjectKeys(lower, state, {});
    keys := CollectPdfPageKeys(state, board, keys);
    if preview.Some? {
      keys := keys + {preview.value};
    }
    assert keys == References(lower, state, Boards(Some(board), preview, ""));
    r := DownloadAll(storage, keys);
  }

  /** Every key once, in order, with its stored bytes. */
  method DownloadAll(storage: map<string, Bytes>, all: set<string>) returns (r: Option<seq<Asset>>)
    ensures r.Some? <==> all <= storage.Keys
    ensures r.Some? ==> DistinctKeys(r.value) && AssetKeys(r.value) == all && SortedKeys(r.value)
    ensures r.Some? ==> forall i | 0 <= i < |r.value| :: r.value[i].key in storage && storage[r.value[i].key] == r.value[i].data
  {
    var keys, assets := all, [];
    while keys != {}
      invariant keys !! AssetKeys(assets) && keys + AssetKeys(assets) == all && DistinctKeys(assets) && SortedKeys(assets)
      invariant forall i | 0 <= i < |assets| :: assets[i].key in storage && storage[assets[i].key] == assets[i].data
      invariant forall i, k | 0 <= i < |assets| && k in keys :: LexLe(assets[i].key, k)
      decreases keys
    {
      var key := SmallestKey(keys);
      if key !in storage { return None; }
      AssetPush(assets, Asset(key, storage[key]));
      assets := assets + [Asset(key, storage[key])];
      keys := keys - {key};
    }
    AllStored(storage, assets, all);
    r := Some(assets);
  }

  lemma AllStored(storage: map<string, Bytes>, assets: seq<Asset>, all: set<string>)
    requires AssetKeys(assets) == all && forall i | 0 <= i < |assets| :: assets[i].key in storage
    ensures all <= storage.Keys
  {
    forall k | k in all
      ensures k in storage
    {
      var i :| 0 <= i < |assets| && assets[i].key == k;
    }
  }

  lemma AssetPush(assets: seq<Asset>, a: Asset)
    ensures AssetKeys(assets + [a]) == AssetKeys(assets) + {a.key}
    ensures DistinctKeys(assets) && a.key !in AssetKeys(assets) ==> DistinctKeys(assets + [a])
  {
    var after := assets + [a];
    forall k
      ensures k in AssetKeys(after) <==> k in AssetKeys(assets) || k == a.key
    {
      if k in AssetKeys(assets) {
        var i :| 0 <= i < |assets| && assets[i].key == k;
        assert after[i].key == k;
      }
      if k == a.key {
        assert after[|assets|].key == k;
      }
    }
    if DistinctKeys(assets) && a.key !in AssetKeys(assets) {
      forall i, j | 0 <= i < j < |after|
        ensures after[i].key != after[j].key
      {
        assert after[i].key in AssetKeys(assets);
      }
    }
  }

  lemma ManifestFields(c: Codec, d: Details, board: string, preview: Option<string>, assets: seq<Asset>, canonical: Json, state: Json)
    ensures var m := ExportManifest(c, d, board, preview, assets, canonical, state);
            && Get(m, "metadata") == Some(Metadata(d, board, preview))
            && Get(m, "assets") == Some(Arr(AssetItems(c, assets)))
            && Get(m, "state") == Some(state)
  {
    var f := ExportManifest(c, d, board, preview, assets, canonical, state).fields;
    assert "version"[0] == 'v' && "kind"[0] == 'k' && "metadata"[0] == 'm' && "assets"[0] == 'a' && "canonical"[0] == 'c' && "state"[0] == 's';
    FindAt(f, "metadata", 2);
    FindAt(f, "assets", 3);
    FindAt(f, "state", 5);
  }

  /** Looking a name up in a list whose first n fields have other names. */
  lemma {:induction false} FindAt(fields: seq<Field>, name: string, n: nat)
    requires n < |fields| && fields[n].name == name && forall i | 0 <= i < n :: fields[i].name != name
    ensures Lookup(fields, name) == Some(fields[n].value)
  {
    if n > 0 {
      FindAt(fields[1..], name, n - 1);
    }
  }

  lemma MetadataFields(d: Details, board: string, preview: Option<string>)
    ensures var m := Metadata(d, board, preview);
            GetStr(m, "board_id") == Some(board) && GetStr(m, "preview_object_key") == preview
  {
    var f := Metadata(d, board, preview).fields;
    MetadataNames();
    FindAt(f, "board_id", 5);
    FindAt(f, "preview_object_key", 6);
  }

  lemma MetadataNames()
    ensures forall n | n in ["title", "grid_type", "background_color", "privacy_mode", "sticker_authors"] ::
              n != "board_id" && n != "preview_object_key"
    ensures "board_id" != "preview_object_key"
  {
    assert "title"[0] == 't' && "grid_type"[0] == 'g' && "background_color"[1] == 'a' && "sticker_authors"[0] == 's';
    assert "privacy_mode"[2] == 'i' && "preview_object_key"[2] == 'e' && "board_id"[0] == 'b' && "board_id"[1] == 'o';
    assert "privacy_mode"[0] == 'p' && "preview_object_key"[0] == 'p';
  }

  lemma ItemFields(c: Codec, a: Asset)
    requires |a.data| < 0x1_0000_0000_0000_0000
    ensures Declared(AssetItem(c, a))
            == if SafeKey(a.key) then Success(Declaration(a.key, |a.data|, c.sha256Hex(a.data))) else Failure(UnsafeDeclared)
  {
    var f := AssetItem(c, a).fields;
    assert "object_key"[0] == 'o' && "size"[1] == 'i' && "sha256"[1] == 'h' && "size"[0] == 's';
    FindAt(f, "object_key", 0);
    FindAt(f, "size", 1);
    FindAt(f, "sha256", 2);
  }

  /** SHA-256 in hex: 64 digits. */
  ghost predicate HexDigests(c: Codec) {
    forall data: Bytes :: |c.sha256Hex(data)| == 64 && forall i | 0 <= i < 64 :: IsHexDigit(c.sha256Hex(data)[i])
  }

  lemma ItemsDeclared(c: Codec, assets: seq<Asset>)
    requires forall i | 0 <= i < |assets| :: SafeKey(assets[i].key) && |assets[i].data| < 0x1_0000_0000_0000_0000
    requires DistinctKeys(assets)
    ensures var items := AssetItems(c, assets);
            && WellFormed(items) && DeclaredKeys(items) == AssetKeys(assets)
            && forall i | 0 <= i < |assets| ::
                 Declared(items[i]) == Success(Declaration(assets[i].key, |assets[i].data|, c.sha256Hex(assets[i].data)))
  {
    forall i | 0 <= i < |assets|
      ensures Declared(AssetItems(c, assets)[i]) == Success(Declaration(assets[i].key, |assets[i].data|, c.sha256Hex(assets[i].data)))
    {
      ItemFields(c, assets[i]);
    }
  }

  lemma ExportSource(c: Codec, d: Details, board: string, preview: Option<string>, assets: seq<Asset>, canonical: Json, state: Json)
    requires c.isUuid(board) && (preview.Some? ==> SafeKey(preview.value))
    ensures SourceOf(c, ExportManifest(c, d, board, preview, assets, canonical, state))
            == Success(Source(state, Boards(Some(board), preview, "")))
  {
    ManifestFields(c, d, board, preview, assets, canonical, state);
    MetadataFields(d, board, preview);
  }

  /** The inventory export writes passes import's check. */
  lemma ExportIsExact(c: Codec, lower: Lower, d: Details, board: string, preview: Option<string>, assets: seq<Asset>,
                      canonical: Json, state: Json)
    requires c.isUuid(board) && HexDigests(c) && DistinctKeys(assets)
    requires AssetKeys(assets) == References(lower, state, Boards(Some(board), preview, ""))
    requires forall i | 0 <= i < |assets| :: SafeKey(assets[i].key) && |assets[i].data| < 0x1_0000_0000_0000_0000
    ensures Exact(c, lower, ExportManifest(c, d, board, preview, assets, canonical, state), assets)
  {
    ItemsDeclared(c, assets);
    ManifestFields(c, d, board, preview, assets, canonical, state);
    if preview.Some? {
      assert preview.value in AssetKeys(assets);
    }
    ExportSource(c, d, board, preview, assets, canonical, state);
    MatchingPairs(c, assets);
  }

  lemma MatchingPairs(c: Codec, assets: seq<Asset>)
    requires HexDigests(c) && DistinctKeys(assets)
    requires forall i | 0 <= i < |assets| :: SafeKey(assets[i].key) && |assets[i].data| < 0x1_0000_0000_0000_0000
    ensures WellFormed(AssetItems(c, assets))
    ensures var items := AssetItems(c, assets);
            forall i, j | 0 <= i < |items| && 0 <= j < |assets| && Declared(items[i]).value.key == assets[j].key ::
              Matches(c, Declared(items[i]).value, assets[j])
  {
    ItemsDeclared(c, assets);
    forall i, j | 0 <= i < |assets| && 0 <= j < |assets| && assets[i].key == assets[j].key
      ensures Matches(c, Declared(AssetItems(c, assets)[i]).value, assets[j])
    {
      assert i == j;
      OwnDigest(c, assets[j].data);
    }
  }

  lemma OwnDigest(c: Codec, data: Bytes)
    requires HexDigests(c)
    ensures DigestMatches(c, c.sha256Hex(data), data)
  {
  }

  /** Export, read back, check, import: a board whose objects are safely named, not empty and
      within the limits arrives whole. What was read is what was written, the check accepts it,
      and the rewritten state refers to exactly the uploaded objects, renamed one to one. */
  lemma {:induction false} ExportedBoardImportsWhole(c: Codec, lower: Lower, d: Details, board: string, preview: Option<string>,
                                  assets: seq<Asset>, canonical: Json, state: Json, update: Bytes, vector: Bytes,
                                  target: string, uuids: seq<string>)
    requires AsciiCorrect(lower) && HexDigests(c) && c.isUuid(board) && board != ""
    requires DistinctKeys(assets) && |uuids| == |assets| && FreshIds(uuids)
    requires AssetKeys(assets) == References(lower, state, Boards(Some(board), preview, ""))
    requires forall i | 0 <= i < |assets| :: assets[i].data != []
    requires preview.Some? ==> preview.value !in PdfKeys(state, board)
    requires var m := ExportManifest(c, d, board, preview, assets, canonical, state);
             c.decode(c.encode(m)) == Some(m) && Fits(c, m, assets, update, vector)
    ensures var m := ExportManifest(c, d, board, preview, assets, canonical, state);
            var b := Boards(Some(board), preview, target);
            var keys := KeyMap(b, assets, uuids, |assets|);
            && ReadArchive(c, Built(c, m, assets, update, vector)) == Success(Imported(m, assets, Some(update), Some(vector)))
            && Exact(c, lower, m, assets)
            && Injective(keys) && Under(keys.Values, target)
            && References(lower, Rewritten(lower, state, b, keys),
                          Boards(Some(target), if preview.Some? then Some(PreviewKey(b)) else None, target)) == keys.Values
  {
    var m := ExportManifest(c, d, board, preview, assets, canonical, state);
    var b := Boards(Some(board), preview, target);
    RoundTrip(c, m, assets, update, vector);
    ExportIsExact(c, lower, d, board, preview, assets, canonical, state);
    assert References(lower, state, b) == References(lower, state, Boards(Some(board), preview, ""));
    ImportPreservesReferences(lower, state, b, assets, uuids);
  }
}
