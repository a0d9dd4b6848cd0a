/** The portable board archive: what `build_zip` writes, `read_zip` accepts.

    An archive is the list of its entries: name, the size its directory declares, and the bytes
    the entry expands to. JSON text, SHA-256 and UUID syntax are parameters. */
module Archive {
  import opened Wrappers
  import opened Replay
  import opened BoardJson
  import opened KeyMapping

  const MAX_ENTRIES: nat := 10_000
  const MAX_MANIFEST_BYTES: nat := 16 * 1024 * 1024
  const MAX_YRS_FILE_BYTES: nat := 256 * 1024 * 1024
  const MAX_ASSET_BYTES: nat := 2 * 1024 * 1024 * 1024
  const MAX_UNCOMPRESSED_BYTES: nat := 4 * 1024 * 1024 * 1024
  const U64_LIMIT: nat := 0x1_0000_0000_0000_0000

  datatype Codec = Codec(
    encode: Json -> Bytes, decode: Bytes -> Option<Json>, sha256Hex: Bytes -> string, isUuid: string -> bool)

  datatype Entry = Entry(name: string, declared: nat, body: Bytes)

  datatype ReadError =
    | TooManyEntries | DuplicateEntry | SizeOverflow | ArchiveTooLarge | UnknownEntry
    | EntryTooLarge | EntryExpanded | BadManifest | UnsafeKey | MissingManifest

  datatype Imported = Imported(manifest: Json, assets: seq<Asset>, update: Option<Bytes>, vector: Option<Bytes>)

  // ---- keys ----

  /** `split('/')` */
  function Split(s: string): (parts: seq<string>)
    ensures parts != []
  {
    if s == [] then [""]
    else
      var rest := Split(s[1..]);
      if s[0] == '/' then [""] + rest else [[s[0]] + rest[0]] + rest[1..]
  }

  /** `validate_object_key` */
  predicate SafeKey(key: string) {
    && key != "" && key[0] != '/' && '\\' !in key
    && "" !in Split(key) && "." !in Split(key) && ".." !in Split(key)
  }

  /** `is_dir` */
  predicate IsDir(name: string) {
    name != "" && (name[|name| - 1] == '/' || name[|name| - 1] == '\\')
  }

  lemma {:induction false} TrailingSlashIsEmptyPart(s: string)
    requires s != "" && s[|s| - 1] == '/'
    ensures "" in Split(s)
  {
    var rest := Split(s[1..]);
    if |s| == 1 {
      assert Split(s)[0] == "";
    } else {
      TrailingSlashIsEmptyPart(s[1..]);
      if s[0] != '/' {
        LastPartSurvives(s);
      }
    }
  }

  /** Prepending to the first part leaves an empty last part, because a string that ends in a
      slash has at least two. */
  lemma {:induction false} LastPartSurvives(s: string)
    requires |s| > 1 && s[0] != '/' && s[|s| - 1] == '/'
    ensures "" in Split(s)
  {
    LastPart(s[1..]);
    var parts := Split(s);
    assert parts[|parts| - 1] == "";
  }

  lemma {:induction false} LastPart(s: string)
    requires s != "" && s[|s| - 1] == '/'
    ensures |Split(s)| >= 2 && Split(s)[|Split(s)| - 1] == ""
  {
    if |s| > 1 {
      LastPart(s[1..]);
    } else {
      assert Split(s[1..]) == [""];
    }
  }

  function AssetName(key: string): string {
    "assets/" + key
  }

  lemma SafeIsFile(key: string)
    requires SafeKey(key)
    ensures !IsDir(AssetName(key))
  {
    if key[|key| - 1] == '/' {
      TrailingSlashIsEmptyPart(key);
    }
    assert AssetName(key)[|AssetName(key)| - 1] == key[|key| - 1];
  }

  // ---- reading ----

  /** What the loop has gathered. */
  datatype Reader = Reader(
    names: set<string>, total: nat, manifest: Option<Json>, assets: seq<Asset>, update: Option<Bytes>, vector: Option<Bytes>)

  function LimitOf(name: string): Option<nat> {
    if name == "board.json" then Some(MAX_MANIFEST_BYTES)
    else if name == "yrs/state.update" || name == "yrs/state.vector" then Some(MAX_YRS_FILE_BYTES)
    else if HasPrefix(name, "assets/") then Some(MAX_ASSET_BYTES)
    else None
  }

  function Store(c: Codec, r: Reader, e: Entry): Result<Reader, ReadError> {
    if e.name == "board.json" then
      match c.decode(e.body) case None => Failure(BadManifest) case Some(v) => Success(r.(manifest := Some(v)))
    else if e.name == "yrs/state.update" then Success(r.(update := Some(e.body)))
    else if e.name == "yrs/state.vector" then Success(r.(vector := Some(e.body)))
    else
      var key := if HasPrefix(e.name, "assets/") then e.name[|"assets/"|..] else "";
      if !SafeKey(key) then Failure(UnsafeKey) else Success(r.(assets := r.assets + [Asset(key, e.body)]))
  }

  /** One iteration of the loop, checks in the source's order. */
  function ReadEntry(c: Codec, r: Reader, e: Entry): Result<Reader, ReadError> {
    if IsDir(e.name) then Success(r)
    else if e.name in r.names then Failure(DuplicateEntry)
    else if r.total + e.declared >= U64_LIMIT then Failure(SizeOverflow)
    else if r.total + e.declared > MAX_UNCOMPRESSED_BYTES then Failure(ArchiveTooLarge)
    else match LimitOf(e.name)
         case None => Failure(UnknownEntry)
         case Some(limit) =>
           if e.declared > limit then Failure(EntryTooLarge)
           else if |e.body| > limit then Failure(EntryExpanded)
           else Store(c, r.(names := r.names + {e.name}, total := r.total + e.declared), e)
  }

  function ReadUpTo(c: Codec, entries: seq<Entry>, n: nat): Result<Reader, ReadError>
    requires n <= |entries|
  {
    if n == 0 then Success(Reader({}, 0, None, [], None, None))
    else match ReadUpTo(c, entries, n - 1)
         case Failure(e) => Failure(e)
         case Success(r) => ReadEntry(c, r, entries[n - 1])
  }

  function Finish(r: Reader): Result<Imported, ReadError> {
    match r.manifest
    case None => Failure(MissingManifest)
    case Some(m) => Success(Imported(m, r.assets, r.update, r.vector))
  }

  function ReadArchive(c: Codec, entries: seq<Entry>): Result<Imported, ReadError> {
    if |entries| > MAX_ENTRIES then Failure(TooManyEntries)
    else match ReadUpTo(c, entries, |entries|) case Failure(e) => Failure(e) case Success(r) => Finish(r)
  }

  lemma {:induction false} FailedStaysFailed(c: Codec, entries: seq<Entry>, n: nat, m: nat)
    requires n <= m <= |entries| && ReadUpTo(c, entries, n).Failure?
    ensures ReadUpTo(c, entries, m) == ReadUpTo(c, entries, n)
  {
    if n < m {
      FailedStaysFailed(c, entries, n, m - 1);
    }
  }

  /** `read_zip` */
  method ReadZip(c: Codec, entries: seq<Entry>) returns (r: Result<Imported, ReadError>)
    ensures r == ReadArchive(c, entries)
  {
    if |entries| > MAX_ENTRIES { return Failure(TooManyEntries); }
    var reader := Reader({}, 0, None, [], None, None);
    for i := 0 to |entries|
      invariant ReadUpTo(c, entries, i) == Success(reader)
    {
      var next := ReadEntry(c, reader, entries[i]);
      if next.Failure? {
        FailedStaysFailed(c, entries, i + 1, |entries|);
        return Failure(next.error);
      }
      reader := next.value;
    }
    r := Finish(reader);
  }

  // ---- building ----

  function FileEntry(name: string, body: Bytes): Entry {
    Entry(name, |body|, body)
  }

  function AssetEntries(assets: seq<Asset>): seq<Entry> {
    seq(|assets|, i requires 0 <= i < |assets| => FileEntry(AssetName(assets[i].key), assets[i].data))
  }

  function Built(c: Codec, manifest: Json, assets: seq<Asset>, update: Bytes, vector: Bytes): seq<Entry> {
    [FileEntry("board.json", c.encode(manifest)), FileEntry("yrs/state.update", update), FileEntry("yrs/state.vector", vector)]
    + AssetEntries(assets)
  }

  /** `build_zip` */
  method BuildZip(c: Codec, manifest: Json, assets: seq<Asset>, update: Bytes, vector: Bytes) returns (entries: seq<Entry>)
    ensures entries == Built(c, manifest, assets, update, vector)
  {
    entries := [FileEntry("board.json", c.encode(manifest))];
    entries := entries + [FileEntry("yrs/state.update", update)];
    entries := entries + [FileEntry("yrs/state.vector", vector)];
    ghost var head := entries;
    for i := 0 to |assets|
      invariant entries == head + AssetEntries(assets)[..i]
    {
      entries := entries + [FileEntry(AssetName(assets[i].key), assets[i].data)];
    }
    assert AssetEntries(assets)[..|assets|] == AssetEntries(assets);
  }

  // ---- round trip ----

  function AssetBytes(assets: seq<Asset>, n: nat): nat
    requires n <= |assets|
  {
    if n == 0 then 0 else AssetBytes(assets, n - 1) + |assets[n - 1].data|
  }

  function HeadBytes(c: Codec, manifest: Json, update: Bytes, vector: Bytes): nat {
    |c.encode(manifest)| + |update| + |vector|
  }

  predicate HeadFits(c: Codec, manifest: Json, update: Bytes, vector: Bytes) {
    && |c.encode(manifest)| <= MAX_MANIFEST_BYTES && |update| <= MAX_YRS_FILE_BYTES && |vector| <= MAX_YRS_FILE_BYTES
  }

  /** The first n assets have distinct safe keys and admissible sizes, also taken together. */
  predicate AssetsFit(assets: seq<Asset>, n: nat, head: nat)
    requires n <= |assets|
  {
    && (forall i | 0 <= i < n :: SafeKey(assets[i].key) && |assets[i].data| <= MAX_ASSET_BYTES)
    && (forall i, j | 0 <= i < j < n :: assets[i].key != assets[j].key)
    && head + AssetBytes(assets, n) <= MAX_UNCOMPRESSED_BYTES
  }

  function HeadNames(): set<string> {
    {"board.json", "yrs/state.update", "yrs/state.vector"}
  }

  function NamesUpTo(assets: seq<Asset>, n: nat): set<string>
    requires n <= |assets|
  {
    HeadNames() + set i | 0 <= i < n :: AssetName(assets[i].key)
  }

  lemma AssetNameDistinct(k1: string, k2: string)
    requires AssetName(k1) == AssetName(k2)
    ensures k1 == k2
  {
    assert AssetName(k1)[7..] == k1 && AssetName(k2)[7..] == k2;
  }

  lemma AssetNameShape(key: string)
    ensures HasPrefix(AssetName(key), "assets/") && AssetName(key)[7..] == key
    ensures AssetName(key) !in HeadNames() && LimitOf(AssetName(key)) == Some(MAX_ASSET_BYTES)
  {
    assert AssetName(key)[..7] == "assets/";
    assert AssetName(key)[0] == 'a' && "board.json"[0] == 'b' && "yrs/state.update"[0] == 'y' && "yrs/state.vector"[0] == 'y';
  }

  function AfterHead(c: Codec, manifest: Json, update: Bytes, vector: Bytes): Reader {
    Reader(HeadNames(), HeadBytes(c, manifest, update, vector), Some(manifest), [], Some(update), Some(vector))
  }

  lemma HeadRead(c: Codec, manifest: Json, assets: seq<Asset>, update: Bytes, vector: Bytes)
    requires c.decode(c.encode(manifest)) == Some(manifest)
    ensures var r := ReadUpTo(c, Built(c, manifest, assets, update, vector), 3);
            if HeadFits(c, manifest, update, vector)
            then r == Success(AfterHead(c, manifest, update, vector)) else r.Failure?
  {
    var entries := Built(c, manifest, assets, update, vector);
    assert entries[0] == FileEntry("board.json", c.encode(manifest));
    assert entries[1] == FileEntry("yrs/state.update", update);
    assert entries[2] == FileEntry("yrs/state.vector", vector);
    var r0 := Reader({}, 0, None, [], None, None);
    UpToNext(c, entries, 0);
    UpToNext(c, entries, 1);
    UpToNext(c, entries, 2);
    HeadEntryRead(c, r0, entries[0]);
    var r1 := ReadUpTo(c, entries, 1);
    if r1.Success? {
      NamesDiffer();
      HeadEntryRead(c, r1.value, entries[1]);
      var r2 := ReadUpTo(c, entries, 2);
      if r2.Success? {
        HeadEntryRead(c, r2.value, entries[2]);
        assert {"board.json"} + {"yrs/state.update"} + {"yrs/state.vector"} == HeadNames();
        assert |vector| <= MAX_YRS_FILE_BYTES ==> ReadUpTo(c, entries, 3) == Success(AfterHead(c, manifest, update, vector)) by {
          assert r1.value.names == {} + {"board.json"} == {"board.json"};
          assert r2.value.names == {"board.json"} + {"yrs/state.update"};
        }
      }
    }
  }

  lemma UpToNext(c: Codec, entries: seq<Entry>, n: nat)
    requires n < |entries|
    ensures ReadUpTo(c, entries, n + 1) ==
              match ReadUpTo(c, entries, n) case Failure(e) => Failure(e) case Success(r) => ReadEntry(c, r, entries[n])
  {
  }

  lemma NamesDiffer()
    ensures "board.json" != "yrs/state.update" && "board.json" != "yrs/state.vector" && "yrs/state.update" != "yrs/state.vector"
  {
    assert "board.json"[0] == 'b' && "yrs/state.update"[0] == 'y' && "yrs/state.vector"[0] == 'y';
    assert "yrs/state.update"[10] != "yrs/state.vector"[10];
  }

  /** One of the three fixed entries is refused exactly for its size or its JSON. */
  lemma HeadEntryRead(c: Codec, r: Reader, e: Entry)
    requires e.name in HeadNames() && e.name !in r.names && e.declared == |e.body|
    requires r.total <= MAX_MANIFEST_BYTES + 2 * MAX_YRS_FILE_BYTES
    ensures var limit := if e.name == "board.json" then MAX_MANIFEST_BYTES else MAX_YRS_FILE_BYTES;
            var next := ReadEntry(c, r, e);
            if |e.body| <= limit
            then next == Store(c, r.(names := r.names + {e.name}, total := r.total + |e.body|), e) else next.Failure?
  {
    assert "board.json"[|"board.json"| - 1] == 'n';
    assert "yrs/state.update"[|"yrs/state.update"| - 1] == 'e' && "yrs/state.vector"[|"yrs/state.vector"| - 1] == 'r';
    assert !IsDir(e.name);
  }

  /** The reader with one more asset, if its key is safe and new and its size admissible. */
  function Admit(r: Reader, a: Asset): Option<Reader> {
    if SafeKey(a.key) && AssetName(a.key) !in r.names && |a.data| <= MAX_ASSET_BYTES
       && r.total + |a.data| <= MAX_UNCOMPRESSED_BYTES
    then Some(r.(names := r.names + {AssetName(a.key)}, total := r.total + |a.data|, assets := r.assets + [a]))
    else None
  }

  function AdmitUpTo(r: Reader, assets: seq<Asset>, n: nat): Option<Reader>
    requires n <= |assets|
  {
    if n == 0 then Some(r)
    else match AdmitUpTo(r, assets, n - 1) case None => None case Some(before) => Admit(before, assets[n - 1])
  }

  /** One archived asset is added exactly if it is admitted; a directory-like name is skipped. */
  lemma AssetRead(c: Codec, r: Reader, a: Asset)
    ensures var next := ReadEntry(c, r, FileEntry(AssetName(a.key), a.data));
            match Admit(r, a)
            case Some(r') => next == Success(r')
            case None => next.Failure? || next == Success(r)
  {
    AssetNameShape(a.key);
    if SafeKey(a.key) {
      SafeIsFile(a.key);
    }
  }

  /** The entries after the first three are the assets. */
  predicate HoldsAssets(entries: seq<Entry>, assets: seq<Asset>) {
    && |entries| == 3 + |assets|
    && forall i | 0 <= i < |assets| :: entries[3 + i] == FileEntry(AssetName(assets[i].key), assets[i].data)
  }

  lemma NextAsset(c: Codec, entries: seq<Entry>, assets: seq<Asset>, n: nat, before: Reader) returns (next: Result<Reader, ReadError>)
    requires HoldsAssets(entries, assets) && n < |assets| && ReadUpTo(c, entries, 3 + n) == Success(before)
    ensures next == ReadUpTo(c, entries, 3 + n + 1)
    ensures match Admit(before, assets[n])
            case Some(r') => next == Success(r')
            case None => next.Failure? || next == Success(before)
  {
    UpToNext(c, entries, 3 + n);
    AssetRead(c, before, assets[n]);
    assert entries[3 + n] == FileEntry(AssetName(assets[n].key), assets[n].data);
    next := ReadUpTo(c, entries, 3 + n + 1);
  }

  /** Admitted assets are read one after the other. */
  lemma {:induction false} AdmittedIsRead(c: Codec, entries: seq<Entry>, assets: seq<Asset>, r: Reader, n: nat)
    requires HoldsAssets(entries, assets) && n <= |assets| && ReadUpTo(c, entries, 3) == Success(r)
    requires AdmitUpTo(r, assets, n).Some?
    ensures ReadUpTo(c, entries, 3 + n) == Success(AdmitUpTo(r, assets, n).value)
  {
    if n > 0 {
      AdmitUpToNext(r, assets, n - 1);
      AdmittedIsRead(c, entries, assets, r, n - 1);
      var next := NextAsset(c, entries, assets, n - 1, AdmitUpTo(r, assets, n - 1).value);
    }
  }

  /** No more assets come back than were written; if as many do, all were admitted. */
  lemma {:induction false} ReadIsAdmitted(c: Codec, entries: seq<Entry>, assets: seq<Asset>, r: Reader, n: nat)
    requires HoldsAssets(entries, assets) && n <= |assets| && ReadUpTo(c, entries, 3) == Success(r) && r.assets == []
    requires ReadUpTo(c, entries, 3 + n).Success?
    ensures var got := ReadUpTo(c, entries, 3 + n).value;
            |got.assets| <= n && (|got.assets| == n ==> AdmitUpTo(r, assets, n) == Some(got))
  {
    if n > 0 {
      UpToNext(c, entries, 3 + (n - 1));
      AdmitUpToNext(r, assets, n - 1);
      ReadIsAdmitted(c, entries, assets, r, n - 1);
      var next := NextAsset(c, entries, assets, n - 1, ReadUpTo(c, entries, 3 + (n - 1)).value);
    }
  }

  lemma NewName(assets: seq<Asset>, n: nat)
    requires n < |assets|
    ensures AssetName(assets[n].key) in NamesUpTo(assets, n) <==> exists i :: 0 <= i < n && assets[i].key == assets[n].key
    ensures NamesUpTo(assets, n + 1) == NamesUpTo(assets, n) + {AssetName(assets[n].key)}
  {
    AssetNameShape(assets[n].key);
    if AssetName(assets[n].key) in NamesUpTo(assets, n) {
      var i :| 0 <= i < n && AssetName(assets[i].key) == AssetName(assets[n].key);
      AssetNameDistinct(assets[i].key, assets[n].key);
    }
  }

  lemma FitsPrefix(assets: seq<Asset>, n: nat, head: nat)
    requires n < |assets|
    ensures AssetsFit(assets, n + 1, head) <==>
              AssetsFit(assets, n, head) && SafeKey(assets[n].key) && |assets[n].data| <= MAX_ASSET_BYTES
              && !(exists i :: 0 <= i < n && assets[i].key == assets[n].key)
              && head + AssetBytes(assets, n) + |assets[n].data| <= MAX_UNCOMPRESSED_BYTES
  {
  }

  function WithAssets(r: Reader, assets: seq<Asset>, n: nat): Reader
    requires n <= |assets|
  {
    r.(names := NamesUpTo(assets, n), total := r.total + AssetBytes(assets, n), assets := assets[..n])
  }

  lemma AdmitNext(r: Reader, assets: seq<Asset>, n: nat)
    requires n < |assets| && AssetsFit(assets, n, r.total)
    ensures Admit(WithAssets(r, assets, n), assets[n])
            == if AssetsFit(assets, n + 1, r.total) then Some(WithAssets(r, assets, n + 1)) else None
  {
    FitsPrefix(assets, n, r.total);
    NewName(assets, n);
    assert assets[..n + 1] == assets[..n] + [assets[n]];
  }

  lemma AdmitUpToNext(r: Reader, assets: seq<Asset>, n: nat)
    requires n < |assets|
    ensures AdmitUpTo(r, assets, n + 1) ==
              match AdmitUpTo(r, assets, n) case None => None case Some(before) => Admit(before, assets[n])
  {
  }

  lemma {:induction false} FittingIsAdmitted(r: Reader, assets: seq<Asset>, n: nat)
    requires n <= |assets| && r.names == HeadNames() && r.assets == [] && AssetsFit(assets, n, r.total)
    ensures AdmitUpTo(r, assets, n) == Some(WithAssets(r, assets, n))
  {
    if n == 0 {
      assert NamesUpTo(assets, 0) == HeadNames();
    } else {
      FitsPrefix(assets, n - 1, r.total);
      FittingIsAdmitted(r, assets, n - 1);
      AdmitUpToNext(r, assets, n - 1);
      AdmitNext(r, assets, n - 1);
    }
  }

  lemma {:induction false} UnfittingIsNotAdmitted(r: Reader, assets: seq<Asset>, n: nat)
    requires n <= |assets| && r.names == HeadNames() && r.assets == [] && r.total <= MAX_UNCOMPRESSED_BYTES
    requires !AssetsFit(assets, n, r.total)
    ensures AdmitUpTo(r, assets, n).None?
  {
    AdmitUpToNext(r, assets, n - 1);
    if AssetsFit(assets, n - 1, r.total) {
      FittingIsAdmitted(r, assets, n - 1);
      AdmitNext(r, assets, n - 1);
    } else {
      UnfittingIsNotAdmitted(r, assets, n - 1);
    }
  }

  /** The whole archive is within the reader's limits. */
  predicate Fits(c: Codec, manifest: Json, assets: seq<Asset>, update: Bytes, vector: Bytes) {
    && 3 + |assets| <= MAX_ENTRIES && HeadFits(c, manifest, update, vector)
    && AssetsFit(assets, |assets|, HeadBytes(c, manifest, update, vector))
  }

  /** Reading what export wrote returns the same manifest, both Yrs blobs and the assets in
      order, if and only if the archive is within the limits and its keys are safe and
      distinct. */
  lemma RoundTrip(c: Codec, manifest: Json, assets: seq<Asset>, update: Bytes, vector: Bytes)
    requires c.decode(c.encode(manifest)) == Some(manifest)
    ensures ReadArchive(c, Built(c, manifest, assets, update, vector))
            == Success(Imported(manifest, assets, Some(update), Some(vector)))
            <==> Fits(c, manifest, assets, update, vector)
  {
    if Fits(c, manifest, assets, update, vector) {
      FittingComesBack(c, manifest, assets, update, vector);
    } else {
      UnfittingIsRefused(c, manifest, assets, update, vector);
    }
  }

  lemma BuiltHoldsAssets(c: Codec, manifest: Json, assets: seq<Asset>, update: Bytes, vector: Bytes)
    ensures HoldsAssets(Built(c, manifest, assets, update, vector), assets)
  {
  }

  lemma FittingComesBack(c: Codec, manifest: Json, assets: seq<Asset>, update: Bytes, vector: Bytes)
    requires c.decode(c.encode(manifest)) == Some(manifest) && Fits(c, manifest, assets, update, vector)
    ensures ReadArchive(c, Built(c, manifest, assets, update, vector))
            == Success(Imported(manifest, assets, Some(update), Some(vector)))
  {
    HeadRead(c, manifest, assets, update, vector);
    BuiltHoldsAssets(c, manifest, assets, update, vector);
    AllComeBack(c, Built(c, manifest, assets, update, vector), assets, AfterHead(c, manifest, update, vector), manifest);
  }

  lemma AllComeBack(c: Codec, entries: seq<Entry>, assets: seq<Asset>, r: Reader, manifest: Json)
    requires HoldsAssets(entries, assets) && |entries| <= MAX_ENTRIES && ReadUpTo(c, entries, 3) == Success(r)
    requires r.names == HeadNames() && r.assets == [] && r.total <= MAX_UNCOMPRESSED_BYTES && r.manifest == Some(manifest)
    requires AssetsFit(assets, |assets|, r.total)
    ensures ReadArchive(c, entries) == Success(Imported(manifest, assets, r.update, r.vector))
  {
    FittingIsAdmitted(r, assets, |assets|);
    AdmittedIsRead(c, entries, assets, r, |assets|);
    assert assets[..|assets|] == assets;
    Accepted(c, entries, WithAssets(r, assets, |assets|), manifest);
  }

  lemma Accepted(c: Codec, entries: seq<Entry>, r: Reader, manifest: Json)
    requires |entries| <= MAX_ENTRIES && ReadUpTo(c, entries, |entries|) == Success(r) && r.manifest == Some(manifest)
    ensures ReadArchive(c, entries) == Success(Imported(manifest, r.assets, r.update, r.vector))
  {
  }

  lemma UnfittingIsRefused(c: Codec, manifest: Json, assets: seq<Asset>, update: Bytes, vector: Bytes)
    requires c.decode(c.encode(manifest)) == Some(manifest) && !Fits(c, manifest, assets, update, vector)
    ensures ReadArchive(c, Built(c, manifest, assets, update, vector))
            != Success(Imported(manifest, assets, Some(update), Some(vector)))
  {
    var entries, r := Built(c, manifest, assets, update, vector), AfterHead(c, manifest, update, vector);
    HeadRead(c, manifest, assets, update, vector);
    BuiltHoldsAssets(c, manifest, assets, update, vector);
    if !HeadFits(c, manifest, update, vector) {
      FailedStaysFailed(c, entries, 3, |entries|);
    } else if |entries| <= MAX_ENTRIES && ReadUpTo(c, entries, |entries|).Success? {
      ReadIsAdmitted(c, entries, assets, r, |assets|);
      UnfittingIsNotAdmitted(r, assets, |assets|);
    }
  }

  // ---- any archive ----

  /** Whatever archive is accepted, its assets have distinct safe keys and bounded sizes. */
  predicate Sane(r: Reader) {
    && (forall i | 0 <= i < |r.assets| :: SafeKey(r.assets[i].key) && |r.assets[i].data| <= MAX_ASSET_BYTES)
    && DistinctKeys(r.assets)
    && (forall i | 0 <= i < |r.assets| :: AssetName(r.assets[i].key) in r.names)
  }

  lemma EntryKeepsSane(c: Codec, r: Reader, e: Entry)
    requires Sane(r) && ReadEntry(c, r, e).Success?
    ensures Sane(ReadEntry(c, r, e).value)
  {
    var r' := ReadEntry(c, r, e).value;
    if HasPrefix(e.name, "assets/") && |r'.assets| > |r.assets| {
      assert e.name == AssetName(e.name[7..]);
    }
  }

  lemma {:induction false} ReadKeepsSane(c: Codec, entries: seq<Entry>, n: nat)
    requires n <= |entries| && ReadUpTo(c, entries, n).Success?
    ensures Sane(ReadUpTo(c, entries, n).value)
  {
    if n > 0 {
      ReadKeepsSane(c, entries, n - 1);
      EntryKeepsSane(c, ReadUpTo(c, entries, n - 1).value, entries[n - 1]);
    }
  }

  lemma AcceptedArchivesAreSane(c: Codec, entries: seq<Entry>)
    requires ReadArchive(c, entries).Success?
    ensures var a := ReadArchive(c, entries).value.assets;
            DistinctKeys(a) && forall i | 0 <= i < |a| :: SafeKey(a[i].key) && |a[i].data| <= MAX_ASSET_BYTES
  {
    ReadKeepsSane(c, entries, |entries|);
  }
}
