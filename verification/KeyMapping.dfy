/** Import gives every archived asset a key under the new board and points the state at it. */
module KeyMapping {
  import opened Wrappers
  import opened Replay
  import opened BoardJson

  datatype Asset = Asset(key: string, data: Bytes)

  /** What the manifest says of the old board, and the id of the new one. */
  datatype Boards = Boards(source: Option<string>, preview: Option<string>, target: string)

  function Home(board: string): string {
    "boards/" + board + "/"
  }

  function PdfPrefix(board: string): string {
    Home(board) + "pdf/"
  }

  /** `rsplit('.').next()` */
  function AfterLastDot(s: string): string {
    if s == [] || s[|s| - 1] == '.' then [] else AfterLastDot(s[..|s| - 1]) + [s[|s| - 1]]
  }

  /** `str::len`: the length in UTF-8 bytes. */
  function Utf8Len(s: string): nat {
    if s == [] then 0
    else
      var c := s[0] as int;
      (if c < 0x80 then 1 else if c < 0x800 then 2 else if c < 0x1_0000 then 3 else 4) + Utf8Len(s[1..])
  }

  function Extension(key: string): string {
    var ext := AfterLastDot(key);
    if ext != "" && Utf8Len(ext) <= 8 && '/' !in ext then ext else "bin"
  }

  /** Which of the three rules a key falls under. */
  datatype Rule = Preview | Page | Media

  function RuleOf(b: Boards, key: string): Rule {
    if b.preview == Some(key) then Preview
    else if b.source.Some? && HasPrefix(key, PdfPrefix(b.source.value)) then Page
    else Media
  }

  /** The part of the new key below the new board. */
  function NewName(b: Boards, key: string, uuid: string): string {
    match RuleOf(b, key)
    case Preview => "preview.png"
    case Page => "pdf/" + key[|PdfPrefix(b.source.value)|..]
    case Media => uuid + "." + Extension(key)
  }

  function NewKey(b: Boards, key: string, uuid: string): string {
    Home(b.target) + NewName(b, key, uuid)
  }

  function PreviewKey(b: Boards): string {
    Home(b.target) + "preview.png"
  }

  function NewKeys(b: Boards, assets: seq<Asset>, uuids: seq<string>): seq<string>
    requires |assets| == |uuids|
  {
    seq(|assets|, i requires 0 <= i < |assets| => NewKey(b, assets[i].key, uuids[i]))
  }

  /** The mapping built from the first n assets; empty ones are skipped. */
  function MapAssets(assets: seq<Asset>, targets: seq<string>, n: nat): map<string, string>
    requires n <= |assets| == |targets|
  {
    if n == 0 then map[]
    else
      var before := MapAssets(assets, targets, n - 1);
      if assets[n - 1].data == [] then before else before[assets[n - 1].key := targets[n - 1]]
  }

  function KeyMap(b: Boards, assets: seq<Asset>, uuids: seq<string>, n: nat): map<string, string>
    requires n <= |assets| == |uuids|
  {
    MapAssets(assets, NewKeys(b, assets, uuids), n)
  }

  predicate DistinctKeys(assets: seq<Asset>) {
    forall i, j | 0 <= i < j < |assets| :: assets[i].key != assets[j].key
  }

  predicate Under(keys: set<string>, board: string) {
    forall k | k in keys :: HasPrefix(k, Home(board))
  }

  /** The upload loop over the new keys. `uploads[i]` is whether storing asset i works; a
      failure removes what was stored before it, except keys in `stuck`, whose deletion fails. */
  method StoreAssets(assets: seq<Asset>, targets: seq<string>, preview: Option<string>, uploads: seq<bool>,
                     stored: set<string>, stuck: set<string>)
    returns (keys: Option<map<string, string>>, newPreview: Option<string>, after: set<string>)
    requires |assets| == |targets| == |uploads| && DistinctKeys(assets)
    requires forall i | 0 <= i < |targets| :: targets[i] !in stored
    ensures keys.Some? <==> forall i | 0 <= i < |assets| && assets[i].data != [] :: uploads[i]
    ensures keys.Some? ==> keys.value == MapAssets(assets, targets, |assets|) && after == stored + keys.value.Values
    ensures keys.Some? ==>
              newPreview == if preview.Some? && preview.value in keys.value then Some(keys.value[preview.value]) else None
    ensures keys.None? ==> exists n: nat :: FailedAt(assets, uploads, n)
                             && after == stored + (MapAssets(assets, targets, n).Values * stuck)
  {
    var m: map<string, string> := map[];
    newPreview, after := None, stored;
    for i := 0 to |assets|
      invariant m == MapAssets(assets, targets, i) && after == stored + m.Values && stored !! m.Values
      invariant forall j | 0 <= j < i && assets[j].data != [] :: uploads[j]
      invariant newPreview == if preview.Some? && preview.value in m then Some(m[preview.value]) else None
    {
      if assets[i].data == [] { continue; }
      if !uploads[i] {
        assert FailedAt(assets, uploads, i);
        return None, newPreview, after - (m.Values - stuck);
      }
      KeyIsNew(assets, targets, i);
      PutValue(m, assets[i].key, targets[i]);
      after := after + {targets[i]};
      if preview == Some(assets[i].key) {
        newPreview := Some(targets[i]);
      }
      m := m[assets[i].key := targets[i]];
    }
    keys := Some(m);
  }

  /** The first upload that fails. */
  predicate FailedAt(assets: seq<Asset>, uploads: seq<bool>, n: nat)
    requires |uploads| == |assets|
  {
    n < |assets| && assets[n].data != [] && !uploads[n]
    && forall j | 0 <= j < n && assets[j].data != [] :: uploads[j]
  }

  /** The mapping loop of an import into storage that holds nothing of the new board: if all
      uploads work the storage gains exactly the new keys; if one fails it is as it was, but for
      keys uploaded before the failure whose deletion failed too. */
  method ImportAssets(b: Boards, assets: seq<Asset>, uuids: seq<string>, uploads: seq<bool>, stored: set<string>, stuck: set<string>)
    returns (keys: Option<map<string, string>>, newPreview: Option<string>, after: set<string>)
    requires |assets| == |uuids| == |uploads| && DistinctKeys(assets)
    requires forall k | k in stored :: !HasPrefix(k, Home(b.target))
    ensures keys.Some? <==> forall i | 0 <= i < |assets| && assets[i].data != [] :: uploads[i]
    ensures keys.Some? ==> keys.value == KeyMap(b, assets, uuids, |assets|) && after == stored + keys.value.Values
    ensures keys.Some? ==>
              newPreview == if b.preview.Some? && b.preview.value in keys.value then Some(PreviewKey(b)) else None
    ensures keys.None? ==> exists n: nat :: FailedAt(assets, uploads, n)
                             && after == stored + (KeyMap(b, assets, uuids, n).Values * stuck)
  {
    var targets := NewKeys(b, assets, uuids);
    forall i | 0 <= i < |targets|
      ensures targets[i] !in stored
    {
      UnderHome(b, assets[i].key, uuids[i]);
    }
    keys, newPreview, after := StoreAssets(assets, targets, b.preview, uploads, stored, stuck);
    if keys.Some? {
      PreviewRenamed(b, assets, uuids, keys.value);
    } else {
      var n: nat :| FailedAt(assets, uploads, n) && after == stored + (MapAssets(assets, targets, n).Values * stuck);
      assert KeyMap(b, assets, uuids, n) == MapAssets(assets, targets, n);
    }
  }

  lemma UnderHome(b: Boards, key: string, uuid: string)
    ensures HasPrefix(NewKey(b, key, uuid), Home(b.target))
  {
  }

  lemma PutValue(m: map<string, string>, k: string, v: string)
    requires k !in m
    ensures m[k := v].Values == m.Values + {v}
  {
    var m' := m[k := v];
    assert m'[k] == v;
    forall x | x in m.Values
      ensures x in m'.Values
    {
      var j :| j in m && m[j] == x;
      assert m'[j] == x;
    }
  }

  /** One of the first n assets has this key and is not empty. */
  predicate FilledUpTo(assets: seq<Asset>, n: nat, key: string)
    requires n <= |assets|
  {
    exists i :: 0 <= i < n && assets[i].key == key && assets[i].data != []
  }

  predicate Maps(m: map<string, string>, assets: seq<Asset>, targets: seq<string>, n: nat)
    requires n <= |assets| == |targets|
  {
    && (forall k | k in m :: FilledUpTo(assets, n, k))
    && (forall i | 0 <= i < n && assets[i].data != [] :: assets[i].key in m && m[assets[i].key] == targets[i])
  }

  lemma MapsPut(m: map<string, string>, assets: seq<Asset>, targets: seq<string>, n: nat)
    requires 0 < n <= |assets| == |targets| && DistinctKeys(assets) && Maps(m, assets, targets, n - 1)
    ensures Maps(if assets[n - 1].data == [] then m else m[assets[n - 1].key := targets[n - 1]], assets, targets, n)
  {
    var key := assets[n - 1].key;
    var m' := if assets[n - 1].data == [] then m else m[key := targets[n - 1]];
    forall k | k in m'
      ensures FilledUpTo(assets, n, k)
    {
      if k in m {
        assert FilledUpTo(assets, n - 1, k);
        var i :| 0 <= i < n - 1 && assets[i].key == k && assets[i].data != [];
      }
    }
    forall i | 0 <= i < n && assets[i].data != []
      ensures assets[i].key in m' && m'[assets[i].key] == targets[i]
    {
      if i < n - 1 {
        assert assets[i].key != key;
      }
    }
  }

  lemma {:induction false} AssetsMapped(assets: seq<Asset>, targets: seq<string>, n: nat)
    requires n <= |assets| == |targets| && DistinctKeys(assets)
    ensures Maps(MapAssets(assets, targets, n), assets, targets, n)
  {
    if n > 0 {
      AssetsMapped(assets, targets, n - 1);
      MapsPut(MapAssets(assets, targets, n - 1), assets, targets, n);
    }
  }

  /** Exactly the non-empty assets are mapped, each by its own rule and id. */
  lemma KeyMapExact(b: Boards, assets: seq<Asset>, uuids: seq<string>, n: nat)
    requires n <= |assets| == |uuids| && DistinctKeys(assets)
    ensures var m := KeyMap(b, assets, uuids, n);
            && (forall k :: k in m <==> exists i :: 0 <= i < n && assets[i].key == k && assets[i].data != [])
            && (forall i | 0 <= i < n && assets[i].data != [] ::
                  assets[i].key in m && m[assets[i].key] == NewKey(b, assets[i].key, uuids[i]))
  {
    var m := KeyMap(b, assets, uuids, n);
    AssetsMapped(assets, NewKeys(b, assets, uuids), n);
    forall k | k in m
      ensures exists i :: 0 <= i < n && assets[i].key == k && assets[i].data != []
    {
      assert FilledUpTo(assets, n, k);
    }
    forall i | 0 <= i < n && assets[i].data != []
      ensures assets[i].key in m && m[assets[i].key] == NewKey(b, assets[i].key, uuids[i])
    {
      assert NewKeys(b, assets, uuids)[i] == NewKey(b, assets[i].key, uuids[i]);
    }
  }

  lemma KeyIsNew(assets: seq<Asset>, targets: seq<string>, n: nat)
    requires n < |assets| == |targets| && DistinctKeys(assets)
    ensures assets[n].key !in MapAssets(assets, targets, n)
  {
    AssetsMapped(assets, targets, n);
  }

  lemma ValuesUnder(b: Boards, assets: seq<Asset>, uuids: seq<string>, n: nat)
    requires n <= |assets| == |uuids| && DistinctKeys(assets)
    ensures Under(KeyMap(b, assets, uuids, n).Values, b.target)
  {
    var m := KeyMap(b, assets, uuids, n);
    KeyMapExact(b, assets, uuids, n);
    forall v | v in m.Values
      ensures HasPrefix(v, Home(b.target))
    {
      var k :| k in m && m[k] == v;
      var i :| 0 <= i < n && assets[i].key == k && assets[i].data != [];
      assert v == NewKey(b, k, uuids[i]);
    }
  }

  // ---- injectivity ----

  /** Version-4 ids: 36 characters, no slash, never the same twice. */
  predicate FreshIds(uuids: seq<string>) {
    && (forall i | 0 <= i < |uuids| :: |uuids[i]| == 36 && '/' !in uuids[i])
    && (forall i, j | 0 <= i < j < |uuids| :: uuids[i] != uuids[j])
  }

  /** Names made by different rules differ. */
  lemma RulesDisjoint(b: Boards, k1: string, u1: string, k2: string, u2: string)
    requires |u1| == 36 == |u2| && '/' !in u1 && '/' !in u2
    requires NewName(b, k1, u1) == NewName(b, k2, u2)
    ensures RuleOf(b, k1) == RuleOf(b, k2)
  {
    MediaShape(b, k1, u1);
    MediaShape(b, k2, u2);
    PageShape(b, k1, u1);
    PageShape(b, k2, u2);
    assert "preview.png"[1] == 'r' && |"preview.png"| == 11;
  }

  lemma MediaShape(b: Boards, k: string, u: string)
    requires RuleOf(b, k) == Media ==> |u| == 36 && '/' !in u
    ensures RuleOf(b, k) == Media ==> |NewName(b, k, u)| > 36 && NewName(b, k, u)[..36] == u && NewName(b, k, u)[3] != '/'
  {
    if RuleOf(b, k) == Media {
      assert NewName(b, k, u)[..36] == u && NewName(b, k, u)[3] == u[3];
    }
  }

  lemma PageShape(b: Boards, k: string, u: string)
    ensures RuleOf(b, k) == Page ==> |NewName(b, k, u)| >= 4 && NewName(b, k, u)[1] == 'd' && NewName(b, k, u)[3] == '/'
  {
    if RuleOf(b, k) == Page {
      var rest := k[|PdfPrefix(b.source.value)|..];
      assert NewName(b, k, u) == "pdf/" + rest && "pdf/"[1] == 'd' && "pdf/"[3] == '/';
    }
  }

  lemma SameRest(b: Boards, k1: string, k2: string)
    requires RuleOf(b, k1) == Page == RuleOf(b, k2)
    requires "pdf/" + k1[|PdfPrefix(b.source.value)|..] == "pdf/" + k2[|PdfPrefix(b.source.value)|..]
    ensures k1 == k2
  {
    var p := PdfPrefix(b.source.value);
    var r1, r2 := k1[|p|..], k2[|p|..];
    assert ("pdf/" + r1)[4..] == r1 && ("pdf/" + r2)[4..] == r2;
    assert k1 == p + r1 && k2 == p + r2;
  }

  lemma NewKeyInjective(b: Boards, assets: seq<Asset>, uuids: seq<string>, i: nat, j: nat)
    requires i < |assets| == |uuids| && j < |assets| && FreshIds(uuids)
    requires NewKey(b, assets[i].key, uuids[i]) == NewKey(b, assets[j].key, uuids[j])
    ensures assets[i].key == assets[j].key
  {
    var k1, k2 := assets[i].key, assets[j].key;
    var n1, n2 := NewName(b, k1, uuids[i]), NewName(b, k2, uuids[j]);
    assert (Home(b.target) + n1)[|Home(b.target)|..] == n1 && (Home(b.target) + n2)[|Home(b.target)|..] == n2;
    RulesDisjoint(b, k1, uuids[i], k2, uuids[j]);
    match RuleOf(b, k1)
    case Preview =>
    case Page => SameRest(b, k1, k2);
    case Media =>
      MediaShape(b, k1, uuids[i]);
      MediaShape(b, k2, uuids[j]);
      assert uuids[i] == uuids[j];
  }

  predicate Injective(m: map<string, string>) {
    forall j, k | j in m && k in m && m[j] == m[k] :: j == k
  }

  lemma MappedBy(b: Boards, assets: seq<Asset>, uuids: seq<string>, m: map<string, string>, k: string) returns (i: nat)
    requires |assets| == |uuids| && DistinctKeys(assets) && m == KeyMap(b, assets, uuids, |assets|) && k in m
    ensures i < |assets| && assets[i].key == k && assets[i].data != [] && m[k] == NewKey(b, k, uuids[i])
  {
    KeyMapExact(b, assets, uuids, |assets|);
    i :| 0 <= i < |assets| && assets[i].key == k && assets[i].data != [];
  }

  lemma PairInjective(b: Boards, assets: seq<Asset>, uuids: seq<string>, m: map<string, string>, k1: string, k2: string)
    requires |assets| == |uuids| && DistinctKeys(assets) && FreshIds(uuids) && m == KeyMap(b, assets, uuids, |assets|)
    requires k1 in m && k2 in m && m[k1] == m[k2]
    ensures k1 == k2
  {
    var i := MappedBy(b, assets, uuids, m, k1);
    var j := MappedBy(b, assets, uuids, m, k2);
    NewKeyInjective(b, assets, uuids, i, j);
  }

  /** No two assets are given the same key, and all keys lie under the new board. */
  lemma MappingIsInjective(b: Boards, assets: seq<Asset>, uuids: seq<string>, m: map<string, string>)
    requires |assets| == |uuids| && DistinctKeys(assets) && FreshIds(uuids) && m == KeyMap(b, assets, uuids, |assets|)
    ensures Injective(m) && Under(m.Values, b.target)
  {
    ValuesUnder(b, assets, uuids, |assets|);
    forall k1, k2 | k1 in m && k2 in m && m[k1] == m[k2]
      ensures k1 == k2
    {
      PairInjective(b, assets, uuids, m, k1, k2);
    }
  }

  // ---- references follow the keys ----

  /** Everything an archived state refers to. */
  function References(lower: Lower, state: Json, b: Boards): set<string> {
    ObjectKeys(lower, state)
    + (if b.source.Some? then PdfKeys(state, b.source.value) else {})
    + (if b.preview.Some? then {b.preview.value} else {})
  }

  function Rewritten(lower: Lower, state: Json, b: Boards, m: map<string, string>): Json
    requires b.source.Some? && b.source.value != ""
  {
    RewriteUrls(RewriteKeys(lower, state, m), b.source.value, b.target)
  }

  function AssetKeys(assets: seq<Asset>): set<string> {
    set i | 0 <= i < |assets| :: assets[i].key
  }

  predicate Filled(assets: seq<Asset>, key: string) {
    exists i :: 0 <= i < |assets| && assets[i].key == key && assets[i].data != []
  }

  lemma PageKeyShape(board: string, p: PdfPage)
    ensures HasPrefix(PdfKey(board, p), PdfPrefix(board))
    ensures PdfKey(board, p)[|PdfPrefix(board)|..] == p.doc + "/page-" + Decimal(p.page) + ".svg"
    ensures PdfKey(board, p) == Home(board) + ("pdf/" + (p.doc + "/page-" + Decimal(p.page) + ".svg"))
  {
    var rest := p.doc + "/page-" + Decimal(p.page) + ".svg";
    assert PdfKey(board, p) == PdfPrefix(board) + rest;
  }

  /** A page key is renamed to the same page of the new board, unless it is the preview. */
  lemma PageFollows(b: Boards, assets: seq<Asset>, uuids: seq<string>, p: PdfPage)
    requires |assets| == |uuids| && DistinctKeys(assets) && b.source.Some?
    requires var k := PdfKey(b.source.value, p); Filled(assets, k) && b.preview != Some(k)
    ensures var m := KeyMap(b, assets, uuids, |assets|); var k := PdfKey(b.source.value, p);
            k in m && m[k] == PdfKey(b.target, p)
  {
    KeyMapExact(b, assets, uuids, |assets|);
    PageKeyShape(b.source.value, p);
    PageKeyShape(b.target, p);
  }

  /** Rewriting preserves references: for an archive whose assets are exactly the references,
      none of them empty and the preview not a PDF page, the rewritten state refers to exactly
      the renamed objects, all stored under the new board. */
  lemma {:induction false} ImportPreservesReferences(lower: Lower, state: Json, b: Boards, assets: seq<Asset>, uuids: seq<string>)
    requires AsciiCorrect(lower) && |assets| == |uuids| && DistinctKeys(assets) && FreshIds(uuids)
    requires b.source.Some? && b.source.value != ""
    requires AssetKeys(assets) == References(lower, state, b)
    requires forall i | 0 <= i < |assets| :: assets[i].data != [] && assets[i].key != ""
    requires b.preview.Some? ==> b.preview.value !in PdfKeys(state, b.source.value)
    ensures var m := KeyMap(b, assets, uuids, |assets|);
            var state' := Rewritten(lower, state, b, m);
            && m.Keys == References(lower, state, b) && Injective(m) && Under(m.Values, b.target)
            && ObjectKeys(lower, state') == Image(m, ObjectKeys(lower, state))
            && PdfKeys(state', b.target) == Image(m, PdfKeys(state, b.source.value))
            && References(lower, state', Boards(Some(b.target),
                 if b.preview.Some? then Some(PreviewKey(b)) else None, b.target)) == m.Values
  {
    var m := KeyMap(b, assets, uuids, |assets|);
    MappingIsInjective(b, assets, uuids, m);
    RewrittenReferences(lower, state, b, assets, uuids, m);
    AllMapped(lower, state, b, assets, uuids, m);
    PagesRenamed(lower, state, b, assets, uuids, m);
    PreviewRenamed(b, assets, uuids, m);
    ValuesAreImage(m, References(lower, state, b));
    PartsOfImage(m, ObjectKeys(lower, state), PdfKeys(state, b.source.value), b.preview);
  }

  lemma AllMapped(lower: Lower, state: Json, b: Boards, assets: seq<Asset>, uuids: seq<string>, m: map<string, string>)
    requires |assets| == |uuids| && DistinctKeys(assets) && m == KeyMap(b, assets, uuids, |assets|)
    requires AssetKeys(assets) == References(lower, state, b)
    requires forall i | 0 <= i < |assets| :: assets[i].data != []
    ensures m.Keys == References(lower, state, b)
    ensures forall k | k in References(lower, state, b) :: Filled(assets, k)
  {
    KeyMapExact(b, assets, uuids, |assets|);
    forall k
      ensures k in AssetKeys(assets) ==> Filled(assets, k)
      ensures k in m <==> k in AssetKeys(assets)
    {
      if k in AssetKeys(assets) {
        var i :| 0 <= i < |assets| && assets[i].key == k;
        assert assets[i].data != [];
      }
    }
  }

  lemma PartsOfImage(m: map<string, string>, objects: set<string>, pages: set<string>, preview: Option<string>)
    requires preview.Some? ==> preview.value in m
    ensures Image(m, objects + pages + (if preview.Some? then {preview.value} else {}))
            == Image(m, objects) + Image(m, pages) + (if preview.Some? then {m[preview.value]} else {})
  {
    ImageUnion(m, objects, pages);
    var last := if preview.Some? then {preview.value} else {};
    ImageUnion(m, objects + pages, last);
    assert Image(m, last) == if preview.Some? then {m[preview.value]} else {};
  }

  lemma ValuesAreImage(m: map<string, string>, refs: set<string>)
    requires m.Keys == refs
    ensures m.Values == Image(m, refs)
  {
    forall v
      ensures v in m.Values <==> v in Image(m, refs)
    {
      if v in m.Values {
        var k :| k in m && m[k] == v;
        assert k in refs && Renamed(m, k) == v;
      }
    }
  }

  lemma PreviewRenamed(b: Boards, assets: seq<Asset>, uuids: seq<string>, m: map<string, string>)
    requires |assets| == |uuids| && DistinctKeys(assets) && m == KeyMap(b, assets, uuids, |assets|)
    ensures b.preview.Some? && b.preview.value in m ==> m[b.preview.value] == PreviewKey(b)
  {
    KeyMapExact(b, assets, uuids, |assets|);
  }

  /** Whatever was mapped, the rewritten state's object keys are the renamed ones and its PDF
      pages are the same pages. */
  lemma RewrittenReferences(lower: Lower, state: Json, b: Boards, assets: seq<Asset>, uuids: seq<string>, m: map<string, string>)
    requires AsciiCorrect(lower) && |assets| == |uuids| && DistinctKeys(assets)
    requires m == KeyMap(b, assets, uuids, |assets|)
    requires b.source.Some? && b.source.value != "" && forall i | 0 <= i < |assets| :: assets[i].key != ""
    ensures ObjectKeys(lower, Rewritten(lower, state, b, m)) == Image(m, ObjectKeys(lower, state))
    ensures PdfPages(Rewritten(lower, state, b, m)) == PdfPages(state)
  {
    KeyMapExact(b, assets, uuids, |assets|);
    forall k | k in m
      ensures m[k] != ""
    {
      var i :| 0 <= i < |assets| && assets[i].key == k && assets[i].data != [];
      assert m[k] == NewKey(b, k, uuids[i]);
    }
    RewrittenKeys(lower, state, m);
    UrlsKeepKeys(lower, RewriteKeys(lower, state, m), b.source.value, b.target);
    KeysKeepPages(lower, state, m);
    UrlsKeepPages(RewriteKeys(lower, state, m), b.source.value, b.target);
  }

  lemma PagesRenamed(lower: Lower, state: Json, b: Boards, assets: seq<Asset>, uuids: seq<string>, m: map<string, string>)
    requires |assets| == |uuids| && DistinctKeys(assets) && b.source.Some? && m == KeyMap(b, assets, uuids, |assets|)
    requires forall k | k in PdfKeys(state, b.source.value) :: Filled(assets, k) && b.preview != Some(k)
    ensures PdfKeys(state, b.target) == Image(m, PdfKeys(state, b.source.value))
  {
    forall p | p in PdfPages(state)
      ensures PdfKey(b.source.value, p) in m && m[PdfKey(b.source.value, p)] == PdfKey(b.target, p)
    {
      assert PdfKey(b.source.value, p) in PdfKeys(state, b.source.value);
      PageFollows(b, assets, uuids, p);
    }
    forall k | k in Image(m, PdfKeys(state, b.source.value))
      ensures k in PdfKeys(state, b.target)
    {
      var j :| j in PdfKeys(state, b.source.value) && k == Renamed(m, j);
      var p :| p in PdfPages(state) && j == PdfKey(b.source.value, p);
    }
    forall k | k in PdfKeys(state, b.target)
      ensures k in Image(m, PdfKeys(state, b.source.value))
    {
      var p :| p in PdfPages(state) && k == PdfKey(b.target, p);
      assert Renamed(m, PdfKey(b.source.value, p)) == k;
    }
  }

  // ---- exactly when nothing dangles ----

  /** Only the same page of the old board is given the key of a page. */
  lemma PageMadeOnlyFromItself(b: Boards, k: string, uuid: string, p: PdfPage)
    requires b.source.Some? && |uuid| == 36 && '/' !in uuid
    requires NewKey(b, k, uuid) == PdfKey(b.target, p)
    ensures k == PdfKey(b.source.value, p) && b.preview != Some(k)
  {
    var rest := p.doc + "/page-" + Decimal(p.page) + ".svg";
    var name := NewName(b, k, uuid);
    PageKeyShape(b.target, p);
    TailOf(Home(b.target), name, "pdf/" + rest);
    PageNames(b, k, uuid, rest);
    PageKeyShape(b.source.value, p);
    var prefix := PdfPrefix(b.source.value);
    assert PdfKey(b.source.value, p) == prefix + rest;
  }

  lemma TailOf(p: string, x: string, y: string)
    requires p + x == p + y
    ensures x == y
  {
    assert (p + x)[|p|..] == x && (p + y)[|p|..] == y;
  }

  lemma PageNames(b: Boards, k: string, uuid: string, rest: string)
    requires b.source.Some? && |uuid| == 36 && '/' !in uuid
    requires NewName(b, k, uuid) == "pdf/" + rest
    ensures b.preview != Some(k) && k == PdfPrefix(b.source.value) + rest
  {
    MediaShape(b, k, uuid);
    assert ("pdf/" + rest)[3] == '/' && ("pdf/" + rest)[1] == 'd' && "preview.png"[1] == 'r';
    assert RuleOf(b, k) == Page;
    var tail := k[|PdfPrefix(b.source.value)|..];
    TailOf("pdf/", tail, rest);
    assert k == PdfPrefix(b.source.value) + tail;
  }

  lemma PageStoredOnlyByItself(b: Boards, assets: seq<Asset>, uuids: seq<string>, m: map<string, string>, p: PdfPage)
    requires |assets| == |uuids| && DistinctKeys(assets) && FreshIds(uuids) && b.source.Some?
    requires m == KeyMap(b, assets, uuids, |assets|) && PdfKey(b.target, p) in m.Values
    ensures var k := PdfKey(b.source.value, p); Filled(assets, k) && b.preview != Some(k)
  {
    var k :| k in m && m[k] == PdfKey(b.target, p);
    var i := MappedBy(b, assets, uuids, m, k);
    PageMadeOnlyFromItself(b, k, uuids[i], p);
  }

  /** The exact condition, for an archive that passed validation: every page of the imported
      board is stored if and only if no page was archived empty or doubles as the preview, and
      every object key is if and only if no referenced object was archived empty. */
  lemma {:induction false} NothingDanglesExactly(lower: Lower, state: Json, b: Boards, assets: seq<Asset>, uuids: seq<string>)
    requires AsciiCorrect(lower) && |assets| == |uuids| && DistinctKeys(assets) && FreshIds(uuids)
    requires b.source.Some? && b.source.value != ""
    requires AssetKeys(assets) == References(lower, state, b)
    requires forall i | 0 <= i < |assets| :: assets[i].key != "" && !HasPrefix(assets[i].key, Home(b.target))
    ensures var m := KeyMap(b, assets, uuids, |assets|);
            var state' := Rewritten(lower, state, b, m);
            && (PdfKeys(state', b.target) <= m.Values <==>
                forall k | k in PdfKeys(state, b.source.value) :: Filled(assets, k) && b.preview != Some(k))
            && (ObjectKeys(lower, state') <= m.Values <==>
                forall k | k in ObjectKeys(lower, state) :: Filled(assets, k))
  {
    var m := KeyMap(b, assets, uuids, |assets|);
    KeyMapExact(b, assets, uuids, |assets|);
    MappingIsInjective(b, assets, uuids, m);
    RewrittenReferences(lower, state, b, assets, uuids, m);
    if PdfKeys(state, b.target) <= m.Values {
      forall k | k in PdfKeys(state, b.source.value)
        ensures Filled(assets, k) && b.preview != Some(k)
      {
        var p :| p in PdfPages(state) && k == PdfKey(b.source.value, p);
        assert PdfKey(b.target, p) in PdfKeys(state, b.target);
        PageStoredOnlyByItself(b, assets, uuids, m, p);
      }
    }
    if forall k | k in PdfKeys(state, b.source.value) :: Filled(assets, k) && b.preview != Some(k) {
      PagesRenamed(lower, state, b, assets, uuids, m);
      ImageOfMapped(m, PdfKeys(state, b.source.value));
    }
    ObjectsStored(lower, state, b, assets, m);
  }

  lemma ImageOfMapped(m: map<string, string>, s: set<string>)
    requires s <= m.Keys
    ensures Image(m, s) <= m.Values
  {
  }

  lemma ObjectsStored(lower: Lower, state: Json, b: Boards, assets: seq<Asset>, m: map<string, string>)
    requires AssetKeys(assets) == References(lower, state, b)
    requires forall i | 0 <= i < |assets| :: !HasPrefix(assets[i].key, Home(b.target))
    requires forall k :: k in m <==> Filled(assets, k)
    requires Under(m.Values, b.target)
    ensures Image(m, ObjectKeys(lower, state)) <= m.Values <==> forall k | k in ObjectKeys(lower, state) :: Filled(assets, k)
  {
    var keys := ObjectKeys(lower, state);
    if Image(m, keys) <= m.Values {
      forall k | k in keys
        ensures Filled(assets, k)
      {
        assert Renamed(m, k) in Image(m, keys);
        assert k in AssetKeys(assets);
        assert !HasPrefix(k, Home(b.target));
      }
    }
    if forall k | k in keys :: Filled(assets, k) {
      ImageOfMapped(m, keys);
    }
  }

  // ---- an input that dangles ----

  lemma {:induction false} NormalizedJoin(lower: Lower, a: string, b: string)
    ensures Normalized(lower, a + b) == Normalized(lower, a) + Normalized(lower, b)
  {
    if a == [] {
      assert a + b == b;
    } else {
      assert (a + b)[1..] == a[1..] + b;
      NormalizedJoin(lower, a[1..], b);
    }
  }

  lemma {:induction false} NormalizedPlain(lower: Lower, s: string)
    requires AsciiCorrect(lower) && Plain(s)
    ensures Normalized(lower, s) == s
  {
    if s != [] {
      NormalizedPlain(lower, s[1..]);
      NormalizedCons(lower, s[0], s[1..]);
      assert [s[0]] + s[1..] == s;
    }
  }

  predicate Plain(s: string) {
    forall i | 0 <= i < |s| :: 'a' <= s[i] <= 'z'
  }

  /** An underscore between two words does not show in the normalized name. */
  lemma UnderscoreDropped(lower: Lower, a: string, b: string)
    requires AsciiCorrect(lower) && Plain(a) && Plain(b)
    ensures Normalized(lower, a + (['_'] + b)) == a + b
  {
    NormalizedJoin(lower, a, ['_'] + b);
    NormalizedPlain(lower, a);
    LeadingUnderscore(lower, b);
    NormalizedPlain(lower, b);
  }

  lemma LeadingUnderscore(lower: Lower, b: string)
    ensures Normalized(lower, ['_'] + b) == Normalized(lower, b)
  {
    assert (['_'] + b)[1..] == b;
    assert "" + Normalized(lower, b) == Normalized(lower, b);
  }

  lemma JoinedKeyField(lower: Lower, a: string, b: string, name: string)
    requires AsciiCorrect(lower) && Plain(a) && Plain(b)
    requires name == a + (['_'] + b) && a + b == "objectkey"
    ensures IsKeyField(lower, name)
  {
    UnderscoreDropped(lower, a, b);
    var normalized := a + b;
    assert normalized[..|normalized|] == normalized;
  }

  lemma ObjectKeyField(lower: Lower)
    requires AsciiCorrect(lower)
    ensures IsKeyField(lower, "object_key")
  {
    JoinedKeyField(lower, "object", "key", "object_key");
  }

  /** A board with one image. */
  const OneImage: Json := Obj([Field("object_key", Str("a.png"))])

  lemma OneImageKeys(lower: Lower)
    requires AsciiCorrect(lower)
    ensures ObjectKeys(lower, OneImage) == {"a.png"} && PdfPages(OneImage) == {}
  {
    ObjectKeyField(lower);
    assert "object_key" != "type" by { assert "object_key"[0] == 'o' && "type"[0] == 't'; }
    assert Lookup(OneImage.fields, "type") == None by { assert OneImage.fields[1..] == []; }
    assert ObjectKeys(lower, Str("a.png")) == {} && PdfPages(Str("a.png")) == {};
    assert KeysUpTo(lower, OneImage, 0) == {} && PagesUpTo(OneImage, 0) == {};
    assert KeysUpTo(lower, OneImage, 1) == OwnKey(lower, OneImage.fields[0]);
    assert PagesUpTo(OneImage, 1) == {};
  }

  /** An asset archived empty passes validation, is never uploaded, and is still referred to. */
  lemma {:induction false} EmptyAssetDangles(lower: Lower, source: string, target: string, uuid: string)
    requires AsciiCorrect(lower) && source != "" && |uuid| == 36 && '/' !in uuid
    ensures var b := Boards(Some(source), None, target);
            var assets := [Asset("a.png", [])];
            var m := KeyMap(b, assets, [uuid], 1);
            && AssetKeys(assets) == References(lower, OneImage, b)
            && ObjectKeys(lower, Rewritten(lower, OneImage, b, m)) == {"a.png"} && m.Values == {}
  {
    var b := Boards(Some(source), None, target);
    var assets := [Asset("a.png", [])];
    var m := KeyMap(b, assets, [uuid], 1);
    OneImageKeys(lower);
    assert PdfKeys(OneImage, source) == {};
    assert AssetKeys(assets) == {"a.png"} by { assert assets[0].key in AssetKeys(assets); }
    assert MapAssets(assets, NewKeys(b, assets, [uuid]), 0) == map[];
    assert m == map[];
    RewrittenReferences(lower, OneImage, b, assets, [uuid], m);
    assert Image(m, {"a.png"}) == {"a.png"} by { assert Renamed(m, "a.png") == "a.png"; }
  }
}
