/** Board state as a JSON tree: which storage objects it references, and how an import points
    it at new ones.

    `lower` is `char::to_lowercase`, a parameter known only on ASCII. */
module BoardJson {
  import opened Wrappers

  datatype Json =
    | Null
    | Bool(b: bool)
    | Int(n: int)
    | Float(text: string)
    | Str(s: string)
    | Arr(items: seq<Json>)
    | Obj(fields: seq<Field>)

  datatype Field = Field(name: string, value: Json)

  type Lower = char -> string

  function AsciiLower(c: char): char {
    if 'A' <= c <= 'Z' then c - 'A' + 'a' else c
  }

  ghost predicate AsciiCorrect(lower: Lower) {
    forall c: char | c < '\U{80}' :: lower(c) == [AsciiLower(c)]
  }

  /** Lower-cased field name without underscores. */
  function Normalized(lower: Lower, name: string): string {
    if name == [] then []
    else (if name[0] == '_' then "" else lower(name[0])) + Normalized(lower, name[1..])
  }

  predicate HasPrefix(s: string, p: string) {
    |p| <= |s| && s[..|p|] == p
  }

  predicate Contains(s: string, p: string) {
    HasPrefix(s, p) || (s != [] && Contains(s[1..], p))
  }

  /** Whether a field of this name holds an object key. */
  predicate IsKeyField(lower: Lower, name: string) {
    Contains(Normalized(lower, name), "objectkey")
  }

  /** `map.get(name)` */
  function Get(v: Json, name: string): Option<Json> {
    if v.Obj? then Lookup(v.fields, name) else None
  }

  function Lookup(fields: seq<Field>, name: string): Option<Json> {
    if fields == [] then None
    else if fields[0].name == name then Some(fields[0].value)
    else Lookup(fields[1..], name)
  }

  function GetStr(v: Json, name: string): Option<string> {
    match Get(v, name) case Some(Str(s)) => Some(s) case _ => None
  }

  /** `as_u64` */
  function GetU64(v: Json, name: string): Option<nat> {
    match Get(v, name)
    case Some(Int(n)) => if 0 <= n < 0x1_0000_0000_0000_0000 then Some(n) else None
    case _ => None
  }

  // ---- references ----

  function Width(v: Json): nat {
    match v case Obj(fields) => |fields| case Arr(items) => |items| case _ => 0
  }

  /** Object keys of the tree: non-empty string values of key fields, at any depth. */
  function ObjectKeys(lower: Lower, v: Json): set<string>
    decreases v, Width(v) + 1
  {
    KeysUpTo(lower, v, Width(v))
  }

  function OwnKey(lower: Lower, f: Field): set<string> {
    if f.value.Str? && IsKeyField(lower, f.name) && f.value.s != "" then {f.value.s} else {}
  }

  /** The keys of the first n members. */
  function KeysUpTo(lower: Lower, v: Json, n: nat): set<string>
    requires n <= Width(v)
    decreases v, n
  {
    if n == 0 then {}
    else KeysUpTo(lower, v, n - 1)
         + match v
           case Obj(fields) => OwnKey(lower, fields[n - 1]) + ObjectKeys(lower, fields[n - 1].value)
           case Arr(items) => ObjectKeys(lower, items[n - 1])
  }

  /** A rendered page of an embedded PDF. */
  datatype PdfPage = PdfPage(doc: string, page: nat)

  function OwnPages(v: Json): set<PdfPage> {
    if GetStr(v, "type") == Some("pdf.page") && GetStr(v, "docId").Some? then
      var count := match GetU64(v, "pageCount") case Some(n) => n case None => 0;
      set page: nat | page < count :: PdfPage(GetStr(v, "docId").value, page)
    else {}
  }

  function PdfPages(v: Json): set<PdfPage>
    decreases v, Width(v) + 1
  {
    (if v.Obj? then OwnPages(v) else {}) + PagesUpTo(v, Width(v))
  }

  function PagesUpTo(v: Json, n: nat): set<PdfPage>
    requires n <= Width(v)
    decreases v, n
  {
    if n == 0 then {}
    else PagesUpTo(v, n - 1)
         + match v case Obj(fields) => PdfPages(fields[n - 1].value) case Arr(items) => PdfPages(items[n - 1])
  }

  function Decimal(n: nat): string {
    var digit := ['0' + (n % 10) as char];
    if n < 10 then digit else Decimal(n / 10) + digit
  }

  function PdfKey(board: string, p: PdfPage): string {
    "boards/" + board + "/pdf/" + p.doc + "/page-" + Decimal(p.page) + ".svg"
  }

  /** Storage keys of all PDF pages, which are fixed paths under the board. */
  function PdfKeys(v: Json, board: string): set<string> {
    KeysOf(board, PdfPages(v))
  }

  function KeysOf(board: string, pages: set<PdfPage>): set<string> {
    set p | p in pages :: PdfKey(board, p)
  }

  lemma KeysOfUnion(board: string, a: set<PdfPage>, b: set<PdfPage>)
    ensures KeysOf(board, a + b) == KeysOf(board, a) + KeysOf(board, b)
  {
  }

  // ---- the collecting walks ----

  /** `collect_object_keys`: inserts into the given set. */
  method CollectObjectKeys(lower: Lower, v: Json, into: set<string>) returns (keys: set<string>)
    ensures keys == into + ObjectKeys(lower, v)
    decreases v
  {
    keys := into;
    match v
    case Obj(fields) =>
      for n := 0 to |fields|
        invariant keys == into + KeysUpTo(lower, v, n)
      {
        var f := fields[n];
        if f.value.Str? && IsKeyField(lower, f.name) && f.value.s != "" {
          keys := keys + {f.value.s};
        }
        keys := CollectObjectKeys(lower, f.value, keys);
      }
    case Arr(items) =>
      for n := 0 to |items|
        invariant keys == into + KeysUpTo(lower, v, n)
      {
        keys := CollectObjectKeys(lower, items[n], keys);
      }
    case _ =>
  }

  /** The page keys of one component. */
  method CollectOwnPageKeys(v: Json, board: string, into: set<string>) returns (keys: set<string>)
    ensures keys == into + KeysOf(board, OwnPages(v))
  {
    keys := into;
    if GetStr(v, "type") == Some("pdf.page") && GetStr(v, "docId").Some? {
      var doc := GetStr(v, "docId").value;
      var count := match GetU64(v, "pageCount") case Some(n) => n case None => 0;
      for page := 0 to count
        invariant keys == into + set p: nat | p < page :: PdfKey(board, PdfPage(doc, p))
      {
        keys := keys + {PdfKey(board, PdfPage(doc, page))};
      }
      PagesOfCount(board, doc, count);
    }
  }

  /** `collect_pdf_page_keys` */
  method CollectPdfPageKeys(v: Json, board: string, into: set<string>) returns (keys: set<string>)
    ensures keys == into + PdfKeys(v, board)
    decreases v
  {
    keys := into;
    match v
    case Obj(fields) =>
      keys := CollectOwnPageKeys(v, board, keys);
      ghost var own := keys;
      for n := 0 to |fields|
        invariant keys == own + KeysOf(board, PagesUpTo(v, n))
      {
        keys := CollectPdfPageKeys(fields[n].value, board, keys);
        KeysOfUnion(board, PagesUpTo(v, n), PdfPages(fields[n].value));
      }
      KeysOfUnion(board, OwnPages(v), PagesUpTo(v, |fields|));
    case Arr(items) =>
      for n := 0 to |items|
        invariant keys == into + KeysOf(board, PagesUpTo(v, n))
      {
        keys := CollectPdfPageKeys(items[n], board, keys);
        KeysOfUnion(board, PagesUpTo(v, n), PdfPages(items[n]));
      }
      assert PdfPages(v) == PagesUpTo(v, |items|);
    case _ => assert PdfPages(v) == {};
  }

  lemma PagesOfCount(board: string, doc: string, count: nat)
    ensures (set p: nat | p < count :: PdfKey(board, PdfPage(doc, p)))
            == KeysOf(board, set p: nat | p < count :: PdfPage(doc, p))
  {
    var pages := set p: nat | p < count :: PdfPage(doc, p);
    forall p: nat | p < count
      ensures PdfKey(board, PdfPage(doc, p)) in KeysOf(board, pages)
    {
      assert PdfPage(doc, p) in pages;
    }
  }

  // ---- rewriting ----

  function Renamed(keys: map<string, string>, s: string): string {
    if s in keys then keys[s] else s
  }

  function RewriteKeys(lower: Lower, v: Json, keys: map<string, string>): Json {
    match v
    case Obj(fields) =>
      Obj(seq(|fields|, i requires 0 <= i < |fields| =>
            Field(fields[i].name,
                  if IsKeyField(lower, fields[i].name) && fields[i].value.Str? then Str(Renamed(keys, fields[i].value.s))
                  else RewriteKeys(lower, fields[i].value, keys))))
    case Arr(items) => Arr(seq(|items|, i requires 0 <= i < |items| => RewriteKeys(lower, items[i], keys)))
    case _ => v
  }

  /** `str::replace` */
  function Replace(s: string, from: string, to: string): string
    requires from != ""
    decreases |s|
  {
    if s == [] then []
    else if HasPrefix(s, from) then to + Replace(s[|from|..], from, to)
    else [s[0]] + Replace(s[1..], from, to)
  }

  lemma {:induction false} ReplaceNone(s: string, from: string, to: string)
    requires from != "" && !Contains(s, from)
    ensures Replace(s, from, to) == s
    decreases |s|
  {
    if s != [] {
      ReplaceNone(s[1..], from, to);
    }
  }

  /** A URL that names the old board once names the new one instead, and is otherwise unchanged. */
  lemma {:induction false} ReplaceOnce(a: string, from: string, b: string, to: string)
    requires from != "" && !Contains(a + from[..|from| - 1], from) && !Contains(b, from)
    ensures Replace(a + from + b, from, to) == a + to + b
    decreases |a|
  {
    var s := a + from + b;
    if a == [] {
      assert s == from + b && s[..|from|] == from && s[|from|..] == b;
      ReplaceNone(b, from, to);
    } else {
      var front := a + from[..|from| - 1];
      assert s[..|from|] == front[..|from|];
      assert front[1..] == a[1..] + from[..|from| - 1];
      assert s[1..] == a[1..] + from + b;
      ReplaceOnce(a[1..], from, b, to);
    }
  }

  predicate IsPdfUrlField(name: string) {
    name == "svgUrl" || name == "urlTemplate"
  }

  function RewriteUrls(v: Json, from: string, to: string): Json
    requires from != ""
  {
    match v
    case Obj(fields) =>
      Obj(seq(|fields|, i requires 0 <= i < |fields| =>
            Field(fields[i].name,
                  if IsPdfUrlField(fields[i].name) && fields[i].value.Str? then Str(Replace(fields[i].value.s, from, to))
                  else RewriteUrls(fields[i].value, from, to))))
    case Arr(items) => Arr(seq(|items|, i requires 0 <= i < |items| => RewriteUrls(items[i], from, to)))
    case _ => v
  }

  /** `rewrite_object_keys`, field after field. */
  method RewriteObjectKeys(lower: Lower, v: Json, keys: map<string, string>) returns (r: Json)
    ensures r == RewriteKeys(lower, v, keys)
    decreases v
  {
    match v
    case Obj(fields) =>
      var out: seq<Field> := [];
      for n := 0 to |fields|
        invariant out == RewriteKeys(lower, v, keys).fields[..n]
      {
        var value := fields[n].value;
        if IsKeyField(lower, fields[n].name) && value.Str? && value.s in keys {
          value := Str(keys[value.s]);
        } else {
          value := RewriteObjectKeys(lower, value, keys);
        }
        out := out + [Field(fields[n].name, value)];
      }
      r := Obj(out);
    case Arr(items) =>
      var out: seq<Json> := [];
      for n := 0 to |items|
        invariant out == RewriteKeys(lower, v, keys).items[..n]
      {
        var item := RewriteObjectKeys(lower, items[n], keys);
        out := out + [item];
      }
      r := Arr(out);
    case _ => r := v;
  }

  /** `rewrite_pdf_urls` */
  method RewritePdfUrls(v: Json, from: string, to: string) returns (r: Json)
    requires from != ""
    ensures r == RewriteUrls(v, from, to)
    decreases v
  {
    match v
    case Obj(fields) =>
      var out: seq<Field> := [];
      for n := 0 to |fields|
        invariant out == RewriteUrls(v, from, to).fields[..n]
      {
        var value := fields[n].value;
        if IsPdfUrlField(fields[n].name) && value.Str? {
          value := Str(Replace(value.s, from, to));
        } else {
          value := RewritePdfUrls(value, from, to);
        }
        out := out + [Field(fields[n].name, value)];
      }
      r := Obj(out);
    case Arr(items) =>
      var out: seq<Json> := [];
      for n := 0 to |items|
        invariant out == RewriteUrls(v, from, to).items[..n]
      {
        var item := RewritePdfUrls(items[n], from, to);
        out := out + [item];
      }
      r := Arr(out);
    case _ => r := v;
  }

  // ---- what rewriting does to the references ----

  lemma {:induction false} NormalizedShort(lower: Lower, name: string)
    requires AsciiCorrect(lower) && forall i | 0 <= i < |name| :: name[i] < '\U{80}'
    ensures |Normalized(lower, name)| <= |name|
  {
    if name != [] {
      NormalizedShort(lower, name[1..]);
    }
  }

  lemma {:induction false} TooShort(s: string, p: string)
    requires |s| < |p|
    ensures !Contains(s, p)
  {
    if s != [] {
      TooShort(s[1..], p);
    }
  }

  lemma ShortName(lower: Lower, name: string)
    requires AsciiCorrect(lower) && |name| < 9 && forall i | 0 <= i < |name| :: name[i] < '\U{80}'
    ensures !IsKeyField(lower, name)
  {
    NormalizedShort(lower, name);
    TooShort(Normalized(lower, name), "objectkey");
  }

  lemma NotFirst(s: string, c: char, rest: string)
    requires s == [c] + rest && c != 'o' && !Contains(rest, "objectkey")
    ensures !Contains(s, "objectkey")
  {
    assert s[1..] == rest;
    assert "objectkey"[0] == 'o';
    assert 9 <= |s| ==> s[..9][0] == s[0];
  }

  lemma NormalizedCons(lower: Lower, c: char, rest: string)
    requires AsciiCorrect(lower) && 'a' <= c <= 'z'
    ensures Normalized(lower, [c] + rest) == [c] + Normalized(lower, rest)
  {
    assert ([c] + rest)[1..] == rest;
    assert lower(c) == [AsciiLower(c)];
  }

  lemma TemplateIsPlain(lower: Lower)
    requires AsciiCorrect(lower)
    ensures !IsKeyField(lower, "urlTemplate")
  {
    var n := Normalized(lower, "Template");
    ShortName(lower, "Template");
    NormalizedCons(lower, 'l', "Template");
    NotFirst(['l'] + n, 'l', n);
    NormalizedCons(lower, 'r', "lTemplate");
    NotFirst(['r'] + (['l'] + n), 'r', ['l'] + n);
    NormalizedCons(lower, 'u', "rlTemplate");
    NotFirst(['u'] + (['r'] + (['l'] + n)), 'u', ['r'] + (['l'] + n));
    assert ['l'] + "Template" == "lTemplate";
    assert ['r'] + "lTemplate" == "rlTemplate";
    assert ['u'] + "rlTemplate" == "urlTemplate";
  }

  /** The names the walks treat specially are not key fields. */
  lemma PlainNames(lower: Lower)
    requires AsciiCorrect(lower)
    ensures !IsKeyField(lower, "type") && !IsKeyField(lower, "docId") && !IsKeyField(lower, "svgUrl")
    ensures !IsKeyField(lower, "urlTemplate")
  {
    ShortName(lower, "type");
    ShortName(lower, "docId");
    ShortName(lower, "svgUrl");
    TemplateIsPlain(lower);
  }

  function Image(keys: map<string, string>, s: set<string>): set<string> {
    set k | k in s :: Renamed(keys, k)
  }

  lemma ImageUnion(keys: map<string, string>, a: set<string>, b: set<string>)
    ensures Image(keys, a + b) == Image(keys, a) + Image(keys, b)
  {
  }

  predicate NoEmptyTarget(keys: map<string, string>) {
    "" !in keys && forall k | k in keys :: keys[k] != ""
  }

  function Child(v: Json, i: nat): Json
    requires i < Width(v)
  {
    match v case Obj(fields) => fields[i].value case Arr(items) => items[i]
  }

  /** The keys one member contributes. */
  function MemberKeys(lower: Lower, v: Json, i: nat): set<string>
    requires i < Width(v)
  {
    (if v.Obj? then OwnKey(lower, v.fields[i]) else {}) + ObjectKeys(lower, Child(v, i))
  }

  lemma UpToNextMember(lower: Lower, v: Json, n: nat)
    requires n < Width(v)
    ensures KeysUpTo(lower, v, n + 1) == KeysUpTo(lower, v, n) + MemberKeys(lower, v, n)
  {
  }

  lemma {:induction false} ImageUpTo(lower: Lower, v: Json, after: Json, keys: map<string, string>, n: nat)
    requires n <= Width(v) == Width(after)
    requires forall i | 0 <= i < n :: MemberKeys(lower, after, i) == Image(keys, MemberKeys(lower, v, i))
    ensures KeysUpTo(lower, after, n) == Image(keys, KeysUpTo(lower, v, n))
  {
    if n > 0 {
      ImageUpTo(lower, v, after, keys, n - 1);
      UpToNextMember(lower, v, n - 1);
      UpToNextMember(lower, after, n - 1);
      ImageUnion(keys, KeysUpTo(lower, v, n - 1), MemberKeys(lower, v, n - 1));
    }
  }

  lemma KeysRewriteChild(lower: Lower, v: Json, keys: map<string, string>, i: nat)
    requires i < Width(v)
    ensures var after := RewriteKeys(lower, v, keys);
            Width(after) == Width(v)
            && (Child(after, i) == RewriteKeys(lower, Child(v, i), keys) || (Child(after, i).Str? && Child(v, i).Str?))
  {
  }

  lemma OwnKeyRenamed(lower: Lower, v: Json, keys: map<string, string>, i: nat)
    requires NoEmptyTarget(keys) && v.Obj? && i < |v.fields|
    ensures OwnKey(lower, RewriteKeys(lower, v, keys).fields[i]) == Image(keys, OwnKey(lower, v.fields[i]))
  {
    var f, f' := v.fields[i], RewriteKeys(lower, v, keys).fields[i];
    RewriteKeepsKind(lower, f.value, keys);
  }

  lemma StringHasNoKeys(lower: Lower, x: Json, y: Json)
    ensures x.Str? ==> ObjectKeys(lower, x) == {}
    ensures y.Str? ==> ObjectKeys(lower, y) == {}
  {
  }

  /** The references of the rewritten tree are the renamed references, key by key. */
  lemma {:induction false} RewrittenKeys(lower: Lower, v: Json, keys: map<string, string>)
    requires NoEmptyTarget(keys)
    ensures ObjectKeys(lower, RewriteKeys(lower, v, keys)) == Image(keys, ObjectKeys(lower, v))
    decreases v
  {
    var after := RewriteKeys(lower, v, keys);
    RewriteWidth(lower, v, keys);
    forall i | 0 <= i < Width(v)
      ensures MemberKeys(lower, after, i) == Image(keys, MemberKeys(lower, v, i))
    {
      KeysRewriteChild(lower, v, keys, i);
      RewrittenKeys(lower, Child(v, i), keys);
      StringHasNoKeys(lower, Child(v, i), Child(after, i));
      if v.Obj? {
        OwnKeyRenamed(lower, v, keys, i);
        ImageUnion(keys, OwnKey(lower, v.fields[i]), ObjectKeys(lower, Child(v, i)));
      }
    }
    ImageUpTo(lower, v, after, keys, Width(v));
  }

  lemma UrlFieldKey(lower: Lower, f: Field, f': Field)
    requires AsciiCorrect(lower) && f'.name == f.name
    requires f'.value == f.value || IsPdfUrlField(f.name) || (!f.value.Str? && !f'.value.Str?)
    ensures OwnKey(lower, f') == OwnKey(lower, f)
  {
    PlainNames(lower);
  }

  lemma {:induction false} SameUpTo(lower: Lower, v: Json, after: Json, n: nat)
    requires n <= Width(v) == Width(after)
    requires forall i | 0 <= i < n :: MemberKeys(lower, after, i) == MemberKeys(lower, v, i)
    ensures KeysUpTo(lower, after, n) == KeysUpTo(lower, v, n)
  {
    if n > 0 {
      SameUpTo(lower, v, after, n - 1);
      UpToNextMember(lower, v, n - 1);
      UpToNextMember(lower, after, n - 1);
    }
  }

  lemma UrlField(v: Json, from: string, to: string, i: nat)
    requires from != "" && v.Obj? && i < |v.fields|
    ensures var f, f' := v.fields[i], RewriteUrls(v, from, to).fields[i];
            f'.name == f.name && (f'.value == f.value || IsPdfUrlField(f.name) || (!f.value.Str? && !f'.value.Str?))
  {
  }

  /** Rewriting PDF URLs touches no object key. */
  lemma {:induction false} UrlsKeepKeys(lower: Lower, v: Json, from: string, to: string)
    requires AsciiCorrect(lower) && from != ""
    ensures ObjectKeys(lower, RewriteUrls(v, from, to)) == ObjectKeys(lower, v)
    decreases v
  {
    var after := RewriteUrls(v, from, to);
    UrlsWidth(v, from, to);
    forall i | 0 <= i < Width(v)
      ensures MemberKeys(lower, after, i) == MemberKeys(lower, v, i)
    {
      UrlsRewriteChild(v, from, to, i);
      UrlsKeepKeys(lower, Child(v, i), from, to);
      StringHasNoKeys(lower, Child(v, i), Child(after, i));
      if v.Obj? {
        UrlField(v, from, to, i);
        UrlFieldKey(lower, v.fields[i], after.fields[i]);
      }
    }
    SameUpTo(lower, v, after, Width(v));
  }

  // ---- PDF pages are untouched ----

  /** Equal as far as the page lookups can tell. */
  predicate PageFieldKept(f: Field, f': Field) {
    && f'.name == f.name
    && (f.name == "type" || f.name == "docId" ==> f'.value == f.value || (!f.value.Str? && !f'.value.Str?))
    && (f.name == "pageCount" ==> f'.value == f.value || (!f.value.Int? && !f'.value.Int?))
  }

  lemma {:induction false} LookupKept(fields: seq<Field>, after: seq<Field>, name: string)
    requires |after| == |fields| && forall i | 0 <= i < |fields| :: PageFieldKept(fields[i], after[i])
    ensures Lookup(fields, name).Some? <==> Lookup(after, name).Some?
    ensures Lookup(fields, name).Some? ==>
              PageFieldKept(Field(name, Lookup(fields, name).value), Field(name, Lookup(after, name).value))
  {
    if fields != [] && fields[0].name != name {
      LookupKept(fields[1..], after[1..], name);
    }
  }

  lemma OwnPagesKept(v: Json, after: Json)
    requires v.Obj? && after.Obj? && |after.fields| == |v.fields|
    requires forall i | 0 <= i < |v.fields| :: PageFieldKept(v.fields[i], after.fields[i])
    ensures OwnPages(after) == OwnPages(v)
  {
    LookupKept(v.fields, after.fields, "type");
    LookupKept(v.fields, after.fields, "docId");
    LookupKept(v.fields, after.fields, "pageCount");
    assert GetStr(after, "type") == GetStr(v, "type");
    assert GetStr(after, "docId") == GetStr(v, "docId");
    assert GetU64(after, "pageCount") == GetU64(v, "pageCount");
  }

  /** Neither rewriting changes which PDF pages the tree shows. */
  lemma {:induction false} KeysKeepPages(lower: Lower, v: Json, keys: map<string, string>)
    requires AsciiCorrect(lower)
    ensures PdfPages(RewriteKeys(lower, v, keys)) == PdfPages(v)
    decreases v
  {
    var after := RewriteKeys(lower, v, keys);
    RewriteWidth(lower, v, keys);
    forall i | 0 <= i < Width(v)
      ensures PdfPages(Child(after, i)) == PdfPages(Child(v, i))
    {
      KeysRewriteChild(lower, v, keys, i);
      KeysKeepPages(lower, Child(v, i), keys);
      StringHasNoPages(Child(v, i), Child(after, i));
    }
    PagesUpToKept(v, after, Width(v));
    if v.Obj? {
      forall i | 0 <= i < |v.fields|
        ensures PageFieldKept(v.fields[i], after.fields[i])
      {
        KeysKeepField(lower, v, keys, i);
      }
      OwnPagesKept(v, after);
    }
  }

  lemma RewriteWidth(lower: Lower, v: Json, keys: map<string, string>)
    ensures Width(RewriteKeys(lower, v, keys)) == Width(v)
    ensures RewriteKeys(lower, v, keys).Obj? <==> v.Obj?
  {
  }

  lemma {:induction false} PagesUpToKept(v: Json, after: Json, n: nat)
    requires n <= Width(v) == Width(after)
    requires forall i | 0 <= i < n :: PdfPages(Child(after, i)) == PdfPages(Child(v, i))
    ensures PagesUpTo(after, n) == PagesUpTo(v, n)
  {
    if n > 0 {
      PagesUpToKept(v, after, n - 1);
      SamePages(v, after, n - 1);
    }
  }

  lemma KeysKeepField(lower: Lower, v: Json, keys: map<string, string>, i: nat)
    requires AsciiCorrect(lower) && v.Obj? && i < |v.fields|
    ensures PageFieldKept(v.fields[i], RewriteKeys(lower, v, keys).fields[i])
  {
    var f, f' := v.fields[i], RewriteKeys(lower, v, keys).fields[i];
    if f.name == "type" || f.name == "docId" {
      ShortName(lower, f.name);
    }
    RewriteKeepsKind(lower, f.value, keys);
  }

  lemma RewriteKeepsKind(lower: Lower, v: Json, keys: map<string, string>)
    ensures var after := RewriteKeys(lower, v, keys);
            after == v || (!v.Str? && !v.Int? && !after.Str? && !after.Int?)
  {
  }

  lemma SamePages(v: Json, after: Json, n: nat)
    requires n < Width(v) == Width(after) && PagesUpTo(after, n) == PagesUpTo(v, n)
    requires PdfPages(Child(after, n)) == PdfPages(Child(v, n))
    ensures PagesUpTo(after, n + 1) == PagesUpTo(v, n + 1)
  {
    assert PagesUpTo(after, n + 1) == PagesUpTo(after, n) + PdfPages(Child(after, n));
    assert PagesUpTo(v, n + 1) == PagesUpTo(v, n) + PdfPages(Child(v, n));
  }

  lemma StringHasNoPages(x: Json, y: Json)
    ensures x.Str? ==> PdfPages(x) == {}
    ensures y.Str? ==> PdfPages(y) == {}
  {
  }

  lemma {:induction false} UrlsKeepPages(v: Json, from: string, to: string)
    requires from != ""
    ensures PdfPages(RewriteUrls(v, from, to)) == PdfPages(v)
    decreases v
  {
    var after := RewriteUrls(v, from, to);
    UrlsWidth(v, from, to);
    forall i | 0 <= i < Width(v)
      ensures PdfPages(Child(after, i)) == PdfPages(Child(v, i))
    {
      UrlsRewriteChild(v, from, to, i);
      UrlsKeepPages(Child(v, i), from, to);
      StringHasNoPages(Child(v, i), Child(after, i));
    }
    PagesUpToKept(v, after, Width(v));
    if v.Obj? {
      forall i | 0 <= i < |v.fields|
        ensures PageFieldKept(v.fields[i], after.fields[i])
      {
        UrlsKeepField(v, from, to, i);
      }
      OwnPagesKept(v, after);
    }
  }

  lemma UrlsWidth(v: Json, from: string, to: string)
    requires from != ""
    ensures Width(RewriteUrls(v, from, to)) == Width(v)
    ensures RewriteUrls(v, from, to).Obj? <==> v.Obj?
  {
  }

  lemma UrlsKeepField(v: Json, from: string, to: string, i: nat)
    requires from != "" && v.Obj? && i < |v.fields|
    ensures PageFieldKept(v.fields[i], RewriteUrls(v, from, to).fields[i])
  {
  }

  lemma UrlsRewriteChild(v: Json, from: string, to: string, i: nat)
    requires from != "" && i < Width(v)
    ensures var after := RewriteUrls(v, from, to);
            Width(after) == Width(v)
            && (Child(after, i) == RewriteUrls(Child(v, i), from, to) || (Child(after, i).Str? && Child(v, i).Str?))
  {
  }
}
