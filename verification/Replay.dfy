/** Documents, updates and ordered replay.

    The CRDT library is a parameter: `Engine.apply` decodes an update and applies it to an
    encoded document (or fails), `Engine.project` extracts the stable asset references and
    `Engine.digest` is the content hash stored with a checkpoint, and `Engine.reloads` whether an
    encoded document loads again with valid schema metadata. Nothing is assumed about
    any of them, so no result below depends on updates being commutative or idempotent.

    A journal is a map from sequence number to update bytes; it is replayed in ascending
    sequence order, and gaps in the numbering are skipped. */
module Replay {
  import opened Wrappers

  newtype byte = x: int | 0 <= x < 256
  type Bytes = seq<byte>

  datatype AssetRefs = AssetRefs(objectKeys: set<string>, pdfDocIds: set<string>, unstable: bool)

  datatype Engine = Engine(
    apply: (Bytes, Bytes) -> Option<Bytes>,
    project: Bytes -> AssetRefs,
    digest: Bytes -> Bytes,
    reloads: Bytes -> bool)

  /** One journal row as a page returns it. */
  datatype Row = Row(seqNo: int, yupdate: Bytes)

  function Extend(e: Engine, doc: Option<Bytes>, yupdate: Bytes): Option<Bytes> {
    match doc
    case None => None
    case Some(d) => e.apply(d, yupdate)
  }

  /** The document after applying, in order, every update with `lo < seq <= hi`. */
  function Fold(e: Engine, doc: Option<Bytes>, journal: map<int, Bytes>, lo: int, hi: int): Option<Bytes>
    decreases hi - lo
  {
    if hi <= lo then doc
    else
      var before := Fold(e, doc, journal, lo, hi - 1);
      if hi in journal then Extend(e, before, journal[hi]) else before
  }

  /** The rows with `lo < seq <= hi` in ascending order. */
  function RowsOf(journal: map<int, Bytes>, lo: int, hi: int): seq<Row>
    decreases hi - lo
  {
    if hi <= lo then []
    else RowsOf(journal, lo, hi - 1) + if hi in journal then [Row(hi, journal[hi])] else []
  }

  /** Applies a list of rows one after the other, as the readers do. */
  function ReplayRows(e: Engine, doc: Option<Bytes>, rows: seq<Row>): Option<Bytes> {
    if rows == [] then doc
    else Extend(e, ReplayRows(e, doc, rows[..|rows| - 1]), rows[|rows| - 1].yupdate)
  }

  /** Two journals agree on the interval `(lo, hi]`. */
  ghost predicate Agree(j1: map<int, Bytes>, j2: map<int, Bytes>, lo: int, hi: int) {
    forall k | lo < k <= hi :: (k in j1 <==> k in j2) && (k in j1 ==> j1[k] == j2[k])
  }

  lemma {:induction false} FoldFrame(e: Engine, doc: Option<Bytes>, j1: map<int, Bytes>, j2: map<int, Bytes>, lo: int, hi: int)
    requires Agree(j1, j2, lo, hi)
    ensures Fold(e, doc, j1, lo, hi) == Fold(e, doc, j2, lo, hi)
    decreases hi - lo
  {
    if lo < hi {
      FoldFrame(e, doc, j1, j2, lo, hi - 1);
    }
  }

  lemma {:induction false} FoldSplit(e: Engine, doc: Option<Bytes>, j: map<int, Bytes>, lo: int, mid: int, hi: int)
    requires lo <= mid <= hi
    ensures Fold(e, doc, j, lo, hi) == Fold(e, Fold(e, doc, j, lo, mid), j, mid, hi)
    decreases hi - mid
  {
    if mid < hi {
      FoldSplit(e, doc, j, lo, mid, hi - 1);
    }
  }

  lemma {:induction false} FoldGap(e: Engine, doc: Option<Bytes>, j: map<int, Bytes>, lo: int, hi: int)
    requires forall k | lo < k <= hi :: k !in j
    ensures Fold(e, doc, j, lo, hi) == doc
    decreases hi - lo
  {
    if lo < hi {
      FoldGap(e, doc, j, lo, hi - 1);
    }
  }

  lemma {:induction false} RowsFrame(j1: map<int, Bytes>, j2: map<int, Bytes>, lo: int, hi: int)
    requires Agree(j1, j2, lo, hi)
    ensures RowsOf(j1, lo, hi) == RowsOf(j2, lo, hi)
    decreases hi - lo
  {
    if lo < hi {
      RowsFrame(j1, j2, lo, hi - 1);
    }
  }

  lemma {:induction false} RowsSplit(j: map<int, Bytes>, lo: int, mid: int, hi: int)
    requires lo <= mid <= hi
    ensures RowsOf(j, lo, hi) == RowsOf(j, lo, mid) + RowsOf(j, mid, hi)
    decreases hi - mid
  {
    if mid < hi {
      RowsSplit(j, lo, mid, hi - 1);
    }
  }

  /** A page lists exactly the journal rows of its interval, each once, in order. */
  lemma {:induction false} RowsExact(j: map<int, Bytes>, lo: int, hi: int)
    ensures forall i | 0 <= i < |RowsOf(j, lo, hi)| ::
              var r := RowsOf(j, lo, hi)[i];
              lo < r.seqNo <= hi && r.seqNo in j && j[r.seqNo] == r.yupdate
    ensures forall i, k | 0 <= i < k < |RowsOf(j, lo, hi)| ::
              RowsOf(j, lo, hi)[i].seqNo < RowsOf(j, lo, hi)[k].seqNo
    ensures forall q | lo < q <= hi && q in j :: Row(q, j[q]) in RowsOf(j, lo, hi)
    decreases hi - lo
  {
    if lo < hi {
      RowsExact(j, lo, hi - 1);
      var before := RowsOf(j, lo, hi - 1);
      var all := RowsOf(j, lo, hi);
      forall q | lo < q <= hi && q in j
        ensures Row(q, j[q]) in all
      {
        if q == hi {
          assert all[|all| - 1] == Row(hi, j[hi]);
        } else {
          assert Row(q, j[q]) in before;
        }
      }
    }
  }

  lemma {:induction false} RowsEmpty(j: map<int, Bytes>, lo: int, hi: int)
    requires RowsOf(j, lo, hi) == []
    ensures forall k | lo < k <= hi :: k !in j
    decreases hi - lo
  {
    if lo < hi {
      RowsEmpty(j, lo, hi - 1);
    }
  }

  /** Cutting a result set after `n` rows is the result set of a shorter interval. */
  lemma {:induction false} RowsPrefix(j: map<int, Bytes>, lo: int, hi: int, n: nat)
    requires 0 < n <= |RowsOf(j, lo, hi)|
    ensures var next := RowsOf(j, lo, hi)[n - 1].seqNo;
            lo < next <= hi && RowsOf(j, lo, hi)[..n] == RowsOf(j, lo, next)
    decreases hi - lo
  {
    if lo < hi {
      var before, all := RowsOf(j, lo, hi - 1), RowsOf(j, lo, hi);
      if n <= |before| {
        RowsPrefix(j, lo, hi - 1, n);
        assert all[..n] == before[..n];
      } else {
        assert all[..n] == all;
        assert all[n - 1] == Row(hi, j[hi]);
      }
    }
  }

  lemma {:induction false} ReplayAppend(e: Engine, doc: Option<Bytes>, a: seq<Row>, b: seq<Row>)
    ensures ReplayRows(e, doc, a + b) == ReplayRows(e, ReplayRows(e, doc, a), b)
  {
    if b == [] {
      assert a + b == a;
    } else {
      var n := |b| - 1;
      assert (a + b)[..|a + b| - 1] == a + b[..n];
      ReplayAppend(e, doc, a, b[..n]);
    }
  }

  /** Replaying the rows of an interval is folding the journal over it. */
  lemma {:induction false} ReplayIsFold(e: Engine, doc: Option<Bytes>, j: map<int, Bytes>, lo: int, hi: int)
    ensures ReplayRows(e, doc, RowsOf(j, lo, hi)) == Fold(e, doc, j, lo, hi)
    decreases hi - lo
  {
    if lo < hi {
      ReplayIsFold(e, doc, j, lo, hi - 1);
      if hi in j {
        var all := RowsOf(j, lo, hi);
        assert all[..|all| - 1] == RowsOf(j, lo, hi - 1);
      } else {
        assert RowsOf(j, lo, hi) == RowsOf(j, lo, hi - 1);
      }
    }
  }
}
