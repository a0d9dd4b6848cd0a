/** Plan limits on owned boards and stored bytes.

    A quota-consuming transaction takes its owner's advisory lock, reads the usage, evaluates
    it, writes, and commits; each of those is a step, and deletions, which take no lock, fall
    between any two of them. The lock key is a prefix of the owner's id, so different owners
    may share one: `key` is any function. */
module Quotas {
  import opened Wrappers

  const I64_MAX: int := 0x7FFF_FFFF_FFFF_FFFF
  const I64_MIN: int := -0x8000_0000_0000_0000

  datatype Tier = Tier(maxBoards: Option<int>, maxUpload: int, maxStorage: int)
  datatype Usage = Usage(boards: int, bytes: int)
  datatype QuotaError = TierNotFound | BoardLimit | UploadTooLarge | StorageLimit | Database

  datatype File = File(id: nat, size: int)

  /** A board row with the files attached to it; deleting the row deletes them. */
  datatype Board = Board(id: nat, owner: nat, imported: int, files: seq<File>)

  // ---- evaluation ----

  function SaturatingAdd(a: int, b: int): int {
    if a + b > I64_MAX then I64_MAX else if a + b < I64_MIN then I64_MIN else a + b
  }

  function EvaluateBoard(tier: Tier, usage: Usage): Result<(), QuotaError> {
    if tier.maxBoards.Some? && usage.boards >= tier.maxBoards.value then Failure(BoardLimit) else Success(())
  }

  function EvaluateFileSize(tier: Tier, size: int): Result<(), QuotaError> {
    if size < 0 || size > tier.maxUpload then Failure(UploadTooLarge) else Success(())
  }

  function EvaluateStorage(tier: Tier, usage: Usage, size: int): Result<(), QuotaError> {
    if SaturatingAdd(usage.bytes, size) > tier.maxStorage then Failure(StorageLimit) else Success(())
  }

  function EvaluateUpload(tier: Tier, usage: Usage, size: int): Result<(), QuotaError> {
    match EvaluateFileSize(tier, size)
    case Failure(e) => Failure(e)
    case Success(_) => EvaluateStorage(tier, usage, size)
  }

  /** What the saturating check really checks: an unlimited tier at the very top of the range
      accepts any size, every other tier exactly the sizes that fit. */
  lemma StorageCheckExact(tier: Tier, usage: Usage, size: int)
    requires 0 <= usage.bytes <= I64_MAX && 0 <= size
    ensures EvaluateStorage(tier, usage, size).Success? <==>
            usage.bytes + size <= tier.maxStorage || I64_MAX <= tier.maxStorage
  {
  }

  // ---- usage ----

  function FileBytes(files: seq<File>): int {
    if files == [] then 0 else files[0].size + FileBytes(files[1..])
  }

  function BytesOf(boards: seq<Board>, owner: nat): int {
    if boards == [] then 0
    else (if boards[0].owner == owner then boards[0].imported + FileBytes(boards[0].files) else 0)
         + BytesOf(boards[1..], owner)
  }

  function BoardsOf(boards: seq<Board>, owner: nat): nat {
    if boards == [] then 0
    else (if boards[0].owner == owner then 1 else 0) + BoardsOf(boards[1..], owner)
  }

  /** The usage query; its `BIGINT` casts fail on a sum that does not fit. */
  function UsageForOwner(boards: seq<Board>, owner: nat): Option<Usage> {
    if BytesOf(boards, owner) > I64_MAX then None
    else Some(Usage(BoardsOf(boards, owner), BytesOf(boards, owner)))
  }

  predicate Sizes(boards: seq<Board>) {
    forall i | 0 <= i < |boards| ::
      0 <= boards[i].imported && forall j | 0 <= j < |boards[i].files| :: 0 <= boards[i].files[j].size
  }

  // ---- writes ----

  datatype Op = NewBoard | NewFile(board: nat, size: int) | Import(board: nat, size: int)

  function BytesAdded(op: Op): int {
    match op case NewBoard => 0 case NewFile(_, size) => size case Import(_, size) => size
  }

  function Evaluate(tier: Tier, usage: Usage, op: Op): Result<(), QuotaError> {
    match op
    case NewBoard => EvaluateBoard(tier, usage)
    case NewFile(_, size) => EvaluateUpload(tier, usage, size)
    case Import(_, size) => EvaluateStorage(tier, usage, size)
  }

  predicate HasBoard(boards: seq<Board>, id: nat, owner: nat) {
    exists i :: 0 <= i < |boards| && boards[i].id == id && boards[i].owner == owner
  }

  function WithFile(boards: seq<Board>, id: nat, file: File): seq<Board> {
    if boards == [] then []
    else if boards[0].id == id then [boards[0].(files := boards[0].files + [file])] + boards[1..]
    else [boards[0]] + WithFile(boards[1..], id, file)
  }

  /** Overwrites, it does not add. */
  function WithImport(boards: seq<Board>, id: nat, owner: nat, size: int): seq<Board> {
    if boards == [] then []
    else if boards[0].id == id && boards[0].owner == owner then [boards[0].(imported := size)] + boards[1..]
    else [boards[0]] + WithImport(boards[1..], id, owner, size)
  }

  predicate HasId(boards: seq<Board>, id: nat) {
    exists i :: 0 <= i < |boards| && boards[i].id == id
  }

  /** The write of an accepted operation; a vanished board or a taken id is an error. */
  function Write(boards: seq<Board>, owner: nat, op: Op, newId: nat): Result<seq<Board>, QuotaError> {
    match op
    case NewBoard => if HasId(boards, newId) then Failure(Database) else Success(boards + [Board(newId, owner, 0, [])])
    case NewFile(board, size) =>
      if !HasId(boards, board) then Failure(Database) else Success(WithFile(boards, board, File(newId, size)))
    case Import(board, size) =>
      if !HasBoard(boards, board, owner) then Failure(Database) else Success(WithImport(boards, board, owner, size))
  }

  function WithoutBoard(boards: seq<Board>, id: nat): seq<Board> {
    if boards == [] then []
    else (if boards[0].id == id then [] else [boards[0]]) + WithoutBoard(boards[1..], id)
  }

  function FilesWithout(files: seq<File>, id: nat): seq<File> {
    if files == [] then [] else (if files[0].id == id then [] else [files[0]]) + FilesWithout(files[1..], id)
  }

  function WithoutFile(boards: seq<Board>, id: nat): seq<Board> {
    if boards == [] then []
    else [boards[0].(files := FilesWithout(boards[0].files, id))] + WithoutFile(boards[1..], id)
  }

  // ---- transactions ----

  datatype Tx =
    | Begun(owner: nat, op: Op)
    | Locked(owner: nat, op: Op)
    | Accepted(owner: nat, op: Op, usage: Usage)

  /** `used` are the board ids ever given out; ids are random and never repeat. */
  datatype State = State(boards: seq<Board>, txs: map<nat, Tx>, locks: map<int, nat>, used: set<nat>)

  datatype Step =
    | Begin(tx: nat, owner: nat, op: Op)
    | Lock(tx: nat)
    | Check(tx: nat)
    | Commit(tx: nat, newId: nat)
    | Abort(tx: nat)
    | DeleteBoard(id: nat)
    | DeleteFile(id: nat)

  /** The fixed plan: each owner's tier, and its lock key. */
  datatype Plan = Plan(tiers: map<nat, Tier>, key: nat -> int)

  function End(plan: Plan, s: State, t: nat): State
    requires t in s.txs
  {
    var k := plan.key(s.txs[t].owner);
    s.(txs := s.txs - {t}, locks := if k in s.locks && s.locks[k] == t then s.locks - {k} else s.locks)
  }

  function Do(plan: Plan, s: State, step: Step): State {
    match step
    case Begin(t, owner, op) =>
      // Imported sizes are byte counts. An upload is charged to the owner its handler read with
      // the board; the insertion itself checks only that the board still exists.
      if t in s.txs || (op.Import? && op.size < 0) || (op.NewFile? && !HasBoard(s.boards, op.board, owner)) then s else s.(txs := s.txs[t := Begun(owner, op)])
    case Lock(t) =>
      if t !in s.txs || !s.txs[t].Begun? || plan.key(s.txs[t].owner) in s.locks then s
      else s.(txs := s.txs[t := Locked(s.txs[t].owner, s.txs[t].op)], locks := s.locks[plan.key(s.txs[t].owner) := t])
    case Check(t) =>
      if t !in s.txs || !s.txs[t].Locked? then s
      else
        var tx := s.txs[t];
        var usage := UsageForOwner(s.boards, tx.owner);
        if tx.owner !in plan.tiers || usage.None? || Evaluate(plan.tiers[tx.owner], usage.value, tx.op).Failure?
        then End(plan, s, t)
        else s.(txs := s.txs[t := Accepted(tx.owner, tx.op, usage.value)])
    case Commit(t, newId) =>
      if t !in s.txs || !s.txs[t].Accepted? || (s.txs[t].op.NewBoard? && newId in s.used) then s
      else
        (match Write(s.boards, s.txs[t].owner, s.txs[t].op, newId)
         case Failure(_) => End(plan, s, t)
         case Success(boards) =>
           End(plan, s, t).(boards := boards, used := if s.txs[t].op.NewBoard? then s.used + {newId} else s.used))
    case Abort(t) => if t in s.txs then End(plan, s, t) else s
    case DeleteBoard(id) => s.(boards := WithoutBoard(s.boards, id))
    case DeleteFile(id) => s.(boards := WithoutFile(s.boards, id))
  }

  function Run(plan: Plan, s: State, steps: seq<Step>): State {
    if steps == [] then s else Do(plan, Run(plan, s, steps[..|steps| - 1]), steps[|steps| - 1])
  }

  // ---- invariant ----

  predicate Exclusive(plan: Plan, s: State) {
    forall t | t in s.txs && !s.txs[t].Begun? ::
      plan.key(s.txs[t].owner) in s.locks && s.locks[plan.key(s.txs[t].owner)] == t
  }

  /** What a check found still bounds the owner's usage, although deletions may have run. */
  predicate Fresh(plan: Plan, s: State, tx: Tx) {
    tx.Accepted? ==>
      && tx.owner in plan.tiers && Evaluate(plan.tiers[tx.owner], tx.usage, tx.op).Success?
      && BoardsOf(s.boards, tx.owner) <= tx.usage.boards
      && BytesOf(s.boards, tx.owner) <= tx.usage.bytes <= I64_MAX
  }

  predicate NoNegative(s: State) {
    && Sizes(s.boards)
    && forall t | t in s.txs && s.txs[t].op.Import? :: 0 <= s.txs[t].op.size
  }

  /** Board counts are always limited; stored bytes wherever the check cannot saturate. */
  predicate Within(tier: Tier, boards: seq<Board>, owner: nat) {
    && (tier.maxBoards.Some? ==> BoardsOf(boards, owner) <= tier.maxBoards.value)
    && (tier.maxStorage < I64_MAX ==> BytesOf(boards, owner) <= tier.maxStorage)
  }

  predicate Limited(plan: Plan, s: State) {
    forall o | o in plan.tiers :: Within(plan.tiers[o], s.boards, o)
  }

  function Owners(boards: seq<Board>): set<(nat, nat)> {
    set i | 0 <= i < |boards| :: (boards[i].id, boards[i].owner)
  }

  /** Every board of this id belongs to this owner. */
  predicate OwnedBy(boards: seq<Board>, id: nat, owner: nat) {
    forall x | x in Owners(boards) && x.0 == id :: x.1 == owner
  }

  /** Boards keep their owners, and an upload's board is known. */
  predicate Known(s: State) {
    && (forall x | x in Owners(s.boards) :: x.0 in s.used)
    && (forall x, y | x in Owners(s.boards) && y in Owners(s.boards) && x.0 == y.0 :: x.1 == y.1)
    && (forall t | t in s.txs && s.txs[t].op.NewFile? ::
          s.txs[t].op.board in s.used && OwnedBy(s.boards, s.txs[t].op.board, s.txs[t].owner))
  }

  predicate Inv(plan: Plan, s: State) {
    && Known(s) && NoNegative(s) && Exclusive(plan, s) && (forall t | t in s.txs :: Fresh(plan, s, s.txs[t]))
    && Limited(plan, s)
  }

  // ---- sums ----

  lemma {:induction false} FileBytesPush(files: seq<File>, f: File)
    ensures FileBytes(files + [f]) == FileBytes(files) + f.size
  {
    if files != [] {
      assert (files + [f])[1..] == files[1..] + [f];
      FileBytesPush(files[1..], f);
    } else {
      assert [f][1..] == [];
    }
  }

  lemma {:induction false} FilesNonNegative(files: seq<File>)
    requires forall j | 0 <= j < |files| :: 0 <= files[j].size
    ensures 0 <= FileBytes(files)
  {
    if files != [] {
      FilesNonNegative(files[1..]);
    }
  }

  lemma {:induction false} BoardPush(boards: seq<Board>, b: Board, owner: nat)
    ensures BoardsOf(boards + [b], owner) == BoardsOf(boards, owner) + if b.owner == owner then 1 else 0
    ensures BytesOf(boards + [b], owner)
            == BytesOf(boards, owner) + if b.owner == owner then b.imported + FileBytes(b.files) else 0
  {
    if boards != [] {
      assert (boards + [b])[1..] == boards[1..] + [b];
      BoardPush(boards[1..], b, owner);
    } else {
      assert [b][1..] == [];
    }
  }

  /** A file charges exactly its size to its board's owner and to nobody else. */
  lemma {:induction false} FileCharged(boards: seq<Board>, id: nat, owner: nat, f: File, o: nat)
    requires HasId(boards, id) && OwnedBy(boards, id, owner)
    ensures BoardsOf(WithFile(boards, id, f), o) == BoardsOf(boards, o)
    ensures BytesOf(WithFile(boards, id, f), o) == BytesOf(boards, o) + if o == owner then f.size else 0
  {
    var after := WithFile(boards, id, f);
    if boards[0].id == id {
      assert (boards[0].id, boards[0].owner) in Owners(boards);
      FileBytesPush(boards[0].files, f);
      assert after[1..] == boards[1..];
    } else {
      TailHasId(boards, id);
      TailOwners(boards);
      FileCharged(boards[1..], id, owner, f, o);
      assert after[1..] == WithFile(boards[1..], id, f);
    }
  }

  /** An import charges at most its size: it replaces what the board had imported before. */
  lemma {:induction false} ImportCharged(boards: seq<Board>, id: nat, owner: nat, size: int, o: nat)
    requires HasBoard(boards, id, owner) && Sizes(boards)
    ensures BoardsOf(WithImport(boards, id, owner, size), o) == BoardsOf(boards, o)
    ensures o != owner ==> BytesOf(WithImport(boards, id, owner, size), o) == BytesOf(boards, o)
    ensures BytesOf(WithImport(boards, id, owner, size), owner) <= BytesOf(boards, owner) + size
  {
    var after := WithImport(boards, id, owner, size);
    if boards[0].id == id && boards[0].owner == owner {
      assert after[1..] == boards[1..];
    } else {
      TailHas(boards, id, owner);
      ImportCharged(boards[1..], id, owner, size, o);
      assert after[1..] == WithImport(boards[1..], id, owner, size);
    }
  }

  lemma TailHasId(boards: seq<Board>, id: nat)
    requires HasId(boards, id) && boards[0].id != id
    ensures HasId(boards[1..], id)
  {
    var i :| 0 <= i < |boards| && boards[i].id == id;
    assert boards[1..][i - 1] == boards[i];
  }

  lemma TailOwners(boards: seq<Board>)
    requires boards != []
    ensures Owners(boards) == {(boards[0].id, boards[0].owner)} + Owners(boards[1..])
  {
    forall x
      ensures x in Owners(boards) <==> x in {(boards[0].id, boards[0].owner)} + Owners(boards[1..])
    {
      if x in Owners(boards) {
        var i :| 0 <= i < |boards| && x == (boards[i].id, boards[i].owner);
        assert i > 0 ==> boards[1..][i - 1] == boards[i];
      }
      if x in Owners(boards[1..]) {
        var i :| 0 <= i < |boards[1..]| && x == (boards[1..][i].id, boards[1..][i].owner);
        assert boards[i + 1] == boards[1..][i];
      }
    }
  }

  /** Writes to a board and deletions give no board a new owner. */
  lemma {:induction false} SameOwners(boards: seq<Board>, id: nat, owner: nat, f: File, size: int)
    ensures Owners(WithFile(boards, id, f)) == Owners(boards)
    ensures Owners(WithImport(boards, id, owner, size)) == Owners(boards)
    ensures Owners(WithoutFile(boards, id)) == Owners(boards)
  {
    if boards != [] {
      SameOwners(boards[1..], id, owner, f, size);
      TailOwners(boards);
      var a, b, c := WithFile(boards, id, f), WithImport(boards, id, owner, size), WithoutFile(boards, id);
      TailOwners(a);
      TailOwners(b);
      TailOwners(c);
      assert a[1..] == if boards[0].id == id then boards[1..] else WithFile(boards[1..], id, f);
      assert b[1..] == if boards[0].id == id && boards[0].owner == owner then boards[1..] else WithImport(boards[1..], id, owner, size);
      assert c[1..] == WithoutFile(boards[1..], id);
    }
  }

  lemma {:induction false} FewerOwners(boards: seq<Board>, id: nat)
    ensures Owners(WithoutBoard(boards, id)) <= Owners(boards)
  {
    if boards != [] {
      FewerOwners(boards[1..], id);
      TailOwners(boards);
      WithoutCons(boards, id);
      if boards[0].id != id {
        var after := WithoutBoard(boards, id);
        TailOwners(after);
        assert after[1..] == WithoutBoard(boards[1..], id);
      }
    }
  }

  lemma PushOwners(boards: seq<Board>, b: Board)
    ensures Owners(boards + [b]) == Owners(boards) + {(b.id, b.owner)}
  {
    var after := boards + [b];
    forall x
      ensures x in Owners(after) <==> x in Owners(boards) + {(b.id, b.owner)}
    {
      if x in Owners(boards) {
        var i :| 0 <= i < |boards| && x == (boards[i].id, boards[i].owner);
        assert after[i] == boards[i];
      }
      if x == (b.id, b.owner) {
        assert after[|boards|] == b;
      }
    }
  }

  lemma TailHas(boards: seq<Board>, id: nat, owner: nat)
    requires HasBoard(boards, id, owner) && !(boards[0].id == id && boards[0].owner == owner)
    ensures HasBoard(boards[1..], id, owner)
  {
    var i :| 0 <= i < |boards| && boards[i].id == id && boards[i].owner == owner;
    assert boards[1..][i - 1] == boards[i];
  }

  lemma {:induction false} SizesKept(boards: seq<Board>, id: nat, owner: nat, f: File, size: int)
    requires Sizes(boards)
    ensures 0 <= f.size ==> Sizes(WithFile(boards, id, f))
    ensures 0 <= size ==> Sizes(WithImport(boards, id, owner, size))
  {
    if boards != [] {
      SizesKept(boards[1..], id, owner, f, size);
    }
  }

  lemma BoardCons(b: Board, rest: seq<Board>, o: nat)
    ensures BoardsOf([b] + rest, o) == (if b.owner == o then 1 else 0) + BoardsOf(rest, o)
    ensures BytesOf([b] + rest, o) == (if b.owner == o then b.imported + FileBytes(b.files) else 0) + BytesOf(rest, o)
  {
    assert ([b] + rest)[1..] == rest;
  }

  lemma WithoutCons(boards: seq<Board>, id: nat)
    requires boards != []
    ensures WithoutBoard(boards, id)
            == if boards[0].id == id then WithoutBoard(boards[1..], id) else [boards[0]] + WithoutBoard(boards[1..], id)
  {
    assert [] + WithoutBoard(boards[1..], id) == WithoutBoard(boards[1..], id);
  }

  lemma {:induction false} BoardDeleted(boards: seq<Board>, id: nat, o: nat)
    requires Sizes(boards)
    ensures BoardsOf(WithoutBoard(boards, id), o) <= BoardsOf(boards, o)
    ensures BytesOf(WithoutBoard(boards, id), o) <= BytesOf(boards, o)
  {
    if boards != [] {
      BoardDeleted(boards[1..], id, o);
      FilesNonNegative(boards[0].files);
      WithoutCons(boards, id);
      BoardCons(boards[0], WithoutBoard(boards[1..], id), o);
    }
  }

  lemma {:induction false} BoardDeletedSizes(boards: seq<Board>, id: nat)
    requires Sizes(boards)
    ensures Sizes(WithoutBoard(boards, id))
  {
    if boards != [] {
      BoardDeletedSizes(boards[1..], id);
      WithoutCons(boards, id);
    }
  }

  lemma {:induction false} FileDeleted(files: seq<File>, id: nat)
    requires forall j | 0 <= j < |files| :: 0 <= files[j].size
    ensures FileBytes(FilesWithout(files, id)) <= FileBytes(files)
    ensures forall j | 0 <= j < |FilesWithout(files, id)| :: 0 <= FilesWithout(files, id)[j].size
  {
    if files != [] {
      FileDeleted(files[1..], id);
      var rest := FilesWithout(files[1..], id);
      if files[0].id != id {
        assert ([files[0]] + rest)[1..] == rest;
      } else {
        assert [] + rest == rest;
      }
    }
  }

  lemma {:induction false} FilesDeleted(boards: seq<Board>, id: nat, o: nat)
    requires Sizes(boards)
    ensures BoardsOf(WithoutFile(boards, id), o) == BoardsOf(boards, o)
    ensures BytesOf(WithoutFile(boards, id), o) <= BytesOf(boards, o)
    ensures Sizes(WithoutFile(boards, id))
  {
    if boards != [] {
      FilesDeleted(boards[1..], id, o);
      FileDeleted(boards[0].files, id);
      assert WithoutFile(boards, id)[1..] == WithoutFile(boards[1..], id);
    }
  }

  // ---- every step ----

  /** The three accepted writes charge their owner at most what was evaluated, and nobody else. */
  lemma WriteCharged(boards: seq<Board>, owner: nat, op: Op, newId: nat, o: nat)
    requires Sizes(boards) && Write(boards, owner, op, newId).Success?
    requires op.NewFile? ==> OwnedBy(boards, op.board, owner)
    ensures var after := Write(boards, owner, op, newId).value;
            && BoardsOf(after, o) <= BoardsOf(boards, o) + (if o == owner && op.NewBoard? then 1 else 0)
            && (o != owner ==> BytesOf(after, o) == BytesOf(boards, o))
            && (o == owner ==> BytesOf(after, o) <= BytesOf(boards, o) + BytesAdded(op))
            && (0 <= BytesAdded(op) ==> Sizes(after))
  {
    match op
    case NewBoard => BoardPush(boards, Board(newId, owner, 0, []), o);
    case NewFile(board, size) =>
      FileCharged(boards, board, owner, File(newId, size), o);
      SizesKept(boards, board, owner, File(newId, size), 0);
    case Import(board, size) =>
      ImportCharged(boards, board, owner, size, o);
      SizesKept(boards, board, owner, File(newId, 0), size);
  }

  /** An accepted evaluation leaves room for what the write adds. */
  lemma RoomFor(tier: Tier, usage: Usage, op: Op)
    requires Evaluate(tier, usage, op).Success? && (op.Import? ==> 0 <= op.size)
    ensures 0 <= BytesAdded(op)
    ensures !op.NewBoard? && tier.maxStorage < I64_MAX ==> usage.bytes + BytesAdded(op) <= tier.maxStorage
    ensures op.NewBoard? && tier.maxBoards.Some? ==> usage.boards + 1 <= tier.maxBoards.value
  {
  }

  lemma CommitLimited(plan: Plan, s: State, t: nat, boards: seq<Board>, newId: nat, o: nat)
    requires Known(s) && NoNegative(s) && Limited(plan, s) && t in s.txs && Fresh(plan, s, s.txs[t]) && s.txs[t].Accepted?
    requires Write(s.boards, s.txs[t].owner, s.txs[t].op, newId) == Success(boards)
    requires o in plan.tiers
    ensures Within(plan.tiers[o], boards, o)
  {
    var tx := s.txs[t];
    WriteCharged(s.boards, tx.owner, tx.op, newId, o);
    if o == tx.owner {
      RoomFor(plan.tiers[o], tx.usage, tx.op);
    }
  }

  lemma CommitKeeps(plan: Plan, s: State, t: nat, newId: nat)
    requires Inv(plan, s)
    ensures Inv(plan, Do(plan, s, Commit(t, newId)))
  {
    if t in s.txs && s.txs[t].Accepted? && !(s.txs[t].op.NewBoard? && newId in s.used) {
      EndKeeps(plan, s, t);
      var tx := s.txs[t];
      var s' := Do(plan, s, Commit(t, newId));
      if Write(s.boards, tx.owner, tx.op, newId).Success? {
        RoomFor(plan.tiers[tx.owner], tx.usage, tx.op);
        CommitKnown(plan, s, t, newId);
        WriteCharged(s.boards, tx.owner, tx.op, newId, tx.owner);
        forall u | u in s'.txs
          ensures Fresh(plan, s', s'.txs[u])
        {
          if s'.txs[u].Accepted? {
            assert s.txs[u].owner != tx.owner;
            WriteCharged(s.boards, tx.owner, tx.op, newId, s.txs[u].owner);
          }
        }
        forall o | o in plan.tiers
          ensures Within(plan.tiers[o], s'.boards, o)
        {
          CommitLimited(plan, s, t, s'.boards, newId, o);
        }
      }
    }
  }

  lemma CommitKnown(plan: Plan, s: State, t: nat, newId: nat)
    requires Known(s) && t in s.txs && s.txs[t].Accepted? && !(s.txs[t].op.NewBoard? && newId in s.used)
    ensures Known(Do(plan, s, Commit(t, newId)))
  {
    match s.txs[t].op
    case NewBoard => PushOwners(s.boards, Board(newId, s.txs[t].owner, 0, []));
    case NewFile(board, size) => SameOwners(s.boards, board, 0, File(newId, size), 0);
    case Import(board, size) => SameOwners(s.boards, board, s.txs[t].owner, File(0, 0), size);
  }

  lemma EndKeeps(plan: Plan, s: State, t: nat)
    requires Inv(plan, s) && t in s.txs
    ensures Inv(plan, End(plan, s, t))
    ensures Exclusive(plan, End(plan, s, t))
  {
  }

  lemma CheckKeeps(plan: Plan, s: State, t: nat)
    requires Inv(plan, s)
    ensures Inv(plan, Do(plan, s, Check(t)))
  {
    if t in s.txs {
      EndKeeps(plan, s, t);
    }
  }

  /** Fewer rows keep every bound. */
  lemma FewerKeeps(plan: Plan, s: State, boards: seq<Board>)
    requires Inv(plan, s) && Sizes(boards) && Owners(boards) <= Owners(s.boards)
    requires forall o :: BoardsOf(boards, o) <= BoardsOf(s.boards, o) && BytesOf(boards, o) <= BytesOf(s.boards, o)
    ensures Inv(plan, s.(boards := boards))
  {
  }

  /** An upload starts with the owner of its board, of whom there is only one. */
  lemma BeginKeeps(plan: Plan, s: State, t: nat, owner: nat, op: Op)
    requires Inv(plan, s)
    ensures Inv(plan, Do(plan, s, Begin(t, owner, op)))
  {
    if op.NewFile? && HasBoard(s.boards, op.board, owner) {
      var i :| 0 <= i < |s.boards| && s.boards[i].id == op.board && s.boards[i].owner == owner;
      assert (op.board, owner) in Owners(s.boards);
    }
  }

  lemma StepKeeps(plan: Plan, s: State, step: Step)
    requires Inv(plan, s)
    ensures Inv(plan, Do(plan, s, step))
  {
    match step
    case Begin(t, owner, op) => BeginKeeps(plan, s, t, owner, op);
    case Lock(t) =>
    case Check(t) => CheckKeeps(plan, s, t);
    case Commit(t, newId) => CommitKeeps(plan, s, t, newId);
    case Abort(t) => if t in s.txs { EndKeeps(plan, s, t); }
    case DeleteBoard(id) =>
      BoardDeletedSizes(s.boards, id);
      FewerOwners(s.boards, id);
      forall o: nat { BoardDeleted(s.boards, id, o); }
      FewerKeeps(plan, s, WithoutBoard(s.boards, id));
    case DeleteFile(id) =>
      FilesDeleted(s.boards, id, 0);
      SameOwners(s.boards, id, 0, File(0, 0), 0);
      forall o: nat { FilesDeleted(s.boards, id, o); }
      FewerKeeps(plan, s, WithoutFile(s.boards, id));
  }

  /** Any interleaving of board creation, uploads, import accounting and deletion, by any
      number of owners that may share lock keys, keeps every owner within its plan, provided
      the plan's storage limit lies below the top of the 64-bit range. */
  lemma {:induction false} LimitsHold(plan: Plan, s: State, steps: seq<Step>)
    requires s.txs == map[] && s.locks == map[] && Sizes(s.boards) && Limited(plan, s) && Known(s)
    ensures Inv(plan, Run(plan, s, steps))
    ensures Limited(plan, Run(plan, s, steps))
  {
    if steps != [] {
      LimitsHold(plan, s, steps[..|steps| - 1]);
      StepKeeps(plan, Run(plan, s, steps[..|steps| - 1]), steps[|steps| - 1]);
    }
  }

  /** With the limit at the top of the range the saturating check lets an import pass that
      does not fit, and the owner's usage can no longer be read. */
  lemma TopLimitOverflows(plan: Plan)
    requires plan.tiers == map[0 := Tier(None, 100, I64_MAX)]
    ensures var boards := [Board(1, 0, I64_MAX, []), Board(2, 0, 0, [])];
            var s := Do(plan, Do(plan, Do(plan, Do(plan, State(boards, map[], map[], {1, 2}), Begin(5, 0, Import(2, 10))),
                                          Lock(5)), Check(5)), Commit(5, 0));
            && BytesOf(s.boards, 0) == I64_MAX + 10 && UsageForOwner(s.boards, 0).None?
  {
    var boards := [Board(1, 0, I64_MAX, []), Board(2, 0, 0, [])];
    assert boards[1..] == [Board(2, 0, 0, [])] && boards[1..][1..] == [];
    assert BytesOf(boards[1..], 0) == 0;
    var s1 := Do(plan, Do(plan, State(boards, map[], map[], {1, 2}), Begin(5, 0, Import(2, 10))), Lock(5));
    assert s1.txs == map[5 := Locked(0, Import(2, 10))];
    var s2 := Do(plan, s1, Check(5));
    assert s2.txs == map[5 := Accepted(0, Import(2, 10), Usage(2, I64_MAX))] by {
      assert BoardsOf(boards[1..], 0) == 1;
    }
    assert boards[1].id == 2 && boards[1].owner == 0;
    var s3 := Do(plan, s2, Commit(5, 0));
    var after := WithImport(boards, 2, 0, 10);
    assert after == [Board(1, 0, I64_MAX, []), Board(2, 0, 10, [])] by {
      assert WithImport(boards[1..], 2, 0, 10) == [Board(2, 0, 10, [])];
    }
    assert after[1..] == [Board(2, 0, 10, [])] && after[1..][1..] == [];
    assert BytesOf(after[1..], 0) == 10;
  }

  // ---- one transaction ----

  /** The outcome of a transaction that nothing interleaves with. */
  function Transact(plan: Plan, boards: seq<Board>, owner: nat, op: Op, newId: nat): Result<seq<Board>, QuotaError> {
    if owner !in plan.tiers then Failure(TierNotFound)
    else if UsageForOwner(boards, owner).None? then Failure(Database)
    else match Evaluate(plan.tiers[owner], UsageForOwner(boards, owner).value, op)
         case Failure(e) => Failure(e)
         case Success(_) => Write(boards, owner, op, newId)
  }

  /** It is the run of its steps. */
  lemma TransactIsRun(plan: Plan, s: State, t: nat, owner: nat, op: Op, newId: nat)
    requires t !in s.txs && plan.key(owner) !in s.locks && (op.Import? ==> 0 <= op.size)
    requires (op.NewFile? ==> HasBoard(s.boards, op.board, owner)) && (op.NewBoard? ==> newId !in s.used)
    ensures var s' := Do(plan, Do(plan, Do(plan, Do(plan, s, Begin(t, owner, op)), Lock(t)), Check(t)), Commit(t, newId));
            && s'.txs == s.txs && s'.locks == s.locks
            && s'.boards == match Transact(plan, s.boards, owner, op, newId) case Success(b) => b case Failure(_) => s.boards
  {
    var s1 := Do(plan, s, Begin(t, owner, op));
    var s2 := Do(plan, s1, Lock(t));
    assert s2.txs - {t} == s.txs && s2.locks - {plan.key(owner)} == s.locks;
    var s3 := Do(plan, s2, Check(t));
    if t in s3.txs {
      assert s3.txs - {t} == s.txs;
    }
  }

  class BoardTable {
    var boards: seq<Board>

    constructor ()
      ensures boards == []
    {
      boards := [];
    }

    /** The sums of the usage query, row by row. */
    method MeasureUsage(owner: nat) returns (usage: Option<Usage>)
      ensures usage == UsageForOwner(boards, owner)
    {
      var count, bytes := 0, 0;
      var i := |boards|;
      while i > 0
        invariant 0 <= i <= |boards|
        invariant count == BoardsOf(boards[i..], owner) && bytes == BytesOf(boards[i..], owner)
      {
        i := i - 1;
        assert boards[i..][1..] == boards[i + 1..];
        if boards[i].owner == owner {
          var files := boards[i].files;
          var total, j := 0, |files|;
          while j > 0
            invariant 0 <= j <= |files| && total == FileBytes(files[j..])
          {
            j := j - 1;
            assert files[j..][1..] == files[j + 1..];
            total := total + files[j].size;
          }
          assert files[0..] == files;
          count, bytes := count + 1, bytes + boards[i].imported + total;
        }
      }
      assert boards[0..] == boards;
      usage := if bytes > I64_MAX then None else Some(Usage(count, bytes));
    }

    /** `create_board`, `insert_board_file` and `record_imported_storage` under their lock. */
    method Apply(plan: Plan, owner: nat, op: Op, newId: nat) returns (r: Result<(), QuotaError>)
      modifies this
      ensures match Transact(plan, old(boards), owner, op, newId)
              case Failure(e) => r == Failure(e) && boards == old(boards)
              case Success(after) => r == Success(()) && boards == after
    {
      if owner !in plan.tiers { return Failure(TierNotFound); }
      var usage := MeasureUsage(owner);
      if usage.None? { return Failure(Database); }
      var verdict := Evaluate(plan.tiers[owner], usage.value, op);
      if verdict.Failure? { return verdict; }
      if op.NewBoard? {
        if HasId(boards, newId) { return Failure(Database); }
        boards := boards + [Board(newId, owner, 0, [])];
      } else if op.NewFile? {
        if !HasId(boards, op.board) { return Failure(Database); }
        boards := WithFile(boards, op.board, File(newId, op.size));
      } else {
        if !HasBoard(boards, op.board, owner) { return Failure(Database); }
        boards := WithImport(boards, op.board, owner, op.size);
      }
      r := Success(());
    }
  }
}
