/**
  The database session as the hub's code uses it: the loops that re-wrap keys, move secrets to the
  active key batch by batch, run a whole job beside other requests, and migrate legacy secrets.
 */
module Reencryption {
  import opened Prelude
  import opened TokenText
  import opened Fernet
  import opened KeyWrapping
  import opened Vault

  const BATCH_SIZE: nat := 50

  /** A commit by another request while the job runs. Adding a key is refused meanwhile. */
  datatype Foreign = Store(cell: Cell, plain: string, iv: nat) | Drop(cell: Cell)

  /** The settings table has one row, with id 1. */
  predicate SettingsSingleton(cells: Cells) {
    forall c :: c in cells && InSettings(c.col) ==> c.row == 1
  }

  predicate ForeignOk(ws: seq<Foreign>) {
    forall i :: 0 <= i < |ws| && InSettings(ws[i].cell.col) ==> ws[i].cell.row == 1
  }

  function TruthAfterOne(truth: map<Cell, string>, ws: seq<Foreign>): map<Cell, string> {
    if ws == [] then truth
    else
      var before := TruthAfterOne(truth, ws[..|ws| - 1]);
      match ws[|ws| - 1]
      case Store(c, p, _) => before[c := p]
      case Drop(c) => before - {c}
  }

  /** The last plaintexts written after the first `steps` batches of other requests' commits. */
  function TruthAfter(truth: map<Cell, string>, env: nat -> seq<Foreign>, steps: nat): map<Cell, string> {
    if steps == 0 then truth else TruthAfterOne(TruthAfter(truth, env, steps - 1), env(steps - 1))
  }

  // ------------------------------------------------------------------ values still to move

  /** The handled values that name a retiring key: the measure of the job. */
  function Pending(cells: Cells, retiring: set<string>): set<Cell> {
    set c | c in cells && Handled(c.col) && OnRetiring(cells[c], retiring)
  }

  /** A value that changed was pending and now names the active key. */
  ghost predicate OnlyMoved(v: Vault, v': Vault, col: Column, retiring: set<string>) {
    && v'.deks == v.deks && v'.active == v.active && v'.cells.Keys == v.cells.Keys
    && forall c :: c in v.cells && v'.cells[c] != v.cells[c] ==>
         c.col == col && OnRetiring(v.cells[c], retiring) && TokenDekId(v'.cells[c]) == v.active
  }

  lemma MoveOne(f: Scheme, sec: Secrets, v: Vault, c: Cell, plain: string, retiring: set<string>, iv: nat)
    requires Ideal(f) && v.active.Some? && IsDekId(v.active.value) && v.active.value !in retiring
    requires EncryptStr(f, sec, v, plain, iv).Ok?
    requires c in Pending(v.cells, retiring)
    ensures var w := v.(cells := v.cells[c := EncryptStr(f, sec, v, plain, iv).value]);
            OnlyMoved(v, w, c.col, retiring) && Pending(w.cells, retiring) == Pending(v.cells, retiring) - {c}
  {
    EncryptRoundTrip(f, sec, v, plain, iv);
  }

  /** Moving a pending value succeeds, keeps the vault sound, and takes one value off the measure. */
  lemma MoveFirst(f: Scheme, sec: Secrets, v: Vault, truth: map<Cell, string>, c: Cell, retiring: set<string>, iv: nat)
    requires Ideal(f) && KeysSound(f, sec, v) && SecretsSound(f, sec, v, truth)
    requires v.active.value !in retiring && c in Pending(v.cells, retiring)
    ensures c in truth && EncryptStr(f, sec, v, truth[c], iv).Ok?
    ensures var w := v.(cells := v.cells[c := EncryptStr(f, sec, v, truth[c], iv).value]);
            && KeysSound(f, sec, w) && SecretsSound(f, sec, w, truth)
            && OnlyMoved(v, w, c.col, retiring) && Pending(w.cells, retiring) == Pending(v.cells, retiring) - {c}
  {
    RestoreKeepsSound(f, sec, v, truth, c, iv);
    MoveOne(f, sec, v, c, truth[c], retiring, iv);
  }

  /** A batch moved exactly as many values as it reports, at most `limit`, and none else. */
  ghost predicate Batched(v: Vault, v': Vault, n: nat, col: Column, rows: seq<nat>, retiring: set<string>, limit: nat) {
    && OnlyMoved(v, v', col, retiring)
    && Pending(v'.cells, retiring) <= Pending(v.cells, retiring)
    && n == |Pending(v.cells, retiring)| - |Pending(v'.cells, retiring)|
    && n <= limit
    && (n < limit ==> forall r :: r in rows ==> Cell(col, r) !in Pending(v'.cells, retiring))
  }

  lemma BatchedAfterMove(v: Vault, w: Vault, v': Vault, n: nat, col: Column, rows: seq<nat>, retiring: set<string>,
                         limit: nat)
    requires rows != [] && limit > 0 && v.active.Some? && v.active.value !in retiring
    requires OnlyMoved(v, w, col, retiring)
    requires Cell(col, rows[0]) in Pending(v.cells, retiring)
    requires Pending(w.cells, retiring) == Pending(v.cells, retiring) - {Cell(col, rows[0])}
    requires Batched(w, v', n, col, rows[1..], retiring, limit - 1)
    ensures Batched(v, v', n + 1, col, rows, retiring, limit)
  {
  }

  lemma BatchedAfterSkip(v: Vault, v': Vault, n: nat, col: Column, rows: seq<nat>, retiring: set<string>, limit: nat)
    requires rows != [] && Cell(col, rows[0]) !in Pending(v.cells, retiring)
    requires Batched(v, v', n, col, rows[1..], retiring, limit)
    ensures Batched(v, v', n, col, rows, retiring, limit)
  {
  }

  /** One row of a batch: its value moves and the rest of the batch follows. */
  lemma RowThenRest(
    f: Scheme, sec: Secrets, v: Vault, truth: map<Cell, string>,
    col: Column, rows: seq<nat>, retiring: set<string>, limit: nat, iv: nat, v': Vault, n: nat)
    returns (w: Vault, rest: seq<nat>, less: nat, next: nat)
    requires Ideal(f) && KeysSound(f, sec, v) && SecretsSound(f, sec, v, truth) && Handled(col)
    requires v.active.value !in retiring
    requires rows != [] && limit != 0 && Cell(col, rows[0]) in v.cells
    requires OnRetiring(v.cells[Cell(col, rows[0])], retiring)
    requires ReencryptRows(f, sec, v, col, rows, retiring, limit, iv) == Ok((v', n))
    ensures KeysSound(f, sec, w) && SecretsSound(f, sec, w, truth) && OnlyMoved(v, w, col, retiring)
    ensures Pending(w.cells, retiring) == Pending(v.cells, retiring) - {Cell(col, rows[0])}
    ensures rest == rows[1..] && less == limit - 1
    ensures n > 0 && ReencryptRows(f, sec, w, col, rest, retiring, less, next) == Ok((v', n - 1))
  {
    rest, less, next := rows[1..], limit - 1, iv + 1;
    var c := Cell(col, rows[0]);
    MoveFirst(f, sec, v, truth, c, retiring, iv);
    assert Reads(f, sec, v, c, truth[c]);
    RowNext(f, sec, v, col, rows, retiring, limit, iv);
    w := v.(cells := v.cells[c := EncryptStr(f, sec, v, truth[c], iv).value]);
  }

  lemma RowSkipped(
    f: Scheme, sec: Secrets, v: Vault, col: Column, rows: seq<nat>, retiring: set<string>, limit: nat, iv: nat)
    requires rows != [] && limit != 0
    requires !(Cell(col, rows[0]) in v.cells && OnRetiring(v.cells[Cell(col, rows[0])], retiring))
    ensures ReencryptRows(f, sec, v, col, rows, retiring, limit, iv)
            == ReencryptRows(f, sec, v, col, rows[1..], retiring, limit, iv)
  {
  }

  lemma RowsDone(
    f: Scheme, sec: Secrets, v: Vault, col: Column, rows: seq<nat>, retiring: set<string>, limit: nat, iv: nat)
    requires rows == [] || limit == 0
    ensures ReencryptRows(f, sec, v, col, rows, retiring, limit, iv) == Ok((v, 0))
    ensures Batched(v, v, 0, col, rows, retiring, limit)
  {
  }

  lemma {:induction false} MovingBatch(
    f: Scheme, sec: Secrets, v: Vault, truth: map<Cell, string>,
    col: Column, rows: seq<nat>, retiring: set<string>, limit: nat, iv: nat, v': Vault, n: nat)
    requires Ideal(f) && KeysSound(f, sec, v) && SecretsSound(f, sec, v, truth) && Handled(col)
    requires v.active.value !in retiring
    requires ReencryptRows(f, sec, v, col, rows, retiring, limit, iv) == Ok((v', n))
    requires rows != [] && limit != 0 && Cell(col, rows[0]) in v.cells
    requires OnRetiring(v.cells[Cell(col, rows[0])], retiring)
    ensures Batched(v, v', n, col, rows, retiring, limit)
    decreases |rows|, 0
  {
    var w, rest, less, next := RowThenRest(f, sec, v, truth, col, rows, retiring, limit, iv, v', n);
    BatchMoves(f, sec, w, truth, col, rest, retiring, less, next, v', n - 1);
    BatchedAfterMove(v, w, v', n - 1, col, rows, retiring, limit);
  }

  lemma {:induction false} SkippingBatch(
    f: Scheme, sec: Secrets, v: Vault, truth: map<Cell, string>,
    col: Column, rows: seq<nat>, retiring: set<string>, limit: nat, iv: nat, v': Vault, n: nat)
    requires Ideal(f) && KeysSound(f, sec, v) && SecretsSound(f, sec, v, truth) && Handled(col)
    requires v.active.value !in retiring
    requires ReencryptRows(f, sec, v, col, rows, retiring, limit, iv) == Ok((v', n))
    requires rows != [] && limit != 0
    requires !(Cell(col, rows[0]) in v.cells && OnRetiring(v.cells[Cell(col, rows[0])], retiring))
    ensures Batched(v, v', n, col, rows, retiring, limit)
    decreases |rows|, 0
  {
    RowSkipped(f, sec, v, col, rows, retiring, limit, iv);
    BatchMoves(f, sec, v, truth, col, rows[1..], retiring, limit, iv, v', n);
    BatchedAfterSkip(v, v', n, col, rows, retiring, limit);
  }

  /** A batch on a sound vault moves what it reports, and the column's pending values when below its limit. */
  lemma {:induction false} BatchMoves(
    f: Scheme, sec: Secrets, v: Vault, truth: map<Cell, string>,
    col: Column, rows: seq<nat>, retiring: set<string>, limit: nat, iv: nat, v': Vault, n: nat)
    requires Ideal(f) && KeysSound(f, sec, v) && SecretsSound(f, sec, v, truth) && Handled(col)
    requires v.active.value !in retiring
    requires ReencryptRows(f, sec, v, col, rows, retiring, limit, iv) == Ok((v', n))
    ensures Batched(v, v', n, col, rows, retiring, limit)
    decreases |rows|, 1
  {
    if rows == [] || limit == 0 {
      RowsDone(f, sec, v, col, rows, retiring, limit, iv);
    } else if Cell(col, rows[0]) in v.cells && OnRetiring(v.cells[Cell(col, rows[0])], retiring) {
      MovingBatch(f, sec, v, truth, col, rows, retiring, limit, iv, v', n);
    } else {
      SkippingBatch(f, sec, v, truth, col, rows, retiring, limit, iv, v', n);
    }
  }

  /** A value decrypted, and encrypted again under the active key. */
  function Reencrypted(f: Scheme, sec: Secrets, v: Vault, token: string, iv: nat): Result<string, CryptoError> {
    match DecryptStr(f, sec, v, token)
    case Err(e) => Err(e)
    case Ok(plain) => EncryptStr(f, sec, v, plain, iv)
  }

  /** What is left of a batch comes, with what is done, to the whole. */
  ghost predicate Comes(
    all: Result<(Vault, nat), CryptoError>, rest: Result<(Vault, nat), CryptoError>, done: nat)
  {
    match all
    case Ok((v, n)) => rest.Ok? && rest.value.0 == v && rest.value.1 + done == n
    case Err(e) => rest == Err(e)
  }

  /** The first row of a batch, and what is left after it. */
  lemma RowNext(
    f: Scheme, sec: Secrets, v: Vault, col: Column, rows: seq<nat>, retiring: set<string>, limit: nat, iv: nat)
    requires rows != [] && limit > 0
    ensures var c := Cell(col, rows[0]);
            var all := ReencryptRows(f, sec, v, col, rows, retiring, limit, iv);
            if !(c in v.cells && OnRetiring(v.cells[c], retiring)) then
              all == ReencryptRows(f, sec, v, col, rows[1..], retiring, limit, iv)
            else
              match Reencrypted(f, sec, v, v.cells[c], iv)
              case Err(e) => all == Err(e)
              case Ok(token) =>
                Comes(all, ReencryptRows(f, sec, v.(cells := v.cells[c := token]), col, rows[1..], retiring,
                                         limit - 1, iv + 1), 1)
  {
  }

  /** The pending values of a column among the given rows. */
  function PendingRows(pending: set<Cell>, col: Column, rows: seq<nat>): set<Cell> {
    set c | c in pending && c.col == col && c.row in rows
  }

  lemma PendingRowsExtend(pending: set<Cell>, col: Column, rows: seq<nat>, row: nat)
    requires row !in rows
    ensures |PendingRows(pending, col, rows + [row])|
            == |PendingRows(pending, col, rows)| + (if Cell(col, row) in pending then 1 else 0)
  {
    var more := if Cell(col, row) in pending then {Cell(col, row)} else {};
    var before, after := PendingRows(pending, col, rows), PendingRows(pending, col, rows + [row]);
    assert after == before + more && before !! more;
  }

  /** No value of these columns is pending. */
  ghost predicate Drained(pending: set<Cell>, cols: seq<Column>) {
    forall c :: c in pending ==> c.col !in cols
  }

  lemma DrainedExtend(before: set<Cell>, after: set<Cell>, cols: seq<Column>, i: nat)
    requires i < |cols| && after <= before && Drained(before, cols[..i])
    requires forall c :: c in after ==> c.col != cols[i]
    ensures Drained(after, cols[..i + 1])
  {
  }

  /** How many of the listed keys are still under the previous secret. */
  function Needing(f: Scheme, sec: Secrets, deks: KeyTable, order: seq<string>): nat {
    if order == [] then 0
    else
      var id := order[|order| - 1];
      Needing(f, sec, deks, order[..|order| - 1])
      + (if id in deks && DekNeedsRewrap(f, sec, deks[id].wrapped) then 1 else 0)
  }

  lemma SettingsStayed(v: Vault, v': Vault, col: Column, retiring: set<string>)
    requires OnlyMoved(v, v', col, retiring) && SettingsSingleton(v.cells)
    ensures SettingsSingleton(v'.cells)
  {
  }

  /** A token names at most one key, so the case-folding count cannot mistake one key for another. */
  lemma CountedOnlyForItsKey(token: string, id: string, fold: bool)
    requires IsDekId(id) && TokenDekId(token).Some? && IsDekId(TokenDekId(token).value)
    ensures CountedFor(token, id, fold) <==> TokenDekId(token) == Some(id)
  {
    CountedIffNamed(token, id, fold);
    ParseIsExact(token);
    var h, k := Header(id), TokenDekId(token).value;
    LikePrefix(token, h, fold);
    if CountedFor(token, id, fold) {
      forall i | 0 <= i < 36 ensures k[i] == id[i] {
        assert token[i + 3] == Header(k)[i + 3] == k[i] && h[i + 3] == id[i];
        assert SameChar(token[i + 3], h[i + 3], fold);
        assert HexDash(k[i]) && HexDash(id[i]);
      }
      assert k == id;
    }
  }

  lemma NotPendingNotCounted(
    f: Scheme, sec: Secrets, v: Vault, truth: map<Cell, string>, retiring: set<string>, id: string, fold: bool, c: Cell)
    requires KeysSound(f, sec, v) && SecretsSound(f, sec, v, truth)
    requires id in retiring && IsDekId(id)
    requires c in v.cells && Handled(c.col) && c !in Pending(v.cells, retiring)
    ensures !CountedFor(v.cells[c], id, fold)
  {
    if v.cells[c] == "" {
      LikePrefix("", Header(id), fold);
    } else {
      assert Reads(f, sec, v, c, truth[c]);
      CountedOnlyForItsKey(v.cells[c], id, fold);
    }
  }

  /** With nothing pending on a key of the vault, its usage count is zero. */
  lemma NothingPendingNothingCounted(
    f: Scheme, sec: Secrets, v: Vault, truth: map<Cell, string>, retiring: set<string>, id: string, fold: bool)
    requires KeysSound(f, sec, v) && SecretsSound(f, sec, v, truth)
    requires Pending(v.cells, retiring) == {} && id in retiring && IsDekId(id)
    ensures CountDekUsage(v, id, fold) == 0
  {
    UsageZeroIff(v, id, fold);
    forall c | c in v.cells && Handled(c.col) ensures !CountedFor(v.cells[c], id, fold) {
      assert c !in Pending(v.cells, retiring);
      NotPendingNotCounted(f, sec, v, truth, retiring, id, fold, c);
    }
  }

  class KeyStore {
    var deks: KeyTable
    var active: Option<string>
    var cells: Cells
    /** The last plaintext written to each cell. */
    ghost var truth: map<Cell, string>

    constructor ()
      ensures deks == map[] && active == None && cells == map[] && truth == map[]
    {
      deks, active, cells, truth := map[], None, map[], map[];
    }

    ghost function View(): Vault
      reads this
    {
      Vault(deks, active, cells)
    }

    ghost predicate Valid(f: Scheme, sec: Secrets)
      reads this
    {
      && KeysSound(f, sec, View())
      && SecretsSound(f, sec, View(), truth)
      && SettingsSingleton(cells)
    }

    // ---------------------------------------------------------------- key re-wrapping

    /** Re-wrap the keys still under the previous secret, committing after each. */
    method RewrapPendingDeks(f: Scheme, sec: Secrets, order: seq<string>, iv: nat) returns (rewrapped: nat)
      requires forall i :: 0 <= i < |order| ==> order[i] in deks
      requires Distinct(order)
      modifies this`deks
      ensures deks == Rewrapped(f, sec, old(deks), order, iv)
      ensures rewrapped == Needing(f, sec, old(deks), order)
    {
      rewrapped := 0;
      if sec.current == "" {
        IdleWithoutSecret(f, sec, deks, order, iv);
        return;
      }
      for i := 0 to |order|
        invariant deks == Rewrapped(f, sec, old(deks), order[..i], iv)
        invariant deks.Keys == old(deks).Keys
        invariant forall j :: i <= j < |order| ==> deks[order[j]] == old(deks)[order[j]]
        invariant rewrapped == Needing(f, sec, old(deks), order[..i])
      {
        var id := order[i];
        RewrapNext(f, sec, old(deks), order, i, iv);
        if DekNeedsRewrap(f, sec, deks[id].wrapped) {
          var raw := UnwrapDek(f, sec, deks[id].wrapped).value;
          deks := deks[id := deks[id].(wrapped := WrapDek(f, sec, raw, iv + i))];
          rewrapped := rewrapped + 1;
        }
      }
      assert order[..|order|] == order;
    }

    // ---------------------------------------------------------------- reading a table

    /** The rows of a column's table that have a value there, in some order. */
    method SelectRows(col: Column) returns (rows: seq<nat>)
      requires SettingsSingleton(cells)
      ensures forall c :: c in cells && c.col == col ==> c.row in rows
      ensures InSettings(col) ==> rows == [1]
    {
      if InSettings(col) {
        return [1];
      }
      rows := [];
      var todo := set c | c in cells && c.col == col;
      while todo != {}
        invariant forall c :: c in cells && c.col == col ==> c in todo || c.row in rows
        decreases todo
      {
        var c :| c in todo;
        rows := rows + [c.row];
        todo := todo - {c};
      }
    }

    /** The number of rows of a column whose value names a retiring key. */
    method CountPending(col: Column, rows: seq<nat>, retiring: set<string>) returns (pending: nat)
      requires forall i, j :: 0 <= i < j < |rows| ==> rows[i] != rows[j]
      requires forall c :: c in cells && c.col == col ==> c.row in rows
      ensures Handled(col) ==> pending == |set c | c in Pending(cells, retiring) && c.col == col|
      ensures !Handled(col) ==> pending == 0
    {
      pending := 0;
      if !Handled(col) {
        return;
      }
      for i := 0 to |rows|
        invariant pending == |PendingRows(Pending(cells, retiring), col, rows[..i])|
      {
        var c := Cell(col, rows[i]);
        PendingRowsExtend(Pending(cells, retiring), col, rows[..i], rows[i]);
        assert rows[..i + 1] == rows[..i] + [rows[i]];
        if c in cells && OnRetiring(cells[c], retiring) {
          pending := pending + 1;
        }
      }
      assert rows[..|rows|] == rows;
      assert PendingRows(Pending(cells, retiring), col, rows) == set c | c in Pending(cells, retiring) && c.col == col;
    }

    // ---------------------------------------------------------------- one batch

    /** Re-encrypt up to `limit` values of a column; an exception leaves the database as it was. */
    method ReencryptBatch(
      f: Scheme, sec: Secrets, col: Column, rows: seq<nat>, retiring: set<string>, limit: nat, iv: nat)
      returns (r: Result<nat, CryptoError>)
      requires Handled(col)
      modifies this`cells
      ensures match ReencryptRows(f, sec, old(View()), col, rows, retiring, limit, iv)
              case Ok((v, n)) => r == Ok(n) && View() == v
              case Err(e) => r == Err(e) && View() == old(View())
    {
      var work := cells;
      var done := 0;
      ghost var all := ReencryptRows(f, sec, View(), col, rows, retiring, limit, iv);
      var i := 0;
      assert rows[0..] == rows;
      while i < |rows| && done < limit
        invariant 0 <= i <= |rows| && done <= limit && cells == old(cells)
        invariant Comes(all, ReencryptRows(f, sec, Vault(deks, active, work), col, rows[i..], retiring,
                                           limit - done, iv + done), done)
      {
        var c := Cell(col, rows[i]);
        var db := Vault(deks, active, work);
        assert rows[i..][0] == rows[i] && rows[i..][1..] == rows[i + 1..];
        RowNext(f, sec, db, col, rows[i..], retiring, limit - done, iv + done);
        if c in work && OnRetiring(work[c], retiring) {
          var token := Reencrypted(f, sec, db, work[c], iv + done);
          if token.Err? { return Err(token.error); }
          work := work[c := token.value];
          done := done + 1;
        }
        i := i + 1;
      }
      cells := work;
      r := Ok(done);
    }

    // ---------------------------------------------------------------- other requests

    /** Other requests commit: each stores a value under the active key, or drops one. */
    method Others(f: Scheme, sec: Secrets, ws: seq<Foreign>, ghost retiring: set<string>)
      requires Ideal(f) && Valid(f, sec) && ForeignOk(ws)
      requires active.value !in retiring
      modifies this`cells, this`truth
      ensures Valid(f, sec)
      ensures truth == TruthAfterOne(old(truth), ws)
      ensures Pending(cells, retiring) <= Pending(old(cells), retiring)
    {
      assert ws[..0] == [];
      for i := 0 to |ws|
        invariant Valid(f, sec)
        invariant truth == TruthAfterOne(old(truth), ws[..i])
        invariant Pending(cells, retiring) <= Pending(old(cells), retiring)
      {
        assert ws[..i + 1][..i] == ws[..i];
        match ws[i] {
          case Store(c, plain, iv) =>
            EncryptSucceeds(f, sec, View(), plain, iv);
            var token := EncryptStr(f, sec, Vault(deks, active, cells), plain, iv).value;
            StoreKeepsSound(f, sec, View(), truth, c, plain, iv);
            EncryptRoundTrip(f, sec, View(), plain, iv);
            cells := cells[c := token];
            truth := truth[c := plain];
          case Drop(c) =>
            var h := Hub(sec, View(), truth, None, {}, map[]);
            StepKeepsSound(f, h, Remove(c));
            cells := cells - {c};
            truth := truth - {c};
        }
      }
      assert ws[..|ws|] == ws;
    }

    // ---------------------------------------------------------------- a whole job

    /**
      The re-encryption job, beside other requests: `env(k)` are their commits at the k-th pause and
      `cancelAt(k)` says whether a cancel request is seen there. Unless cancelled, or started with a
      stale target, the job ends with every key that was retiring deleted and nothing naming it.
     */
    method RunJob(
      f: Scheme, sec: Secrets, target: string, retiringRows: seq<string>,
      env: nat -> seq<Foreign>, cancelAt: nat -> bool, fold: bool)
      returns (status: JobStatus, deleted: nat, steps: nat)
      requires Ideal(f) && Valid(f, sec)
      requires forall k :: ForeignOk(env(k))
      requires Distinct(retiringRows)
      requires Ids(retiringRows) == RetiringIds(deks)
      modifies this`cells, this`deks, this`truth
      ensures Valid(f, sec) && truth == TruthAfter(old(truth), env, steps)
      ensures status == JobCompleted ==>
                && deks == old(deks) - RetiringIds(old(deks))
                && deleted == |retiringRows|
                && Pending(cells, RetiringIds(old(deks))) == {}
      ensures status != JobCompleted ==> deks == old(deks) && deleted == 0
      ensures status == JobFailed <==> retiringRows != [] && active != Some(target)
      ensures status == JobCanceled ==> exists k :: cancelAt(k)
      ensures status == JobCompleted || status == JobFailed || status == JobCanceled
    {
      steps, deleted := 0, 0;
      var retiring := RetiringIds(deks);
      if retiringRows == [] {
        assert retiring == {};
        assert deks == deks - retiring;
        return JobCompleted, 0, 0;
      }
      if active != Some(target) {
        return JobFailed, 0, 0;
      }
      var canceled;
      canceled, steps := MoveEverything(f, sec, retiring, env, cancelAt);
      if canceled {
        return JobCanceled, 0, steps;
      }
      assert deks - Ids(retiringRows[..0]) == deks;
      deleted, steps := DeleteDrained(f, sec, retiringRows, env, steps, fold, old(truth));
      assert retiringRows[..|retiringRows|] == retiringRows;
      status := JobCompleted;
    }

    /** Pass after pass, until one moves nothing or a cancel is seen; a cancel is looked for once more at the end. */
    method MoveEverything(
      f: Scheme, sec: Secrets, retiring: set<string>, env: nat -> seq<Foreign>, cancelAt: nat -> bool)
      returns (canceled: bool, steps: nat)
      requires Ideal(f) && Valid(f, sec) && active.value !in retiring
      requires forall k :: ForeignOk(env(k))
      modifies this`cells, this`truth
      ensures Valid(f, sec) && truth == TruthAfter(old(truth), env, steps)
      ensures canceled ==> exists k :: cancelAt(k)
      ensures !canceled ==> Pending(cells, retiring) == {}
    {
      steps := 0;
      var iv: nat, check: nat := 0, 0;
      while !cancelAt(check)
        invariant Valid(f, sec) && truth == TruthAfter(old(truth), env, steps)
        decreases |Pending(cells, retiring)|
      {
        var movedAny;
        movedAny, steps := BatchPass(f, sec, retiring, env, steps, iv, old(truth));
        iv := iv + BATCH_SIZE * |ENCRYPTED_COLUMNS|;
        check := check + 1;
        if !movedAny {
          return cancelAt(check), steps;
        }
      }
      canceled := true;
    }

    /** One column of a pass, then the commits of other requests. */
    method PassColumn(
      f: Scheme, sec: Secrets, col: Column, retiring: set<string>, ws: seq<Foreign>, iv: nat)
      returns (n: nat)
      requires Ideal(f) && Valid(f, sec) && active.value !in retiring && ForeignOk(ws)
      modifies this`cells, this`truth
      ensures Valid(f, sec) && truth == TruthAfterOne(old(truth), ws)
      ensures Pending(cells, retiring) <= Pending(old(cells), retiring)
      ensures |Pending(cells, retiring)| <= |Pending(old(cells), retiring)| - n
      ensures n == 0 ==> forall c :: c in Pending(cells, retiring) ==> c.col != col
    {
      n := 0;
      if Handled(col) {
        n := MoveBatch(f, sec, col, retiring, iv);
      }
      ghost var mid := Pending(cells, retiring);
      Others(f, sec, ws, retiring);
      SmallerIsShorter(Pending(cells, retiring), mid);
    }

    /** How far a pass has come: it has moved something, or drained the columns it went through. */
    ghost predicate Passed(retiring: set<string>, before: set<Cell>, movedAny: bool, i: nat)
      requires i <= |ENCRYPTED_COLUMNS|
      reads this
    {
      && |Pending(cells, retiring)| <= |before|
      && (movedAny ==> |Pending(cells, retiring)| < |before|)
      && (!movedAny ==> Drained(Pending(cells, retiring), ENCRYPTED_COLUMNS[..i]))
    }

    method PassNext(
      f: Scheme, sec: Secrets, i: nat, retiring: set<string>, ws: seq<Foreign>, iv: nat, movedBefore: bool,
      ghost before: set<Cell>)
      returns (movedAny: bool)
      requires Ideal(f) && Valid(f, sec) && active.value !in retiring && ForeignOk(ws)
      requires i < |ENCRYPTED_COLUMNS| && Passed(retiring, before, movedBefore, i)
      modifies this`cells, this`truth
      ensures Valid(f, sec) && truth == TruthAfterOne(old(truth), ws)
      ensures Passed(retiring, before, movedAny, i + 1)
    {
      ghost var was := Pending(cells, retiring);
      var n := PassColumn(f, sec, ENCRYPTED_COLUMNS[i], retiring, ws, iv);
      movedAny := movedBefore || n != 0;
      if !movedAny {
        DrainedExtend(was, Pending(cells, retiring), ENCRYPTED_COLUMNS, i);
      }
    }

    /** One pass over the listed columns: it moves something, or nothing is left to move. */
    method BatchPass(
      f: Scheme, sec: Secrets, retiring: set<string>, env: nat -> seq<Foreign>, steps0: nat, iv: nat,
      ghost start: map<Cell, string>)
      returns (movedAny: bool, steps: nat)
      requires Ideal(f) && Valid(f, sec) && active.value !in retiring
      requires forall k :: ForeignOk(env(k))
      requires truth == TruthAfter(start, env, steps0)
      modifies this`cells, this`truth
      ensures Valid(f, sec) && truth == TruthAfter(start, env, steps)
      ensures movedAny ==> |Pending(cells, retiring)| < |Pending(old(cells), retiring)|
      ensures !movedAny ==> Pending(cells, retiring) == {}
    {
      movedAny, steps := false, steps0;
      ghost var before := Pending(cells, retiring);
      for i := 0 to |ENCRYPTED_COLUMNS|
        invariant Valid(f, sec) && truth == TruthAfter(start, env, steps)
        invariant steps == steps0 + i
        invariant Passed(retiring, before, movedAny, i)
      {
        movedAny := PassNext(f, sec, i, retiring, env(steps), iv + BATCH_SIZE * i, movedAny, before);
        steps := steps + 1;
      }
      if !movedAny {
        NoColumnLeft(cells, retiring);
      }
    }

    /** A retiring key that nothing pending names is deleted; then other requests commit. */
    method DeleteOne(
      f: Scheme, sec: Secrets, id: string, ghost retiring: set<string>, fold: bool, ws: seq<Foreign>)
      returns (ok: bool)
      requires Ideal(f) && Valid(f, sec) && Pending(cells, retiring) == {} && ForeignOk(ws)
      requires id in retiring && id in deks && deks[id].status == Retiring && active.value !in retiring
      modifies this`deks, this`cells, this`truth
      ensures Valid(f, sec) && ok && deks == old(deks) - {id}
      ensures Pending(cells, retiring) == {} && truth == TruthAfterOne(old(truth), ws)
    {
      NothingPendingNothingCounted(f, sec, View(), truth, retiring, id, fold);
      DeleteKeepsSound(f, sec, View(), truth, id, fold);
      var (v, removed) := DeleteRetiringDek(Vault(deks, active, cells), id, fold);
      deks, ok := v.deks, removed;
      Others(f, sec, ws, retiring);
    }

    /** The job has deleted the first `i` retiring keys, and nothing names any of them. */
    ghost predicate Draining(f: Scheme, sec: Secrets, deks0: KeyTable, rows: seq<string>, i: nat)
      reads this
    {
      && Valid(f, sec)
      && i <= |rows| && Distinct(rows) && Ids(rows) == RetiringIds(deks0)
      && deks == Without(deks0, rows, i)
      && active.value !in RetiringIds(deks0)
      && Pending(cells, RetiringIds(deks0)) == {}
    }

    method DeleteNext(
      f: Scheme, sec: Secrets, rows: seq<string>, i: nat, fold: bool, ws: seq<Foreign>, ghost deks0: KeyTable)
      returns (ok: bool)
      requires Ideal(f) && Draining(f, sec, deks0, rows, i) && i < |rows| && ForeignOk(ws)
      modifies this`deks, this`cells, this`truth
      ensures Draining(f, sec, deks0, rows, i + 1) && ok && truth == TruthAfterOne(old(truth), ws)
    {
      NextOfList(deks0, rows, i);
      ok := DeleteOne(f, sec, rows[i], RetiringIds(deks0), fold, ws);
    }

    /** With nothing pending, every retiring key is deleted, whatever other requests commit. */
    method DeleteDrained(
      f: Scheme, sec: Secrets, rows: seq<string>, env: nat -> seq<Foreign>, steps0: nat, fold: bool,
      ghost start: map<Cell, string>)
      returns (deleted: nat, steps: nat)
      requires Ideal(f) && Draining(f, sec, deks, rows, 0)
      requires forall k :: ForeignOk(env(k))
      requires truth == TruthAfter(start, env, steps0)
      modifies this`cells, this`deks, this`truth
      ensures Draining(f, sec, old(deks), rows, |rows|)
      ensures truth == TruthAfter(start, env, steps) && deleted == |rows|
    {
      deleted, steps := 0, steps0;
      for i := 0 to |rows|
        invariant Draining(f, sec, old(deks), rows, i)
        invariant truth == TruthAfter(start, env, steps) && deleted == i
      {
        var ok := DeleteNext(f, sec, rows, i, fold, env(steps), old(deks));
        if ok {
          deleted := deleted + 1;
        }
        steps := steps + 1;
      }
    }

    /** One batch of a sound store: it cannot fail, and it moves what it reports. */
    method MoveBatch(f: Scheme, sec: Secrets, col: Column, retiring: set<string>, iv: nat) returns (n: nat)
      requires Ideal(f) && Valid(f, sec) && Handled(col) && active.value !in retiring
      modifies this`cells
      ensures Valid(f, sec)
      ensures OnlyMoved(old(View()), View(), col, retiring)
      ensures Pending(cells, retiring) <= Pending(old(cells), retiring)
      ensures n == |Pending(old(cells), retiring)| - |Pending(cells, retiring)|
      ensures n <= BATCH_SIZE
      ensures n == 0 ==> forall c :: c in Pending(cells, retiring) ==> c.col != col
    {
      var rows := SelectRows(col);
      BatchKeepsSound(f, sec, View(), truth, col, rows, retiring, BATCH_SIZE, iv);
      ghost var batch := ReencryptRows(f, sec, View(), col, rows, retiring, BATCH_SIZE, iv).value;
      BatchMoves(f, sec, View(), truth, col, rows, retiring, BATCH_SIZE, iv, batch.0, batch.1);
      var r := ReencryptBatch(f, sec, col, rows, retiring, BATCH_SIZE, iv);
      SettingsStayed(old(View()), View(), col, retiring);
      n := r.value;
    }
  }

  lemma SmallerIsShorter<T>(a: set<T>, b: set<T>)
    requires a <= b
    ensures |a| <= |b|
  {
    assert b == a + (b - a);
  }

  lemma NoColumnLeft(cells: Cells, retiring: set<string>)
    requires Drained(Pending(cells, retiring), ENCRYPTED_COLUMNS[..|ENCRYPTED_COLUMNS|])
    ensures Pending(cells, retiring) == {}
  {
  }

  function Ids(rows: seq<string>): set<string> {
    set id | id in rows
  }

  predicate Distinct(rows: seq<string>) {
    forall i, j :: 0 <= i < j < |rows| ==> rows[i] != rows[j]
  }

  /** The keys that remain when the first `i` of the listed ones are gone. */
  function Without(deks: KeyTable, rows: seq<string>, i: nat): KeyTable
    requires i <= |rows|
  {
    deks - Ids(rows[..i])
  }

  lemma IdsGrow(rows: seq<string>, i: nat)
    requires i < |rows| && Distinct(rows)
    ensures rows[i] in Ids(rows) && rows[i] !in Ids(rows[..i])
    ensures Ids(rows[..i + 1]) == Ids(rows[..i]) + {rows[i]}
  {
    assert rows[..i + 1] == rows[..i] + [rows[i]];
    forall j | 0 <= j < i ensures rows[..i][j] != rows[i] {
      assert rows[j] != rows[i];
    }
  }

  lemma NextOfList(deks: KeyTable, rows: seq<string>, i: nat)
    requires i < |rows| && Distinct(rows) && Ids(rows) == RetiringIds(deks)
    ensures rows[i] in Without(deks, rows, i) && rows[i] in RetiringIds(deks)
    ensures Without(deks, rows, i)[rows[i]].status == Retiring
    ensures Without(deks, rows, i) - {rows[i]} == Without(deks, rows, i + 1)
  {
    IdsGrow(rows, i);
    assert rows[i] in RetiringIds(deks);
    var gone := Ids(rows[..i]);
    assert (deks - gone) - {rows[i]} == deks - (gone + {rows[i]});
  }

  /** One more row of a pass. */
  lemma RewrapNext(f: Scheme, sec: Secrets, deks: KeyTable, order: seq<string>, i: nat, iv: nat)
    requires i < |order|
    ensures var before := Rewrapped(f, sec, deks, order[..i], iv);
            && Rewrapped(f, sec, deks, order[..i + 1], iv)
               == (if order[i] in before && DekNeedsRewrap(f, sec, before[order[i]].wrapped)
                   then before[order[i] := RewrapOne(f, sec, before[order[i]], iv + i)] else before)
            && Needing(f, sec, deks, order[..i + 1])
               == Needing(f, sec, deks, order[..i])
                  + (if order[i] in deks && DekNeedsRewrap(f, sec, deks[order[i]].wrapped) then 1 else 0)
  {
    assert order[..i + 1][..i] == order[..i];
    var before := Rewrapped(f, sec, deks, order[..i], iv);
    if order[i] in before && !DekNeedsRewrap(f, sec, before[order[i]].wrapped) {
      assert before[order[i] := before[order[i]]] == before;
    }
  }

  lemma {:induction false} IdleWithoutSecret(f: Scheme, sec: Secrets, deks: KeyTable, order: seq<string>, iv: nat)
    requires sec.current == ""
    ensures Rewrapped(f, sec, deks, order, iv) == deks
    ensures Needing(f, sec, deks, order) == 0
  {
    if order != [] {
      IdleWithoutSecret(f, sec, deks, order[..|order| - 1], iv);
    }
  }
}
