/** The one-time bootstrap: make the first data key and move legacy secrets under it. */
module Bootstrap {
  import opened Prelude
  import opened TokenText
  import opened Fernet
  import opened KeyWrapping
  import opened Vault
  import opened Reencryption

  /** A non-empty value with no `v1:` header: sealed directly under HUB_SECRET. */
  predicate IsLegacy(token: string) {
    token != "" && !(V1_PREFIX <= token)
  }

  /** A legacy value becomes one under the active key with the same plaintext; others stay. */
  ghost predicate MigratedTo(f: Scheme, sec: Secrets, v: Vault, token: string, token': string) {
    if IsLegacy(token) then
      && f.open(sec.current, token).Some?
      && V1_PREFIX <= token' && TokenDekId(token') == v.active
      && DecryptStr(f, sec, v, token') == Ok(f.open(sec.current, token).value)
    else token' == token
  }

  /** A handled legacy value that HUB_SECRET does not open. */
  ghost predicate Unreadable(f: Scheme, sec: Secrets, cells: Cells, c: Cell) {
    c in cells && Handled(c.col) && IsLegacy(cells[c]) && f.open(sec.current, cells[c]).None?
  }

  /** Before the bootstrap: every handled value is a legacy one that opens to the plaintext written. */
  ghost predicate LegacySound(f: Scheme, sec: Secrets, cells: Cells, truth: map<Cell, string>) {
    forall c :: c in cells && Handled(c.col) && cells[c] != "" ==>
      IsLegacy(cells[c]) && c in truth && f.open(sec.current, cells[c]) == Some(truth[c])
  }

  lemma MigrateOne(f: Scheme, sec: Secrets, v: Vault, token: string, iv: nat)
    requires Ideal(f) && sec.current != "" && GetActiveDek(f, sec, v).Ok? && IsDekId(v.active.value)
    requires IsLegacy(token) && f.open(sec.current, token).Some?
    ensures DecryptStr(f, sec, v, token) == Ok(f.open(sec.current, token).value)
    ensures MigratedTo(f, sec, v, token, EncryptStr(f, sec, v, f.open(sec.current, token).value, iv).value)
  {
    EncryptRoundTrip(f, sec, v, f.open(sec.current, token).value, iv);
  }

  /** The listed rows of one column are migrated and everything else is as it was. */
  ghost predicate ColumnMigrated(f: Scheme, sec: Secrets, v: Vault, col: Column, rows: seq<nat>, work: Cells) {
    && work.Keys == v.cells.Keys
    && forall c :: c in v.cells ==>
         if c.col == col && c.row in rows then MigratedTo(f, sec, v, v.cells[c], work[c]) else work[c] == v.cells[c]
  }

  /** One row of the column: it stays, is written anew, or cannot be read. */
  method MigrateRow(f: Scheme, sec: Secrets, v: Vault, token: string, iv: nat) returns (r: Result<string, CryptoError>)
    requires Ideal(f) && sec.current != "" && GetActiveDek(f, sec, v).Ok? && IsDekId(v.active.value)
    ensures r.Ok? ==> MigratedTo(f, sec, v, token, r.value)
    ensures r.Ok? && !IsLegacy(token) ==> r.value == token
    ensures r.Err? <==> IsLegacy(token) && f.open(sec.current, token).None?
  {
    if !IsLegacy(token) {
      return Ok(token);
    }
    var plain := DecryptStr(f, sec, v, token);
    if plain.Err? {
      return Err(plain.error);
    }
    MigrateOne(f, sec, v, token, iv);
    r := EncryptStr(f, sec, v, plain.value, iv);
  }

  lemma ColumnNext(f: Scheme, sec: Secrets, v: Vault, col: Column, rows: seq<nat>, row: nat, work: Cells, token: string)
    requires ColumnMigrated(f, sec, v, col, rows, work) && Cell(col, row) in work
    requires MigratedTo(f, sec, v, work[Cell(col, row)], token)
    requires !IsLegacy(work[Cell(col, row)]) ==> token == work[Cell(col, row)]
    ensures ColumnMigrated(f, sec, v, col, rows + [row], work[Cell(col, row) := token])
  {
  }

  /** The rows of one column; `work` is the session's uncommitted view. */
  method MigrateColumn(f: Scheme, sec: Secrets, v: Vault, col: Column, rows: seq<nat>, iv: nat)
    returns (r: Result<Cells, CryptoError>)
    requires Ideal(f) && sec.current != "" && GetActiveDek(f, sec, v).Ok? && IsDekId(v.active.value)
    requires Handled(col)
    ensures r.Ok? ==> ColumnMigrated(f, sec, v, col, rows, r.value)
    ensures r.Err? ==> exists c :: Unreadable(f, sec, v.cells, c)
  {
    var work := v.cells;
    for i := 0 to |rows|
      invariant ColumnMigrated(f, sec, v, col, rows[..i], work)
    {
      var c := Cell(col, rows[i]);
      assert rows[..i + 1] == rows[..i] + [rows[i]];
      if c in work {
        var moved := MigrateRow(f, sec, v, work[c], iv + i);
        if moved.Err? {
          assert work[c] == v.cells[c];
          assert Unreadable(f, sec, v.cells, c);
          return Err(moved.error);
        }
        ColumnNext(f, sec, v, col, rows[..i], rows[i], work, moved.value);
        work := work[c := moved.value];
      }
    }
    assert rows[..|rows|] == rows;
    r := Ok(work);
  }

  /** Every column the bootstrap walks, up to the first failure. */
  method MigrateAll(store: KeyStore, f: Scheme, sec: Secrets, v: Vault, iv: nat) returns (r: Result<Cells, CryptoError>)
    requires Ideal(f) && sec.current != "" && GetActiveDek(f, sec, v).Ok? && IsDekId(v.active.value)
    requires v.cells == store.cells && SettingsSingleton(v.cells)
    ensures r.Ok? ==> AllMigrated(f, sec, v, r.value, ENCRYPTED_COLUMNS)
    ensures r.Err? ==> exists c :: Unreadable(f, sec, v.cells, c)
  {
    var work := v.cells;
    for i := 0 to |ENCRYPTED_COLUMNS|
      invariant AllMigrated(f, sec, v, work, ENCRYPTED_COLUMNS[..i])
    {
      var col := ENCRYPTED_COLUMNS[i];
      var w := v.(cells := work);
      ColumnsDistinct(i);
      if Handled(col) {
        var rows := store.SelectRows(col);
        var next := MigrateColumn(f, sec, w, col, rows, iv);
        if next.Err? {
          ghost var c :| Unreadable(f, sec, work, c);
          UnreadableBefore(f, sec, v, work, ENCRYPTED_COLUMNS[..i], c);
          return next;
        }
        MigratedNext(f, sec, v, work, next.value, ENCRYPTED_COLUMNS[..i], col);
        work := next.value;
      } else {
        MigratedNext(f, sec, v, work, work, ENCRYPTED_COLUMNS[..i], col);
      }
      assert ENCRYPTED_COLUMNS[..i + 1] == ENCRYPTED_COLUMNS[..i] + [col];
    }
    assert ENCRYPTED_COLUMNS[..|ENCRYPTED_COLUMNS|] == ENCRYPTED_COLUMNS;
    r := Ok(work);
  }

  /** The values of the given columns are migrated, the rest untouched. */
  ghost predicate AllMigrated(f: Scheme, sec: Secrets, v: Vault, cells': Cells, cols: seq<Column>) {
    && cells'.Keys == v.cells.Keys
    && forall c :: c in v.cells ==>
         if c.col in cols && Handled(c.col) then MigratedTo(f, sec, v, v.cells[c], cells'[c])
         else cells'[c] == v.cells[c]
  }

  lemma ColumnsDistinct(i: nat)
    requires i < |ENCRYPTED_COLUMNS|
    ensures ENCRYPTED_COLUMNS[i] !in ENCRYPTED_COLUMNS[..i]
  {
  }

  lemma MigratedNext(f: Scheme, sec: Secrets, v: Vault, work: Cells, work': Cells, cols: seq<Column>, col: Column)
    requires AllMigrated(f, sec, v, work, cols) && col !in cols && work'.Keys == work.Keys
    requires forall c :: c in work ==>
               if c.col == col && Handled(col) then MigratedTo(f, sec, v.(cells := work), work[c], work'[c])
               else work'[c] == work[c]
    ensures AllMigrated(f, sec, v, work', cols + [col])
  {
    forall c | c in v.cells && c.col == col && Handled(col)
      ensures MigratedTo(f, sec, v, v.cells[c], work'[c])
    {
      assert MigratedTo(f, sec, v.(cells := work), work[c], work'[c]);
    }
  }

  lemma UnreadableBefore(f: Scheme, sec: Secrets, v: Vault, work: Cells, cols: seq<Column>, c: Cell)
    requires AllMigrated(f, sec, v, work, cols) && Unreadable(f, sec, work, c)
    ensures Unreadable(f, sec, v.cells, c)
  {
  }

  lemma MigrationMakesSound(f: Scheme, sec: Secrets, v: Vault, v': Vault, truth: map<Cell, string>)
    requires LegacySound(f, sec, v.cells, truth) && v'.deks == v.deks && v'.active == v.active
    requires v.active.Some? && v.active.value in v.deks
    requires AllMigrated(f, sec, v, v'.cells, ENCRYPTED_COLUMNS)
    ensures SecretsSound(f, sec, v', truth)
  {
  }

  /**
    Bootstrap runs once: only with a secret configured and no data key yet. It either moves every
    handled legacy value under the new key, plaintext unchanged, or fails and changes nothing, and
    it fails exactly when some such value does not open under HUB_SECRET.
   */
  method BootstrapEncryptionDb(store: KeyStore, f: Scheme, sec: Secrets, newId: string, raw: Key, iv: nat)
    returns (r: Result<bool, CryptoError>)
    requires Ideal(f) && IsDekId(newId) && SettingsSingleton(store.cells)
    modifies store`deks, store`active, store`cells
    ensures sec.current == "" || old(store.deks) != map[] ==> r == Ok(false)
    ensures r != Ok(true) ==> store.View() == old(store.View())
    ensures r.Err? <==> sec.current != "" && old(store.deks) == map[]
                        && exists c :: Unreadable(f, sec, old(store.cells), c)
    ensures r == Ok(true) ==>
              && store.deks.Keys == {newId} && store.active == Some(newId)
              && AllMigrated(f, sec, store.View().(cells := old(store.cells)), store.cells, ENCRYPTED_COLUMNS)
    ensures sec.current != "" && old(store.deks) == map[] && LegacySound(f, sec, old(store.cells), store.truth) ==>
              r == Ok(true) && store.Valid(f, sec)
  {
    if sec.current == "" || store.deks != map[] {
      return Ok(false);
    }
    var dek := Dek(WrapDek(f, sec, raw, iv), Active);
    assert f.open(sec.current, f.seal(sec.current, raw, iv)) == Some(raw);
    var v := Vault(map[newId := dek], Some(newId), store.cells);
    var migrated := MigrateAll(store, f, sec, v, iv);
    if migrated.Err? {
      return Err(migrated.error);
    }
    store.deks, store.active, store.cells := v.deks, v.active, migrated.value;
    forall c ensures !Unreadable(f, sec, v.cells, c) {
      if c in v.cells && Handled(c.col) {
        assert MigratedTo(f, sec, v, v.cells[c], store.cells[c]);
      }
    }
    assert SettingsSingleton(store.cells);
    if LegacySound(f, sec, v.cells, store.truth) {
      MigrationMakesSound(f, sec, v, store.View(), store.truth);
      assert KeysSound(f, sec, store.View());
    }
    r := Ok(true);
  }
}
