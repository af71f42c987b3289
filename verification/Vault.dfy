/**
  The stored secrets as a state machine: writers, key creation, the re-encryption job, its
  cancellation, key deletion and restarts with rotated secrets, interleaved in any order.
 */
module Vault {
  import opened Prelude
  import opened TokenText
  import opened Fernet
  import opened KeyWrapping

  // ------------------------------------------------------------------ columns and cells

  datatype Column =
    | WorkerApiToken | SmtpPassword | ProxyPassword | TelegramToken | SsoSecret
    | TotpSecret | Utterances | SummaryBody | LinkToken | JitsiJwtSecret

  /** The list the job and the usage count walk. The Jitsi column holds ciphertext but is not in it. */
  const ENCRYPTED_COLUMNS: seq<Column> := [
    WorkerApiToken, SmtpPassword, ProxyPassword, TelegramToken, SsoSecret,
    TotpSecret, Utterances, SummaryBody, LinkToken]

  /** Columns of the single `instance_settings` row, whose id is 1. */
  predicate InSettings(col: Column) {
    col in {SmtpPassword, ProxyPassword, TelegramToken}
  }

  /** Columns that the count and the batch really visit: table `users` falls through in both. */
  predicate Handled(col: Column) {
    col in ENCRYPTED_COLUMNS && col != TotpSecret
  }

  datatype Cell = Cell(col: Column, row: nat)

  type Cells = map<Cell, string>

  datatype Vault = Vault(deks: KeyTable, active: Option<string>, cells: Cells)

  datatype CryptoError = RuntimeFailure | InvalidToken

  // ------------------------------------------------------------------ encrypt and decrypt

  function GetActiveDek(f: Scheme, sec: Secrets, v: Vault): Result<(string, Key), CryptoError> {
    match v.active
    case None => Err(RuntimeFailure)
    case Some(id) =>
      if id !in v.deks then Err(RuntimeFailure)
      else match UnwrapDek(f, sec, v.deks[id].wrapped)
        case None => Err(InvalidToken)
        case Some(raw) => Ok((id, raw))
  }

  function EncryptStr(f: Scheme, sec: Secrets, v: Vault, plain: string, iv: nat): Result<string, CryptoError> {
    match GetActiveDek(f, sec, v)
    case Err(e) => Err(e)
    case Ok((id, raw)) => Ok(Header(id) + f.seal(raw, plain, iv))
  }

  function DecryptStr(f: Scheme, sec: Secrets, v: Vault, token: string): Result<string, CryptoError> {
    var (id, sealed) := ParseToken(token);
    match id
    case None =>
      if sec.current == "" then Err(RuntimeFailure)
      else (match f.open(sec.current, sealed) case None => Err(InvalidToken) case Some(p) => Ok(p))
    case Some(k) =>
      if k !in v.deks then Err(RuntimeFailure)
      else match UnwrapDek(f, sec, v.deks[k].wrapped)
        case None => Err(InvalidToken)
        case Some(raw) => match f.open(raw, sealed) case None => Err(InvalidToken) case Some(p) => Ok(p)
  }

  /** The cell holds a value that names a data key of the vault and decrypts to `plain`. */
  predicate Reads(f: Scheme, sec: Secrets, v: Vault, c: Cell, plain: string) {
    && c in v.cells
    && TokenDekId(v.cells[c]).Some?
    && TokenDekId(v.cells[c]).value in v.deks
    && DecryptStr(f, sec, v, v.cells[c]) == Ok(plain)
  }

  /** A value just encrypted names the active key and decrypts to what was encrypted. */
  lemma EncryptRoundTrip(f: Scheme, sec: Secrets, v: Vault, plain: string, iv: nat)
    requires Ideal(f) && v.active.Some? && IsDekId(v.active.value)
    requires EncryptStr(f, sec, v, plain, iv).Ok?
    ensures TokenDekId(EncryptStr(f, sec, v, plain, iv).value) == v.active
    ensures DecryptStr(f, sec, v, EncryptStr(f, sec, v, plain, iv).value) == Ok(plain)
  {
    var raw := GetActiveDek(f, sec, v).value.1;
    var sealed := f.seal(raw, plain, iv);
    ParseRoundTrip(v.active.value, sealed);
    assert f.open(raw, sealed) == Some(plain);
  }

  /** Decryption looks only at the raw key a token names. */
  lemma SameKeysSameReading(f: Scheme, sec: Secrets, v: Vault, sec': Secrets, v': Vault, token: string)
    requires TokenDekId(token).Some? && token != ""
    requires var id := TokenDekId(token).value;
             && id in v.deks && id in v'.deks
             && UnwrapDek(f, sec, v.deks[id].wrapped) == UnwrapDek(f, sec', v'.deks[id].wrapped)
    ensures DecryptStr(f, sec, v, token) == DecryptStr(f, sec', v', token)
  {
  }

  // ------------------------------------------------------------------ usage count and deletion

  /** The usage of a key in one listed column; the `users` table is not one of those queried. */
  function ColumnUsers(v: Vault, col: Column, id: string, fold: bool): set<Cell> {
    if Handled(col) then set c | c in v.cells && c.col == col && CountedFor(v.cells[c], id, fold) else {}
  }

  function CountFrom(v: Vault, cols: seq<Column>, id: string, fold: bool): nat {
    if cols == [] then 0 else |ColumnUsers(v, cols[0], id, fold)| + CountFrom(v, cols[1..], id, fold)
  }

  function CountDekUsage(v: Vault, id: string, fold: bool): nat {
    CountFrom(v, ENCRYPTED_COLUMNS, id, fold)
  }

  lemma {:induction false} CountFromZero(v: Vault, cols: seq<Column>, id: string, fold: bool)
    ensures CountFrom(v, cols, id, fold) == 0 <==> forall col :: col in cols ==> ColumnUsers(v, col, id, fold) == {}
  {
    if cols != [] {
      CountFromZero(v, cols[1..], id, fold);
      assert cols == [cols[0]] + cols[1..];
    }
  }

  /** The count is zero exactly when no value of a handled column matches the key's pattern. */
  lemma UsageZeroIff(v: Vault, id: string, fold: bool)
    ensures CountDekUsage(v, id, fold) == 0 <==>
            forall c :: c in v.cells && Handled(c.col) ==> !CountedFor(v.cells[c], id, fold)
  {
    CountFromZero(v, ENCRYPTED_COLUMNS, id, fold);
    if CountDekUsage(v, id, fold) == 0 {
      forall c | c in v.cells && Handled(c.col) ensures !CountedFor(v.cells[c], id, fold) {
        assert c !in ColumnUsers(v, c.col, id, fold);
      }
    }
  }

  /** A key is deleted only when it is retiring, is not the active one and its count is zero. */
  predicate Deletable(v: Vault, id: string, fold: bool) {
    && v.active != Some(id)
    && CountDekUsage(v, id, fold) == 0
    && id in v.deks && v.deks[id].status == Retiring
  }

  function DeleteRetiringDek(v: Vault, id: string, fold: bool): (Vault, bool) {
    if Deletable(v, id, fold) then (v.(deks := v.deks - {id}), true) else (v, false)
  }

  /** Deleting a key cannot hurt a handled column. */
  lemma DeletionSparesHandled(f: Scheme, sec: Secrets, v: Vault, id: string, fold: bool, c: Cell, plain: string)
    requires IsDekId(id) && Handled(c.col) && Reads(f, sec, v, c, plain)
    ensures Reads(f, sec, DeleteRetiringDek(v, id, fold).0, c, plain)
  {
    UsageZeroIff(v, id, fold);
    CountedIffNamed(v.cells[c], id, fold);
    if Deletable(v, id, fold) {
      SameKeysSameReading(f, sec, v, sec, DeleteRetiringDek(v, id, fold).0, v.cells[c]);
    }
  }

  /**
    What a deletion costs, over all columns: a readable value stays readable if and only if it does
    not name the deleted key. For a handled column that is always so; for the TOTP and Jitsi
    columns, which the count does not visit, it is not.
   */
  lemma DeletionLosesExactly(f: Scheme, sec: Secrets, v: Vault, id: string, fold: bool, c: Cell, plain: string)
    requires Reads(f, sec, v, c, plain) && Deletable(v, id, fold)
    ensures Reads(f, sec, DeleteRetiringDek(v, id, fold).0, c, plain) <==> TokenDekId(v.cells[c]) != Some(id)
    ensures IsDekId(id) && TokenDekId(v.cells[c]) == Some(id) ==> !Handled(c.col)
  {
    if TokenDekId(v.cells[c]) != Some(id) {
      SameKeysSameReading(f, sec, v, sec, DeleteRetiringDek(v, id, fold).0, v.cells[c]);
    }
    UsageZeroIff(v, id, fold);
    if IsDekId(id) {
      CountedIffNamed(v.cells[c], id, fold);
    }
  }

  // ------------------------------------------------------------------ one re-encryption batch

  /** Re-encrypt at most `limit` values of the listed rows that name a retiring key. */
  function ReencryptRows(
    f: Scheme, sec: Secrets, v: Vault, col: Column, rows: seq<nat>, retiring: set<string>, limit: nat, iv: nat)
    : Result<(Vault, nat), CryptoError>
    decreases |rows|
  {
    if rows == [] || limit == 0 then Ok((v, 0))
    else
      var c := Cell(col, rows[0]);
      if c in v.cells && OnRetiring(v.cells[c], retiring) then
        match DecryptStr(f, sec, v, v.cells[c])
        case Err(e) => Err(e)
        case Ok(plain) =>
          match EncryptStr(f, sec, v, plain, iv)
          case Err(e) => Err(e)
          case Ok(token) =>
            match ReencryptRows(f, sec, v.(cells := v.cells[c := token]), col, rows[1..], retiring, limit - 1, iv + 1)
            case Err(e) => Err(e)
            case Ok((v', n)) => Ok((v', n + 1))
      else ReencryptRows(f, sec, v, col, rows[1..], retiring, limit, iv)
  }

  predicate OnRetiring(token: string, retiring: set<string>) {
    TokenDekId(token).Some? && TokenDekId(token).value in retiring
  }

  // ------------------------------------------------------------------ the machine

  datatype Phase = Queued | Batching | Deleting(todo: seq<string>)

  /** The background thread of the running job, and its snapshot of the retiring keys. */
  datatype Job = Job(id: nat, target: string, retiring: seq<string>, phase: Phase)

  datatype JobStatus = JobQueued | JobRunning | JobCompleted | JobCanceled | JobFailed

  /**
    The hub: configured secrets, database, the running job and the set of cancel requests.
    `truth` records the last plaintext written to each cell; the program has no such field.
   */
  datatype Hub = Hub(sec: Secrets, vault: Vault, truth: map<Cell, string>,
                     job: Option<Job>, cancelled: set<nat>, status: map<nat, JobStatus>)

  datatype Event =
    | Write(cell: Cell, plain: string, iv: nat)
    | Remove(cell: Cell)
    | AddDek(id: string, raw: Key, iv: nat)
    | StartJob(jobId: nat)
    | RequestCancel(jobId: nat)
    | JobBegin(retiringRows: seq<string>)
    | JobBatch(col: Column, rows: seq<nat>, limit: nat, iv: nat)
    | JobStop
    | JobDelete(fold: bool)
    | JobCrash
    | Restart(sec: Secrets, order: seq<string>, iv: nat)

  function RetiringIds(deks: KeyTable): set<string> {
    set id | id in deks && deks[id].status == Retiring
  }

  function EndJob(h: Hub, status: JobStatus): Hub
    requires h.job.Some?
  {
    h.(job := None, cancelled := h.cancelled - {h.job.value.id}, status := h.status[h.job.value.id := status])
  }

  function StepWrite(f: Scheme, h: Hub, cell: Cell, plain: string, iv: nat): Hub {
    match EncryptStr(f, h.sec, h.vault, plain, iv)
    case Err(_) => h
    case Ok(token) =>
      h.(vault := h.vault.(cells := h.vault.cells[cell := token]), truth := h.truth[cell := plain])
  }

  /** Refused while a job runs; otherwise the active keys retire and a new key becomes active. */
  function StepAddDek(f: Scheme, h: Hub, id: string, raw: Key, iv: nat): Hub {
    if h.job.Some? then h
    else
      var retired := map k | k in h.vault.deks :: h.vault.deks[k].(status := Retiring);
      var dek := Dek(WrapDek(f, h.sec, raw, iv), Active);
      h.(vault := h.vault.(deks := retired[id := dek], active := Some(id)))
  }

  function StepStartJob(f: Scheme, h: Hub, jobId: nat): Hub {
    if h.job.Some? || RetiringIds(h.vault.deks) == {} || GetActiveDek(f, h.sec, h.vault).Err? then h
    else h.(job := Some(Job(jobId, h.vault.active.value, [], Queued)), status := h.status[jobId := JobQueued])
  }

  /** The thread lists the retiring keys; with none it is done, with a stale target it fails. */
  function StepJobBegin(h: Hub, retiringRows: seq<string>): Hub {
    if h.job.None? || h.job.value.phase != Queued then h
    else if retiringRows == [] then EndJob(h, JobCompleted)
    else if h.vault.active != Some(h.job.value.target) then EndJob(h, JobFailed)
    else
      var j := h.job.value;
      h.(job := Some(j.(retiring := retiringRows, phase := Batching)), status := h.status[j.id := JobRunning])
  }

  /** A batch commits as a whole; an exception rolls it back and fails the job. */
  function StepJobBatch(f: Scheme, h: Hub, col: Column, rows: seq<nat>, limit: nat, iv: nat): Hub {
    if h.job.None? || h.job.value.phase != Batching || !Handled(col) then h
    else
      var ids := set id | id in h.job.value.retiring;
      match ReencryptRows(f, h.sec, h.vault, col, rows, ids, limit, iv)
      case Err(_) => EndJob(h, JobFailed)
      case Ok((v, _)) => h.(vault := v)
  }

  /** Leaving the batch loop, for want of work or because of a cancel request. */
  function StepJobStop(h: Hub): Hub {
    if h.job.None? || h.job.value.phase != Batching then h
    else if h.job.value.id in h.cancelled then EndJob(h, JobCanceled)
    else h.(job := Some(h.job.value.(phase := Deleting(h.job.value.retiring))))
  }

  function StepJobDelete(h: Hub, fold: bool): Hub {
    if h.job.None? || !h.job.value.phase.Deleting? then h
    else
      var j := h.job.value;
      if j.phase.todo == [] then EndJob(h, JobCompleted)
      else h.(vault := DeleteRetiringDek(h.vault, j.phase.todo[0], fold).0,
              job := Some(j.(phase := Deleting(j.phase.todo[1..]))))
  }

  /**
    The process dies and starts with the given secrets. It comes up only if every data key passes
    the start-up test, and then re-wraps the keys of `order` (all of them, unless it dies again).
   */
  function StepRestart(f: Scheme, h: Hub, sec: Secrets, order: seq<string>, iv: nat): Hub {
    var down := h.(job := None, cancelled := {});
    if Strip(sec.current) != "" && forall id :: id in h.vault.deks ==> CanUnwrapDek(f, sec, h.vault.deks[id].wrapped)
    then down.(sec := sec, vault := h.vault.(deks := Rewrapped(f, sec, h.vault.deks, order, iv)))
    else down
  }

  function Step(f: Scheme, h: Hub, e: Event): Hub {
    match e
    case Write(cell, plain, iv) => StepWrite(f, h, cell, plain, iv)
    case Remove(cell) => h.(vault := h.vault.(cells := h.vault.cells - {cell}), truth := h.truth - {cell})
    case AddDek(id, raw, iv) => StepAddDek(f, h, id, raw, iv)
    case StartJob(jobId) => StepStartJob(f, h, jobId)
    case RequestCancel(jobId) => h.(cancelled := h.cancelled + {jobId})
    case JobBegin(rows) => StepJobBegin(h, rows)
    case JobBatch(col, rows, limit, iv) => StepJobBatch(f, h, col, rows, limit, iv)
    case JobStop => StepJobStop(h)
    case JobDelete(fold) => StepJobDelete(h, fold)
    case JobCrash => if h.job.Some? then EndJob(h, JobFailed) else h
    case Restart(sec, order, iv) => StepRestart(f, h, sec, order, iv)
  }

  function Run(f: Scheme, h: Hub, events: seq<Event>): Hub
    decreases |events|
  {
    if events == [] then h else Run(f, Step(f, h, events[0]), events[1..])
  }

  /**
    What is known of inputs: new key ids are fresh UUIDs, and no key is wrapped under a previous secret
    that is configured with white space around it.
   */
  ghost predicate Plausible(f: Scheme, h: Hub, e: Event) {
    match e
    case AddDek(id, _, _) => IsDekId(id) && id !in h.vault.deks
    case Restart(sec, _, _) => AcceptedUnwrap(f, sec, h.vault.deks)
    case _ => true
  }

  ghost predicate PlausibleRun(f: Scheme, h: Hub, events: seq<Event>)
    decreases |events|
  {
    events == [] || (Plausible(f, h, events[0]) && PlausibleRun(f, Step(f, h, events[0]), events[1..]))
  }

  // ------------------------------------------------------------------ the invariant

  /** Data keys: ids are UUIDs, each unwraps, the active one exists and is the only one active. */
  ghost predicate KeysSound(f: Scheme, sec: Secrets, v: Vault) {
    && sec.current != ""
    && v.active.Some? && v.active.value in v.deks
    && (forall id :: id in v.deks ==> IsDekId(id))
    && (forall id :: id in v.deks ==> (v.deks[id].status == Active <==> Some(id) == v.active))
    && AllUnwrap(f, sec, v.deks)
  }

  /** Every non-empty value of a handled column decrypts to the last plaintext written there. */
  ghost predicate SecretsSound(f: Scheme, sec: Secrets, v: Vault, truth: map<Cell, string>) {
    forall c :: c in v.cells && Handled(c.col) && v.cells[c] != "" ==> c in truth && Reads(f, sec, v, c, truth[c])
  }

  ghost predicate Sound(f: Scheme, h: Hub) {
    KeysSound(f, h.sec, h.vault) && SecretsSound(f, h.sec, h.vault, h.truth)
  }

  lemma EncryptSucceeds(f: Scheme, sec: Secrets, v: Vault, plain: string, iv: nat)
    requires KeysSound(f, sec, v)
    ensures EncryptStr(f, sec, v, plain, iv).Ok?
  {
  }

  /** Storing one freshly encrypted value keeps every reading and records the new one. */
  lemma StoreKeepsSound(f: Scheme, sec: Secrets, v: Vault, truth: map<Cell, string>, c: Cell, plain: string, iv: nat)
    requires Ideal(f) && KeysSound(f, sec, v) && SecretsSound(f, sec, v, truth)
    requires EncryptStr(f, sec, v, plain, iv).Ok?
    ensures var v' := v.(cells := v.cells[c := EncryptStr(f, sec, v, plain, iv).value]);
            KeysSound(f, sec, v') && SecretsSound(f, sec, v', truth[c := plain])
  {
    var v' := v.(cells := v.cells[c := EncryptStr(f, sec, v, plain, iv).value]);
    EncryptRoundTrip(f, sec, v, plain, iv);
    forall d | d in v'.cells && Handled(d.col) && v'.cells[d] != ""
      ensures Reads(f, sec, v', d, truth[c := plain][d])
    {
      SameKeysSameReading(f, sec, v, sec, v', v'.cells[d]);
    }
  }

  /** Writing a secret again under the active key keeps the vault sound. */
  lemma RestoreKeepsSound(f: Scheme, sec: Secrets, v: Vault, truth: map<Cell, string>, c: Cell, iv: nat)
    requires Ideal(f) && KeysSound(f, sec, v) && SecretsSound(f, sec, v, truth)
    requires c in v.cells && Handled(c.col) && v.cells[c] != ""
    ensures c in truth && DecryptStr(f, sec, v, v.cells[c]) == Ok(truth[c])
    ensures EncryptStr(f, sec, v, truth[c], iv).Ok?
    ensures var w := v.(cells := v.cells[c := EncryptStr(f, sec, v, truth[c], iv).value]);
            KeysSound(f, sec, w) && SecretsSound(f, sec, w, truth)
  {
    EncryptSucceeds(f, sec, v, truth[c], iv);
    StoreKeepsSound(f, sec, v, truth, c, truth[c], iv);
    assert truth[c := truth[c]] == truth;
  }

  /** Re-encryption moves values to the active key and changes no plaintext; it never fails. */
  lemma {:induction false} BatchKeepsSound(
    f: Scheme, sec: Secrets, v: Vault, truth: map<Cell, string>,
    col: Column, rows: seq<nat>, retiring: set<string>, limit: nat, iv: nat)
    requires Ideal(f) && KeysSound(f, sec, v) && SecretsSound(f, sec, v, truth) && Handled(col)
    ensures ReencryptRows(f, sec, v, col, rows, retiring, limit, iv).Ok?
    ensures var v' := ReencryptRows(f, sec, v, col, rows, retiring, limit, iv).value.0;
            KeysSound(f, sec, v') && SecretsSound(f, sec, v', truth)
    decreases |rows|
  {
    if rows != [] && limit != 0 {
      var c := Cell(col, rows[0]);
      if c in v.cells && OnRetiring(v.cells[c], retiring) {
        RestoreKeepsSound(f, sec, v, truth, c, iv);
        var token := EncryptStr(f, sec, v, truth[c], iv).value;
        BatchKeepsSound(f, sec, v.(cells := v.cells[c := token]), truth, col, rows[1..], retiring, limit - 1, iv + 1);
      } else {
        BatchKeepsSound(f, sec, v, truth, col, rows[1..], retiring, limit, iv);
      }
    }
  }

  lemma DeleteKeepsSound(f: Scheme, sec: Secrets, v: Vault, truth: map<Cell, string>, id: string, fold: bool)
    requires KeysSound(f, sec, v) && SecretsSound(f, sec, v, truth)
    ensures var v' := DeleteRetiringDek(v, id, fold).0;
            KeysSound(f, sec, v') && SecretsSound(f, sec, v', truth)
  {
    var v' := DeleteRetiringDek(v, id, fold).0;
    if Deletable(v, id, fold) {
      forall c | c in v'.cells && Handled(c.col) && v'.cells[c] != "" ensures Reads(f, sec, v', c, truth[c]) {
        DeletionSparesHandled(f, sec, v, id, fold, c, truth[c]);
      }
    }
  }

  lemma RekeyKeepsSecrets(f: Scheme, sec: Secrets, v: Vault, sec': Secrets, v': Vault, truth: map<Cell, string>)
    requires SecretsSound(f, sec, v, truth) && v'.cells == v.cells
    requires forall id :: id in v.deks ==>
               id in v'.deks && UnwrapDek(f, sec, v.deks[id].wrapped) == UnwrapDek(f, sec', v'.deks[id].wrapped)
    ensures SecretsSound(f, sec', v', truth)
  {
  }

  lemma AddDekKeepsSound(f: Scheme, h: Hub, id: string, raw: Key, iv: nat)
    requires Ideal(f) && Sound(f, h) && IsDekId(id) && id !in h.vault.deks
    ensures Sound(f, StepAddDek(f, h, id, raw, iv))
  {
    var h' := StepAddDek(f, h, id, raw, iv);
    if h.job.None? {
      assert f.open(h.sec.current, f.seal(h.sec.current, raw, iv)) == Some(raw);
      RekeyKeepsSecrets(f, h.sec, h.vault, h.sec, h'.vault, h.truth);
    }
  }

  lemma RestartKeepsSound(f: Scheme, h: Hub, sec: Secrets, order: seq<string>, iv: nat)
    requires Ideal(f) && Sound(f, h) && AcceptedUnwrap(f, sec, h.vault.deks)
    ensures Sound(f, StepRestart(f, h, sec, order, iv))
  {
    if Strip(sec.current) != "" && AllCanUnwrap(f, sec, h.vault.deks) {
      var h' := StepRestart(f, h, sec, order, iv);
      NewSecretsSameKeys(f, h.sec, sec, h.vault.deks);
      RewrapIsCrashSafe(f, sec, h.vault.deks, order, iv);
      assert h'.vault.deks.Keys == h.vault.deks.Keys;
      RekeyKeepsSecrets(f, h.sec, h.vault, sec, h'.vault, h.truth);
    }
  }

  lemma WriteKeepsSound(f: Scheme, h: Hub, e: Event)
    requires Ideal(f) && Sound(f, h) && e.Write?
    ensures Sound(f, Step(f, h, e))
  {
    EncryptSucceeds(f, h.sec, h.vault, e.plain, e.iv);
    StoreKeepsSound(f, h.sec, h.vault, h.truth, e.cell, e.plain, e.iv);
  }

  lemma RemoveKeepsSound(f: Scheme, h: Hub, e: Event)
    requires Ideal(f) && Sound(f, h) && e.Remove?
    ensures Sound(f, Step(f, h, e))
  {
    var h' := Step(f, h, e);
    forall c | c in h'.vault.cells && Handled(c.col) && h'.vault.cells[c] != ""
      ensures c in h'.truth && Reads(f, h'.sec, h'.vault, c, h'.truth[c])
    {
      SameKeysSameReading(f, h.sec, h.vault, h'.sec, h'.vault, h.vault.cells[c]);
    }
  }

  lemma JobKeepsSound(f: Scheme, h: Hub, e: Event)
    requires Ideal(f) && Sound(f, h) && (e.JobBatch? || e.JobDelete?)
    ensures Sound(f, Step(f, h, e))
  {
    match e
    case JobBatch(col, rows, limit, iv) =>
      if h.job.Some? && Handled(col) {
        var ids := set id | id in h.job.value.retiring;
        BatchKeepsSound(f, h.sec, h.vault, h.truth, col, rows, ids, limit, iv);
      }
    case JobDelete(fold) =>
      if h.job.Some? && h.job.value.phase.Deleting? && h.job.value.phase.todo != [] {
        DeleteKeepsSound(f, h.sec, h.vault, h.truth, h.job.value.phase.todo[0], fold);
      }
    case _ =>
  }

  /** One step, whatever it is, keeps every handled secret readable. */
  lemma StepKeepsSound(f: Scheme, h: Hub, e: Event)
    requires Ideal(f) && Sound(f, h) && Plausible(f, h, e)
    ensures Sound(f, Step(f, h, e))
  {
    match e
    case Write(_, _, _) => WriteKeepsSound(f, h, e);
    case Remove(_) => RemoveKeepsSound(f, h, e);
    case AddDek(id, raw, iv) => AddDekKeepsSound(f, h, id, raw, iv);
    case JobBatch(_, _, _, _) => JobKeepsSound(f, h, e);
    case JobDelete(_) => JobKeepsSound(f, h, e);
    case Restart(sec, order, iv) => RestartKeepsSound(f, h, sec, order, iv);
    case _ =>
  }

  /** No run of any length, in any interleaving, makes a handled secret unreadable or changes it. */
  lemma {:induction false} RunKeepsSound(f: Scheme, h: Hub, events: seq<Event>)
    requires Ideal(f) && Sound(f, h) && PlausibleRun(f, h, events)
    ensures Sound(f, Run(f, h, events))
    decreases |events|
  {
    if events != [] {
      StepKeepsSound(f, h, events[0]);
      RunKeepsSound(f, Step(f, h, events[0]), events[1..]);
    }
  }

  // ------------------------------------------------------------------ a previous secret with white space

  /** A value's key after a restart that the start-up test lets through. */
  lemma RestartedKey(f: Scheme, h: Hub, sec: Secrets, order: seq<string>, iv: nat, id: string)
    requires Ideal(f) && AllUnwrap(f, h.sec, h.vault.deks) && id in h.vault.deks
    requires Strip(sec.current) != "" && AllCanUnwrap(f, sec, h.vault.deks)
    ensures var h' := StepRestart(f, h, sec, order, iv);
            && h'.sec == sec && id in h'.vault.deks
            && (if OnlyStrippedOpens(f, sec, h.vault.deks[id].wrapped)
                then UnwrapDek(f, sec, h'.vault.deks[id].wrapped) == None
                else UnwrapDek(f, sec, h'.vault.deks[id].wrapped) == UnwrapDek(f, h.sec, h.vault.deks[id].wrapped))
  {
    var w := h.vault.deks[id].wrapped;
    AcceptedUnwrapsIff(f, sec, w);
    RewrapKeepsEach(f, sec, h.vault.deks, order, iv, id);
    if UnwrapDek(f, sec, w).Some? {
      SecretsAgree(f, h.sec, sec, w);
    }
  }

  /**
    After any run the hub may be restarted with secrets that the start-up test accepts. A handled value
    then reads as before if and only if its key is not wrapped under the stripped previous secret only:
    otherwise the hub is up and the value unreadable.
   */
  lemma RestartReadsIff(
    f: Scheme, h0: Hub, events: seq<Event>, sec: Secrets, order: seq<string>, iv: nat, c: Cell)
    requires Ideal(f) && Sound(f, h0) && PlausibleRun(f, h0, events)
    requires var h := Run(f, h0, events);
             && Strip(sec.current) != "" && AllCanUnwrap(f, sec, h.vault.deks)
             && c in h.vault.cells && Handled(c.col) && h.vault.cells[c] != ""
    ensures var h := Run(f, h0, events);
            var h' := StepRestart(f, h, sec, order, iv);
            && c in h.truth && Reads(f, h.sec, h.vault, c, h.truth[c])
            && (Reads(f, h'.sec, h'.vault, c, h.truth[c])
                <==> !OnlyStrippedOpens(f, sec, h.vault.deks[TokenDekId(h.vault.cells[c]).value].wrapped))
  {
    var h := Run(f, h0, events);
    RunKeepsSound(f, h0, events);
    assert Reads(f, h.sec, h.vault, c, h.truth[c]);
    var id := TokenDekId(h.vault.cells[c]).value;
    RestartedKey(f, h, sec, order, iv, id);
    if !OnlyStrippedOpens(f, sec, h.vault.deks[id].wrapped) {
      var h' := StepRestart(f, h, sec, order, iv);
      SameKeysSameReading(f, h.sec, h.vault, h'.sec, h'.vault, h.vault.cells[c]);
    }
  }

  // ------------------------------------------------------------------ the columns left behind

  /** A hub just bootstrapped with one key, and no secrets stored. */
  function NewHub(f: Scheme, sec: Secrets, id: string, raw: Key): Hub {
    Hub(sec, Vault(map[id := Dek(WrapDek(f, sec, raw, 0), Active)], Some(id), map[]), map[], None, {}, map[])
  }

  /** Store one value, rotate the data key, and let the job run to its end. */
  function RotationRun(cell: Cell, plain: string, oldId: string, newId: string, newRaw: Key, fold: bool): seq<Event> {
    [Write(cell, plain, 0), AddDek(newId, newRaw, 0), StartJob(1), JobBegin([oldId]),
     JobBatch(cell.col, [cell.row], 50, 0), JobStop, JobDelete(fold), JobDelete(fold)]
  }

  /** The value is stored under the old key, which a new one then retires. */
  lemma RotationQuarter(
    f: Scheme, sec: Secrets, cell: Cell, plain: string, oldId: string, newId: string, raw: Key, newRaw: Key)
    requires Ideal(f) && sec.current != "" && IsDekId(oldId) && IsDekId(newId) && oldId != newId
    ensures var h0 := NewHub(f, sec, oldId, raw);
            var h := Step(f, Step(f, h0, Write(cell, plain, 0)), AddDek(newId, newRaw, 0));
            && Sound(f, h0)
            && h.vault.active == Some(newId) && h.vault.deks.Keys == {oldId, newId}
            && h.vault.deks[oldId].status == Retiring
            && h.vault.cells.Keys == {cell} && TokenDekId(h.vault.cells[cell]) == Some(oldId)
            && h.truth == map[cell := plain] && h.cancelled == {} && h.job == None
            && GetActiveDek(f, h.sec, h.vault).Ok?
  {
    var h0 := NewHub(f, sec, oldId, raw);
    assert f.open(sec.current, f.seal(sec.current, raw, 0)) == Some(raw);
    assert f.open(sec.current, f.seal(sec.current, newRaw, 0)) == Some(newRaw);
    EncryptRoundTrip(f, sec, h0.vault, plain, 0);
  }

  /** A job is started on it. */
  lemma JobStarts(f: Scheme, h: Hub, oldId: string, newId: string)
    requires h.vault.active == Some(newId) && h.vault.deks.Keys == {oldId, newId}
    requires h.vault.deks[oldId].status == Retiring && h.job == None && GetActiveDek(f, h.sec, h.vault).Ok?
    ensures var h' := Step(f, Step(f, h, StartJob(1)), JobBegin([oldId]));
            h' == h.(job := Some(Job(1, newId, [oldId], Batching)), status := h'.status)
  {
    assert oldId in RetiringIds(h.vault.deks);
    assert Step(f, h, StartJob(1)).job == Some(Job(1, newId, [], Queued));
  }

  /** The first half: the value is stored under the old key, which is then left to the job. */
  lemma RotationFirstHalf(
    f: Scheme, sec: Secrets, cell: Cell, plain: string, oldId: string, newId: string, raw: Key, newRaw: Key, fold: bool)
    requires Ideal(f) && sec.current != "" && IsDekId(oldId) && IsDekId(newId) && oldId != newId
    ensures var h0 := NewHub(f, sec, oldId, raw);
            var h := Run(f, h0, RotationRun(cell, plain, oldId, newId, newRaw, fold)[..4]);
            && Sound(f, h0)
            && h.vault.active == Some(newId) && h.vault.deks.Keys == {oldId, newId}
            && h.vault.deks[oldId].status == Retiring
            && h.vault.cells.Keys == {cell} && TokenDekId(h.vault.cells[cell]) == Some(oldId)
            && h.truth == map[cell := plain] && h.cancelled == {}
            && h.job == Some(Job(1, newId, [oldId], Batching))
  {
    var h0 := NewHub(f, sec, oldId, raw);
    var es := RotationRun(cell, plain, oldId, newId, newRaw, fold);
    RotationQuarter(f, sec, cell, plain, oldId, newId, raw, newRaw);
    JobStarts(f, Step(f, Step(f, h0, es[0]), es[1]), oldId, newId);
    RunFour(f, h0, es[..4]);
  }

  /**
    Rotating the data key of a hub that holds one secret, in an unhandled column, completes and
    deletes the old key: the secret can no longer be decrypted.
   */
  lemma RotationLosesUnhandledColumn(
    f: Scheme, sec: Secrets, cell: Cell, plain: string, oldId: string, newId: string, raw: Key, newRaw: Key, fold: bool)
    requires Ideal(f) && sec.current != "" && IsDekId(oldId) && IsDekId(newId) && oldId != newId
    requires !Handled(cell.col)
    ensures Sound(f, NewHub(f, sec, oldId, raw))
    ensures var h := Run(f, NewHub(f, sec, oldId, raw), RotationRun(cell, plain, oldId, newId, newRaw, fold));
            && h.job == None && 1 in h.status && h.status[1] == JobCompleted
            && h.truth == map[cell := plain] && cell in h.vault.cells
            && DecryptStr(f, h.sec, h.vault, h.vault.cells[cell]) == Err(RuntimeFailure)
  {
    var h0 := NewHub(f, sec, oldId, raw);
    var es := RotationRun(cell, plain, oldId, newId, newRaw, fold);
    var h4 := Run(f, h0, es[..4]);
    RotationFirstHalf(f, sec, cell, plain, oldId, newId, raw, newRaw, fold);
    RunSplit(f, h0, es, 4);
    RotationSecondHalf(f, h4, cell, oldId, newId, fold);
    RunFour(f, h4, es[4..]);
  }

  /** The second half: the job has nothing to move, so it deletes the old key at once. */
  lemma RotationSecondHalf(f: Scheme, h: Hub, cell: Cell, oldId: string, newId: string, fold: bool)
    requires !Handled(cell.col) && h.vault.active == Some(newId) && oldId != newId && h.cancelled == {}
    requires oldId in h.vault.deks && h.vault.deks[oldId].status == Retiring
    requires h.vault.cells.Keys == {cell} && TokenDekId(h.vault.cells[cell]) == Some(oldId)
    requires h.job == Some(Job(1, newId, [oldId], Batching))
    ensures var drained := Step(f, Step(f, h, JobBatch(cell.col, [cell.row], 50, 0)), JobStop);
            var after := Step(f, Step(f, drained, JobDelete(fold)), JobDelete(fold));
            && after.job == None && 1 in after.status && after.status[1] == JobCompleted
            && after.truth == h.truth && after.vault.cells == h.vault.cells
            && oldId !in after.vault.deks
            && DecryptStr(f, after.sec, after.vault, after.vault.cells[cell]) == Err(RuntimeFailure)
  {
    UsageZeroIff(h.vault, oldId, fold);
    assert Deletable(h.vault, oldId, fold);
    var h2 := StepJobStop(h);
    assert h2 == h.(job := Some(Job(1, newId, [oldId], Deleting([oldId]))));
    var h3 := StepJobDelete(h2, fold);
    assert [oldId][1..] == [];
    assert h3.job == Some(Job(1, newId, [oldId], Deleting([])));
  }

  lemma RunFour(f: Scheme, h: Hub, es: seq<Event>)
    requires |es| == 4
    ensures Run(f, h, es) == Step(f, Step(f, Step(f, Step(f, h, es[0]), es[1]), es[2]), es[3])
  {
    var h1 := Step(f, h, es[0]);
    var h2 := Step(f, h1, es[1]);
    var h3 := Step(f, h2, es[2]);
    assert es[1..][1..] == es[2..] && es[2..][1..] == es[3..] && es[3..][1..] == [];
    RunOne(f, h, es);
    RunOne(f, h1, es[1..]);
    RunOne(f, h2, es[2..]);
    RunOne(f, h3, es[3..]);
  }

  lemma RunOne(f: Scheme, h: Hub, es: seq<Event>)
    requires es != []
    ensures Run(f, h, es) == Run(f, Step(f, h, es[0]), es[1..])
  {
  }

  lemma {:induction false} RunSplit(f: Scheme, h: Hub, es: seq<Event>, n: nat)
    requires n <= |es|
    ensures Run(f, h, es) == Run(f, Run(f, h, es[..n]), es[n..])
    decreases n
  {
    if n == 0 {
      assert es[n..] == es;
    } else {
      RunSplit(f, Step(f, h, es[0]), es[1..], n - 1);
      assert es[..n][1..] == es[1..][..n - 1] && es[1..][n - 1..] == es[n..];
    }
  }
}
