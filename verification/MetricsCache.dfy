/** The token-state gauge as a cache of the `tokens` table: writers commit and then request
    a refresh, the worker reads the counts and then sets the gauge, all in separate steps
    (db.py, telemetry/_refresh.py, telemetry/_prometheus.py). */
module MetricsCache {
  import opened Grants
  import opened Crypto
  import opened Runs
  import C = Coalescing
  import P = CoalescingProofs

  datatype Counts = Counts(present: nat, revoked: nat)

  function LiveIds(rows: Table): set<ClientId> { set id | id in rows && rows[id].Live? }
  function NullIds(rows: Table): set<ClientId> { set id | id in rows && rows[id] == Row.Revoked }

  /** `_token_state_counts`. */
  function CountRows(rows: Table): Counts { Counts(|LiveIds(rows)|, |NullIds(rows)|) }

  /** Every row is counted once. */
  lemma CountsPartition(rows: Table)
    ensures CountRows(rows).present + CountRows(rows).revoked == |rows|
  {
    assert LiveIds(rows) + NullIds(rows) == rows.Keys && LiveIds(rows) !! NullIds(rows);
  }

  /** How far the running refresh has come. */
  datatype Refresh = Unread | Read(counts: Counts) | HalfSet(counts: Counts) | Finished

  /** The life of the worker in the application: registered, started, first request made,
      and finally taken out of the application before it is stopped. */
  datatype Service = Absent | Registered | Spawned | Ready | Removed

  datatype State = State(
    worker: C.State,
    service: Service,
    rows: Table,
    gauge: Counts,
    writers: nat,          // committed but not yet at their refresh request
    refresh: Refresh)

  datatype Label =
    | CommitInsert(id: ClientId, cipher: Cipher)
    | CommitUpdate(id: ClientId, row: Row)
    | WriterRequests
    | Register
    | SpawnWorker
    | FirstRequest
    | ExtraRequest
    | Remove
    | StopWorker
    | Work(t: nat)
    | ReadCounts
    | SetPresent
    | SetRevoked
    | Tick(d: real)

  /** The application starts with some table and some gauge, and no worker. */
  function Initially(rows: Table, gauge: Counts): State {
    State.State(C.INITIAL, Absent, rows, gauge, 0, Unread)
  }

  /** `request_refresh` finds the worker in the application. */
  predicate Reachable(s: State) { s.service.Registered? || s.service.Spawned? || s.service.Ready? }

  predicate Refreshing(s: State) { P.Worker(s.worker).Running? }

  function Ask(cfg: C.Timing, s: State): State { s.(worker := C.Step(cfg, s.worker, C.Request)) }

  /** One atomic step; a label that does not apply changes nothing. */
  function Step(cfg: C.Timing, s: State, l: Label): State {
    match l
    case CommitInsert(id, cipher) =>
      if id in s.rows then s else s.(rows := InsertRow(s.rows, id, cipher), writers := s.writers + 1)
    case CommitUpdate(id, row) =>
      if id !in s.rows then s else s.(rows := UpdateRow(s.rows, id, row), writers := s.writers + 1)
    case WriterRequests =>
      if s.writers == 0 then s
      else if Reachable(s) then Ask(cfg, s).(writers := s.writers - 1)
      else s.(writers := s.writers - 1)
    case Register => if s.service.Absent? then s.(service := Registered) else s
    case SpawnWorker =>
      if s.service.Registered? then s.(worker := C.Step(cfg, s.worker, C.Start), service := Spawned) else s
    case FirstRequest => if s.service.Spawned? then Ask(cfg, s).(service := Ready) else s
    case ExtraRequest => if s.service.Ready? then Ask(cfg, s) else s
    case Remove => if s.service.Ready? then s.(service := Removed) else s
    case StopWorker => if s.service.Removed? then s.(worker := C.Step(cfg, s.worker, C.Stop)) else s
    case Work(t) =>
      if Refreshing(s) && !s.refresh.Finished? then s
      else s.(worker := C.Step(cfg, s.worker, C.Work(t)),
              refresh := if P.Worker(s.worker).Launching? then Unread else s.refresh)
    case ReadCounts => if Refreshing(s) && s.refresh.Unread? then s.(refresh := Read(CountRows(s.rows))) else s
    case SetPresent =>
      if Refreshing(s) && s.refresh.Read? then
        s.(gauge := s.gauge.(present := s.refresh.counts.present), refresh := HalfSet(s.refresh.counts))
      else s
    case SetRevoked =>
      if Refreshing(s) && s.refresh.HalfSet? then
        s.(gauge := s.gauge.(revoked := s.refresh.counts.revoked), refresh := Finished)
      else s
    case Tick(d) => s.(worker := C.Step(cfg, s.worker, C.Tick(d)))
  }

  function Exec(cfg: C.Timing, s: State, labels: seq<Label>): State
    decreases |labels|
  {
    if labels == [] then s else Exec(cfg, Step(cfg, s, labels[0]), labels[1..])
  }

  /** If nothing more is written, the refresh that is due or under way, or else the last one,
      leaves the gauge right. */
  predicate WillAgree(s: State) {
    match P.Worker(s.worker)
    case Launching(_, _, _) => true
    case Running(_, _, _) =>
      (match s.refresh
       case Unread => true
       case Read(c) => c == CountRows(s.rows)
       case HalfSet(c) => c == CountRows(s.rows) && s.gauge.present == c.present
       case Finished => s.gauge == CountRows(s.rows))
    case _ => s.gauge == CountRows(s.rows)
  }

  predicate Inv(s: State) {
    && P.Inv(s.worker)
    && (s.service.Ready? ==>
          s.writers > 0 || s.worker.fields.generation > s.worker.fields.handled || WillAgree(s))
  }

  lemma RequestKeepsInv(cfg: C.Timing, s: State)
    requires P.Inv(s.worker)
    ensures P.Inv(Ask(cfg, s).worker)
    ensures Ask(cfg, s).worker.fields.generation > Ask(cfg, s).worker.fields.handled
  {
    P.StepKeepsInv(cfg, s.worker, C.Request);
  }

  lemma WorkKeepsInv(cfg: C.Timing, s: State, t: nat)
    requires Inv(s)
    ensures Inv(Step(cfg, s, Work(t)))
  {
    P.StepKeepsInv(cfg, s.worker, C.Work(t));
  }

  /** Whatever else happens to the worker leaves its place and counters alone or comes
      after the service is gone. */
  lemma ServiceKeepsInv(cfg: C.Timing, s: State, l: Label)
    requires Inv(s) && (l.SpawnWorker? || l.StopWorker? || l.Tick?)
    ensures Inv(Step(cfg, s, l))
  {
    match l
    case SpawnWorker => P.StepKeepsInv(cfg, s.worker, C.Start);
    case StopWorker => P.StepKeepsInv(cfg, s.worker, C.Stop);
    case Tick(d) => P.StepKeepsInv(cfg, s.worker, C.Tick(d));
  }

  lemma StepKeepsInv(cfg: C.Timing, s: State, l: Label)
    requires Inv(s)
    ensures Inv(Step(cfg, s, l))
  {
    match l
    case WriterRequests => RequestKeepsInv(cfg, s);
    case FirstRequest => RequestKeepsInv(cfg, s);
    case ExtraRequest => RequestKeepsInv(cfg, s);
    case Work(t) => WorkKeepsInv(cfg, s, t);
    case SpawnWorker => ServiceKeepsInv(cfg, s, l);
    case StopWorker => ServiceKeepsInv(cfg, s, l);
    case Tick(_) => ServiceKeepsInv(cfg, s, l);
    case _ =>
  }

  lemma {:induction false} ExecKeepsInv(cfg: C.Timing, s: State, labels: seq<Label>)
    requires Inv(s)
    ensures Inv(Exec(cfg, s, labels))
    decreases |labels|
  {
    if labels != [] {
      StepKeepsInv(cfg, s, labels[0]);
      ExecKeepsInv(cfg, Step(cfg, s, labels[0]), labels[1..]);
    }
  }

  /** Every writer has made its request, and the worker has handled all requests and is not
      refreshing. */
  predicate Settled(s: State) {
    && s.writers == 0 && s.worker.fields.generation == s.worker.fields.handled
    && !P.Worker(s.worker).Launching? && !P.Worker(s.worker).Running?
  }

  /** Cache agreement: while the service is up, whenever things have settled the gauge shows
      how many rows of the table are live and how many are null, for every interleaving and
      whatever it showed first. */
  lemma CacheAgreement(cfg: C.Timing, rows: Table, gauge: Counts, labels: seq<Label>)
    ensures var s := Exec(cfg, Initially(rows, gauge), labels);
            s.service.Ready? && Settled(s) ==>
              && s.gauge == CountRows(s.rows)
              && s.gauge.present == |set id | id in s.rows && s.rows[id].Live?|
              && s.gauge.revoked == |set id | id in s.rows && s.rows[id] == Row.Revoked|
  {
    ExecKeepsInv(cfg, Initially(rows, gauge), labels);
    var s := Exec(cfg, Initially(rows, gauge), labels);
    assert LiveIds(s.rows) == set id | id in s.rows && s.rows[id].Live?;
    assert NullIds(s.rows) == set id | id in s.rows && s.rows[id] == Row.Revoked;
  }

  /** And as long as the gauge is wrong while the service is up, a refresh is owed: a writer
      has yet to ask, the worker has yet to handle a request, or it is refreshing. */
  lemma WrongGaugeIsTemporary(cfg: C.Timing, rows: Table, gauge: Counts, labels: seq<Label>)
    ensures var s := Exec(cfg, Initially(rows, gauge), labels);
            s.service.Ready? && s.gauge != CountRows(s.rows) ==>
              || s.writers > 0
              || s.worker.fields.generation > s.worker.fields.handled
              || P.Worker(s.worker).Launching?
              || (P.Worker(s.worker).Running? && !s.refresh.Finished?)
  {
    ExecKeepsInv(cfg, Initially(rows, gauge), labels);
  }

  // ----- what the gauge says about grants

  lemma InsertCounted(rows: Table, id: ClientId, cipher: Cipher)
    requires id !in rows
    ensures var before, after := CountRows(rows), CountRows(rows[id := Live(cipher)]);
            after.present == before.present + 1 && after.revoked == before.revoked
  {
    var t := rows[id := Live(cipher)];
    assert LiveIds(t) == LiveIds(rows) + {id};
    assert NullIds(t) == NullIds(rows);
  }

  lemma RevocationCounted(rows: Table, id: ClientId)
    requires id in rows && rows[id].Live?
    ensures var before, after := CountRows(rows), CountRows(rows[id := Row.Revoked]);
            after.present == before.present - 1 && after.revoked == before.revoked + 1
  {
    var t := rows[id := Row.Revoked];
    assert LiveIds(t) == LiveIds(rows) - {id};
    assert NullIds(t) == NullIds(rows) + {id};
  }

  lemma RotationNotCounted(rows: Table, id: ClientId, cipher: Cipher)
    requires id in rows && rows[id].Live?
    ensures CountRows(rows[id := Live(cipher)]) == CountRows(rows)
  {
    var t := rows[id := Live(cipher)];
    assert LiveIds(t) == LiveIds(rows);
    assert NullIds(t) == NullIds(rows);
  }

  predicate Writes(l: Label) { l.CommitInsert? || l.CommitUpdate? }

  lemma {:induction false} RowsUnwritten(cfg: C.Timing, s: State, labels: seq<Label>)
    requires forall k :: 0 <= k < |labels| ==> !Writes(labels[k])
    ensures Exec(cfg, s, labels).rows == s.rows
    decreases |labels|
  {
    if labels != [] {
      assert !Writes(labels[0]);
      RowsUnwritten(cfg, Step(cfg, s, labels[0]), labels[1..]);
    }
  }

  lemma {:induction false} ExecSplits(cfg: C.Timing, s: State, first: seq<Label>, second: seq<Label>)
    ensures Exec(cfg, s, first + second) == Exec(cfg, Exec(cfg, s, first), second)
    decreases |first|
  {
    var run, step := (x: State, ls: seq<Label>) => Exec(cfg, x, ls), (x: State, l: Label) => Step(cfg, x, l);
    forall x: State, l: Label, rest: seq<Label> ensures run(x, [l] + rest) == run(step(x, l), rest) {
      assert ([l] + rest)[1..] == rest;
    }
    Join(run, step, s, first, second);
  }

  /** From one settled gauge to the next over a single write: a new grant adds one to the
      present ones, a revocation moves one from the present to the revoked, and a rotation
      changes nothing. */
  lemma SettledGaugeFollowsWrite(cfg: C.Timing, rows: Table, gauge: Counts, before: seq<Label>,
                                 l: Label, after: seq<Label>)
    requires Writes(l) && forall k :: 0 <= k < |after| ==> !Writes(after[k])
    ensures var s := Exec(cfg, Initially(rows, gauge), before);
            var t := Exec(cfg, Initially(rows, gauge), before + ([l] + after));
            s.service.Ready? && Settled(s) && t.service.Ready? && Settled(t) ==>
              match l
              case CommitInsert(id, _) =>
                id !in s.rows ==> t.gauge.present == s.gauge.present + 1 && t.gauge.revoked == s.gauge.revoked
              case CommitUpdate(id, row) =>
                id in s.rows && s.rows[id].Live? ==>
                  if row == Row.Revoked
                  then t.gauge.present == s.gauge.present - 1 && t.gauge.revoked == s.gauge.revoked + 1
                  else t.gauge == s.gauge
  {
    var s := Exec(cfg, Initially(rows, gauge), before);
    CacheAgreement(cfg, rows, gauge, before);
    CacheAgreement(cfg, rows, gauge, before + ([l] + after));
    ExecSplits(cfg, Initially(rows, gauge), before, [l] + after);
    assert ([l] + after)[1..] == after;
    RowsUnwritten(cfg, Step(cfg, s, l), after);
    WriteCounted(cfg, s, l);
  }

  lemma WriteCounted(cfg: C.Timing, s: State, l: Label)
    requires Writes(l)
    ensures var before, after := CountRows(s.rows), CountRows(Step(cfg, s, l).rows);
            match l
            case CommitInsert(id, _) =>
              id !in s.rows ==> after.present == before.present + 1 && after.revoked == before.revoked
            case CommitUpdate(id, row) =>
              id in s.rows && s.rows[id].Live? ==>
                if row == Row.Revoked
                then after.present == before.present - 1 && after.revoked == before.revoked + 1
                else after == before
  {
    match l
    case CommitInsert(id, cipher) => if id !in s.rows { InsertCounted(s.rows, id, cipher); }
    case CommitUpdate(id, row) =>
      if id in s.rows && s.rows[id].Live? {
        match row
        case Revoked => RevocationCounted(s.rows, id);
        case Live(cipher) => RotationNotCounted(s.rows, id, cipher);
      }
  }

  /** Grants that a run adds to the table. */
  function Granted(cfg: C.Timing, s: State, labels: seq<Label>): nat
    decreases |labels|
  {
    if labels == [] then 0
    else (if labels[0].CommitInsert? && labels[0].id !in s.rows then 1 else 0)
         + Granted(cfg, Step(cfg, s, labels[0]), labels[1..])
  }

  lemma {:induction false} GrantsAreRows(cfg: C.Timing, s: State, labels: seq<Label>)
    ensures |Exec(cfg, s, labels).rows| == |s.rows| + Granted(cfg, s, labels)
    decreases |labels|
  {
    if labels != [] {
      RowAdded(cfg, s, labels[0]);
      GrantsAreRows(cfg, Step(cfg, s, labels[0]), labels[1..]);
    }
  }

  lemma RowAdded(cfg: C.Timing, s: State, l: Label)
    ensures |Step(cfg, s, l).rows| == |s.rows| + if l.CommitInsert? && l.id !in s.rows then 1 else 0
  {
    var t := Step(cfg, s, l);
    if l.CommitInsert? && l.id !in s.rows {
      assert t.rows.Keys == s.rows.Keys + {l.id};
    } else {
      assert t.rows.Keys == s.rows.Keys;
    }
    assert |t.rows.Keys| == |t.rows| && |s.rows.Keys| == |s.rows|;
  }

  /** So, from the empty table, n grants of which r are null now settle at n - r present and r
      revoked. */
  lemma SettledGaugeCountsGrants(cfg: C.Timing, gauge: Counts, labels: seq<Label>)
    ensures var s := Exec(cfg, Initially(map[], gauge), labels);
            var n := Granted(cfg, Initially(map[], gauge), labels);
            var r := |set id | id in s.rows && s.rows[id] == Row.Revoked|;
            s.service.Ready? && Settled(s) ==> s.gauge.present == n - r && s.gauge.revoked == r
  {
    CacheAgreement(cfg, map[], gauge, labels);
    GrantsAreRows(cfg, Initially(map[], gauge), labels);
    CountsPartition(Exec(cfg, Initially(map[], gauge), labels).rows);
  }
}
