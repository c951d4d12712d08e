/** The order of replies and writes when handlers of one client overlap: exactly when the
    handlers in flight leave the row as the newest reply called for, as long as new readers
    come one at a time. Between reading a row and writing it nothing locks it. */
module GrantOrder {
  import opened Wrappers
  import opened JsonValues
  import opened Outcome
  import opened Crypto
  import opened TokenEndpoint
  import opened Grants
  import opened Runs

  // ----- the newest verdict

  /** The row a reply calls for, if it calls for a write. */
  function VerdictRow(cfg: Config, secret: string, reply: RefreshReply): Option<Row> {
    var write := Conclude(cfg, reply.sent, reply.body).write;
    if write.Keep? then None else Some(RowOf(secret, write))
  }

  /** The row the newest of the client's replies that called for a write called for; the row
      as issued if there is none. */
  function NewestRow(cfg: Config, g: Grant, id: ClientId, replies: seq<RefreshReply>): Row {
    if replies == [] then Live(Seal(g.secret, g.record))
    else
      var last, earlier := replies[|replies| - 1], replies[..|replies| - 1];
      if last.id == id
      then VerdictRow(cfg, g.secret, last).GetOr(NewestRow(cfg, g, id, earlier))
      else NewestRow(cfg, g, id, earlier)
  }

  function Newest(cfg: Config, s: State, id: ClientId): Row
    requires id in s.issued
  {
    NewestRow(cfg, s.issued[id], id, s.replies)
  }

  // ----- who holds what

  /** The refreshable record a handler has read and may still write a verdict on. */
  function Snapshot(h: Handler): Option<Body> {
    match h
    case Loaded(_, secret, c) =>
      if Open(secret, c).Some? && RefreshToken in Open(secret, c).value then Open(secret, c) else None
    case Refreshing(_, _, record) => Some(record)
    case Updating(_, _, record, _, _) => Some(record)
    case _ => None
  }

  predicate Holds(s: State, k: int, id: ClientId) {
    0 <= k < |s.handlers| && s.handlers[k].id == id && Snapshot(s.handlers[k]).Some?
  }

  /** It has its verdict and is about to write it. */
  predicate Pending(s: State, k: int, id: ClientId) {
    Holds(s, k, id) && s.handlers[k].Updating?
  }

  predicate Idle(s: State, id: ClientId) { forall k :: 0 <= k < |s.handlers| ==> !Holds(s, k, id) }

  predicate NonePending(s: State, id: ClientId) { forall k :: 0 <= k < |s.handlers| ==> !Pending(s, k, id) }

  /** The row is read only while nobody else holds a snapshot of it. */
  predicate SerialStep(s: State, l: Label, id: ClientId) {
    l.Lookup? && l.k < |s.handlers| && s.handlers[l.k].Requested? && s.handlers[l.k].id == id ==> Idle(s, id)
  }

  predicate Serial(cfg: Config, s: State, labels: seq<Label>, id: ClientId)
    decreases |labels|
  {
    labels == [] || (SerialStep(s, labels[0], id) && Serial(cfg, Step(cfg, s, labels[0]), labels[1..], id))
  }

  /** The run leads from s to t, with serial reads. */
  predicate Leads(cfg: Config, s: State, labels: seq<Label>, t: State, id: ClientId) {
    Exec(cfg, s, labels) == t && Serial(cfg, s, labels, id)
  }

  lemma LeadsNext(cfg: Config, s: State, l: Label, rest: seq<Label>, t: State, id: ClientId)
    requires SerialStep(s, l, id) && Leads(cfg, Step(cfg, s, l), rest, t, id)
    ensures Leads(cfg, s, [l] + rest, t, id)
  {
    var labels := [l] + rest;
    assert labels[0] == l && labels[1..] == rest;
  }

  lemma SerialJoin(cfg: Config, s: State, first: seq<Label>, second: seq<Label>, id: ClientId)
    ensures Serial(cfg, s, first + second, id)
            == (Serial(cfg, s, first, id) && Serial(cfg, Exec(cfg, s, first), second, id))
  {
    var run, step := (x: State, ls: seq<Label>) => Exec(cfg, x, ls), (x: State, l: Label) => Step(cfg, x, l);
    var guard, ok := (x: State, ls: seq<Label>) => Serial(cfg, x, ls, id), (x: State, l: Label) => SerialStep(x, l, id);
    forall x: State, l: Label, rest: seq<Label>
      ensures run(x, [l] + rest) == run(step(x, l), rest)
      ensures guard(x, [l] + rest) == (ok(x, l) && guard(step(x, l), rest))
    {
      assert ([l] + rest)[1..] == rest;
    }
    JoinGuarded(run, step, guard, ok, s, first, second);
  }

  lemma LeadsJoin(cfg: Config, s: State, first: seq<Label>, t: State, second: seq<Label>, u: State, id: ClientId)
    requires Leads(cfg, s, first, t, id) && Leads(cfg, t, second, u, id)
    ensures Leads(cfg, s, first + second, u, id)
  {
    ExecJoin(cfg, s, first, second);
    SerialJoin(cfg, s, first, second, id);
  }

  // ----- one handler moves

  /** Only handler k of the client moved on; the issued grants are as they were. */
  predicate OnlyMoved(s: State, t: State, k: nat, id: ClientId) {
    && k < |s.handlers| == |t.handlers|
    && (forall j :: 0 <= j < |s.handlers| && j != k ==> t.handlers[j] == s.handlers[j])
    && t.handlers[k].id == s.handlers[k].id == id
    && t.issued == s.issued && t.rows.Keys == s.rows.Keys
  }

  lemma DecryptStep(cfg: Config, s: State, k: nat, id: ClientId)
    requires Inv(cfg, s) && Holds(s, k, id) && s.handlers[k].Loaded?
    ensures var t := Step(cfg, s, Decrypt(k));
            && Inv(cfg, t) && OnlyMoved(s, t, k, id) && t.rows == s.rows && t.replies == s.replies
            && t.handlers[k] == Refreshing(id, s.handlers[k].secret, Snapshot(s.handlers[k]).value)
            && SerialStep(s, Decrypt(k), id)
  {
    StepKeepsInv(cfg, s, Decrypt(k));
  }

  lemma RefreshedStep(cfg: Config, s: State, k: nat, id: ClientId, result: Body)
    requires Inv(cfg, s) && Holds(s, k, id) && s.handlers[k].Refreshing?
    ensures var h, t := s.handlers[k], Step(cfg, s, Refreshed(k, result));
            var verdict := VerdictRow(cfg, h.secret, RefreshReply(id, h.record, result));
            && Inv(cfg, t) && OnlyMoved(s, t, k, id) && t.rows == s.rows && id in s.issued
            && Newest(cfg, t, id) == verdict.GetOr(Newest(cfg, s, id))
            && (verdict.None? ==> t.handlers[k].Answered?)
            && (verdict.Some? ==> t.handlers[k] == Updating(id, h.secret, h.record, result, verdict.value))
            && SerialStep(s, Refreshed(k, result), id)
  {
    var t := Step(cfg, s, Refreshed(k, result));
    StepKeepsInv(cfg, s, Refreshed(k, result));
    assert HandlerOk(cfg, s, s.handlers[k]);
    assert t.replies[..|s.replies|] == s.replies;
  }

  lemma UpdateStep(cfg: Config, s: State, k: nat, id: ClientId)
    requires Inv(cfg, s) && Pending(s, k, id)
    ensures var t := Step(cfg, s, Update(k));
            && Inv(cfg, t) && OnlyMoved(s, t, k, id) && t.replies == s.replies && id in s.issued && id in s.rows
            && t.rows == s.rows[id := s.handlers[k].row] && t.handlers[k].Answered?
            && SerialStep(s, Update(k), id)
  {
    StepKeepsInv(cfg, s, Update(k));
    assert HandlerOk(cfg, s, s.handlers[k]);
  }

  // ----- the newest reply

  /** Everything pending is the newest verdict; if nothing is pending, the row is; and a
      handler that may still refresh is the only one that holds a snapshot. */
  predicate Orderly(cfg: Config, s: State, id: ClientId) {
    && id in s.issued && id in s.rows
    && (forall k :: 0 <= k < |s.handlers| && Pending(s, k, id) ==> s.handlers[k].row == Newest(cfg, s, id))
    && (NonePending(s, id) ==> s.rows[id] == Newest(cfg, s, id))
    && (forall j, k :: 0 <= j < |s.handlers| && 0 <= k < |s.handlers| ==>
          j != k && Holds(s, j, id) && !Pending(s, j, id) ==> !Holds(s, k, id))
  }

  /** Steps of other clients' handlers, and steps that touch no snapshot. */
  predicate Unconcerned(s: State, l: Label, id: ClientId) {
    match l
    case Lookup(k, _) => k < |s.handlers| ==> s.handlers[k].id != id || !s.handlers[k].Requested?
    case Decrypt(k) => Holds(s, k, id) ==> !s.handlers[k].Loaded?
    case Refreshed(k, _) => Holds(s, k, id) ==> !s.handlers[k].Refreshing?
    case Update(k) => !Pending(s, k, id)
    case _ => true
  }

  /** What such a step leaves alone: the client's row, grant, newest verdict and snapshots. */
  predicate Untouched(cfg: Config, s: State, t: State, id: ClientId) {
    && id in s.rows && id in t.rows && t.rows[id] == s.rows[id]
    && id in s.issued && id in t.issued && Newest(cfg, t, id) == Newest(cfg, s, id)
    && |s.handlers| <= |t.handlers|
    && (forall k :: 0 <= k < |t.handlers| ==>
          (k < |s.handlers| && t.handlers[k] == s.handlers[k]) || (!Holds(t, k, id) && !Holds(s, k, id)))
  }

  lemma UnconcernedRow(cfg: Config, s: State, l: Label, id: ClientId)
    requires Inv(cfg, s) && id in s.rows && Unconcerned(s, l, id)
    ensures var t := Step(cfg, s, l);
            && id in t.rows && t.rows[id] == s.rows[id] && id in s.issued && id in t.issued
            && t.issued[id] == s.issued[id]
            && (t.replies == s.replies
                || (|t.replies| == |s.replies| + 1 && t.replies[..|s.replies|] == s.replies
                    && t.replies[|s.replies|].id != id))
  {
  }

  lemma UnconcernedHandlers(cfg: Config, s: State, l: Label, id: ClientId)
    requires Unconcerned(s, l, id)
    ensures var t := Step(cfg, s, l);
            && |s.handlers| <= |t.handlers|
            && (forall k :: 0 <= k < |t.handlers| ==>
                  (k < |s.handlers| && t.handlers[k] == s.handlers[k]) || (!Holds(t, k, id) && !Holds(s, k, id)))
  {
  }

  lemma UnconcernedStep(cfg: Config, s: State, l: Label, id: ClientId)
    requires Inv(cfg, s) && id in s.rows && Unconcerned(s, l, id)
    ensures Untouched(cfg, s, Step(cfg, s, l), id)
  {
    UnconcernedRow(cfg, s, l, id);
    UnconcernedHandlers(cfg, s, l, id);
  }

  lemma UntouchedStaysOrderly(cfg: Config, s: State, t: State, id: ClientId)
    requires Orderly(cfg, s, id) && Untouched(cfg, s, t, id)
    ensures Orderly(cfg, t, id)
  {
    forall k | 0 <= k < |s.handlers|
      ensures Holds(s, k, id) == Holds(t, k, id) && Pending(s, k, id) == Pending(t, k, id)
    {
      assert k < |t.handlers|;
    }
    forall k | |s.handlers| <= k < |t.handlers| ensures !Holds(t, k, id) && !Pending(t, k, id) {}
    if NonePending(t, id) {
      assert NonePending(s, id);
    }
  }

  lemma LookupStaysOrderly(cfg: Config, s: State, l: Label, id: ClientId)
    requires Inv(cfg, s) && Orderly(cfg, s, id) && l.Lookup? && Idle(s, id)
    requires l.k < |s.handlers| && s.handlers[l.k].id == id && s.handlers[l.k].Requested?
    ensures Orderly(cfg, Step(cfg, s, l), id)
  {
    var t := Step(cfg, s, l);
    assert t.replies == s.replies && t.issued == s.issued && t.rows == s.rows;
    forall j | 0 <= j < |t.handlers| && j != l.k ensures !Holds(t, j, id) {
      assert !Holds(s, j, id);
    }
  }

  /** The one handler that could still refresh moves on. */
  lemma ReaderMoved(cfg: Config, s: State, t: State, k: nat, id: ClientId)
    requires Orderly(cfg, s, id) && Holds(s, k, id) && !Pending(s, k, id)
    requires OnlyMoved(s, t, k, id) && t.rows[id] == s.rows[id]
    requires if Pending(t, k, id) then t.handlers[k].row == Newest(cfg, t, id)
             else Newest(cfg, t, id) == Newest(cfg, s, id)
    ensures Orderly(cfg, t, id)
  {
    forall j | 0 <= j < |t.handlers| && j != k ensures !Holds(s, j, id) && !Holds(t, j, id) {}
    assert NonePending(s, id);
    assert NonePending(t, id) ==> !Pending(t, k, id);
  }

  /** A pending verdict has been written. */
  lemma WriterMoved(cfg: Config, s: State, t: State, k: nat, id: ClientId)
    requires Orderly(cfg, s, id) && Pending(s, k, id) && !Holds(t, k, id)
    requires OnlyMoved(s, t, k, id) && t.rows[id] == s.handlers[k].row && Newest(cfg, t, id) == Newest(cfg, s, id)
    ensures Orderly(cfg, t, id)
  {
    forall j | 0 <= j < |t.handlers| && j != k
      ensures Holds(t, j, id) == Holds(s, j, id) && Pending(t, j, id) == Pending(s, j, id)
    {
    }
  }

  lemma DecryptStaysOrderly(cfg: Config, s: State, k: nat, id: ClientId)
    requires Inv(cfg, s) && Orderly(cfg, s, id) && Holds(s, k, id) && s.handlers[k].Loaded?
    ensures Orderly(cfg, Step(cfg, s, Decrypt(k)), id)
  {
    DecryptStep(cfg, s, k, id);
    ReaderMoved(cfg, s, Step(cfg, s, Decrypt(k)), k, id);
  }

  lemma RefreshedStaysOrderly(cfg: Config, s: State, k: nat, result: Body, id: ClientId)
    requires Inv(cfg, s) && Orderly(cfg, s, id) && Holds(s, k, id) && s.handlers[k].Refreshing?
    ensures Orderly(cfg, Step(cfg, s, Refreshed(k, result)), id)
  {
    RefreshedStep(cfg, s, k, id, result);
    ReaderMoved(cfg, s, Step(cfg, s, Refreshed(k, result)), k, id);
  }

  lemma UpdateStaysOrderly(cfg: Config, s: State, k: nat, id: ClientId)
    requires Inv(cfg, s) && Orderly(cfg, s, id) && Pending(s, k, id)
    ensures Orderly(cfg, Step(cfg, s, Update(k)), id)
  {
    UpdateStep(cfg, s, k, id);
    WriterMoved(cfg, s, Step(cfg, s, Update(k)), k, id);
  }

  lemma StepStaysOrderly(cfg: Config, s: State, l: Label, id: ClientId)
    requires Inv(cfg, s) && Orderly(cfg, s, id) && SerialStep(s, l, id)
    ensures Orderly(cfg, Step(cfg, s, l), id)
  {
    if Unconcerned(s, l, id) {
      UnconcernedStep(cfg, s, l, id);
      UntouchedStaysOrderly(cfg, s, Step(cfg, s, l), id);
    } else {
      match l
      case Lookup(_, _) => LookupStaysOrderly(cfg, s, l, id);
      case Decrypt(k) => DecryptStaysOrderly(cfg, s, k, id);
      case Refreshed(k, result) => RefreshedStaysOrderly(cfg, s, k, result, id);
      case Update(k) => UpdateStaysOrderly(cfg, s, k, id);
    }
  }

  lemma {:induction false} RunStaysOrderly(cfg: Config, s: State, labels: seq<Label>, id: ClientId)
    requires Inv(cfg, s) && Orderly(cfg, s, id) && Serial(cfg, s, labels, id)
    ensures Orderly(cfg, Exec(cfg, s, labels), id)
    decreases |labels|
  {
    if labels != [] {
      StepStaysOrderly(cfg, s, labels[0], id);
      StepKeepsInv(cfg, s, labels[0]);
      RunStaysOrderly(cfg, Step(cfg, s, labels[0]), labels[1..], id);
    }
  }

  // ----- ways into disorder

  /** A reply that rotates the token away from the given one and calls for another row. */
  function RotationFrom(current: Json, avoid: Row): Body {
    var taken := if avoid.Live? then Get(avoid.cipher.plain, RefreshToken) else Null;
    var token := if Number(1) != current && Number(1) != taken then Number(1)
                 else if Number(2) != current && Number(2) != taken then Number(2)
                 else Number(3);
    map[AccessToken := Number(1), TokenType := Number(1), RefreshToken := token]
  }

  lemma RotationVerdict(cfg: Config, secret: string, id: ClientId, record: Body, avoid: Row)
    requires RefreshToken in record && record.Keys !! SCRUBBED
    ensures var reply := RefreshReply(id, record, RotationFrom(record[RefreshToken], avoid));
            VerdictRow(cfg, secret, reply).Some? && VerdictRow(cfg, secret, reply).value != avoid
  {
    WritesOnlyRotations(cfg, record, RotationFrom(record[RefreshToken], avoid));
  }

  /** A handler that may still refresh can come to hold the newest verdict, other than the
      given row. */
  lemma Rotate(cfg: Config, s: State, k: nat, id: ClientId, avoid: Row) returns (labels: seq<Label>, t: State)
    requires Inv(cfg, s) && Holds(s, k, id) && !Pending(s, k, id)
    ensures Leads(cfg, s, labels, t, id) && Inv(cfg, t) && OnlyMoved(s, t, k, id) && t.rows == s.rows
    ensures Pending(t, k, id) && Snapshot(t.handlers[k]) == Snapshot(s.handlers[k])
    ensures id in t.issued && t.handlers[k].row == Newest(cfg, t, id) && t.handlers[k].row != avoid
    decreases s.handlers[k].Loaded?
  {
    var h := s.handlers[k];
    assert HandlerOk(cfg, s, h);
    if h.Loaded? {
      DecryptStep(cfg, s, k, id);
      var rest;
      rest, t := Rotate(cfg, Step(cfg, s, Decrypt(k)), k, id, avoid);
      LeadsNext(cfg, s, Decrypt(k), rest, t, id);
      labels := [Decrypt(k)] + rest;
    } else {
      var result := RotationFrom(h.record[RefreshToken], avoid);
      SnapshotScrubbed(s, id, h.secret, h.record);
      RotationVerdict(cfg, h.secret, id, h.record, avoid);
      RefreshedStep(cfg, s, k, id, result);
      t := Step(cfg, s, Refreshed(k, result));
      LeadsNext(cfg, s, Refreshed(k, result), [], t, id);
      labels := [Refreshed(k, result)] + [];
    }
  }

  lemma EmptyReplyKeeps(cfg: Config, secret: string, reply: RefreshReply)
    requires reply.body == map[]
    ensures VerdictRow(cfg, secret, reply) == None
  {
  }

  /** With nothing pending, the handlers among the first n can all give up. */
  lemma Drain(cfg: Config, s: State, id: ClientId, n: nat) returns (labels: seq<Label>, t: State)
    requires Inv(cfg, s) && id in s.rows && NonePending(s, id) && n <= |s.handlers|
    requires forall k :: n <= k < |s.handlers| ==> !Holds(s, k, id)
    ensures Leads(cfg, s, labels, t, id) && Idle(t, id)
    ensures id in s.issued && t.issued == s.issued && t.rows == s.rows && Newest(cfg, t, id) == Newest(cfg, s, id)
    decreases n, n > 0 && s.handlers[n - 1].Loaded?
  {
    if n == 0 {
      labels, t := [], s;
    } else if !Holds(s, n - 1, id) {
      labels, t := Drain(cfg, s, id, n - 1);
    } else {
      var k, rest := n - 1, [];
      if s.handlers[k].Loaded? {
        DecryptStep(cfg, s, k, id);
        var next := Step(cfg, s, Decrypt(k));
        StillNonePending(s, next, k, id);
        rest, t := Drain(cfg, next, id, n);
        LeadsNext(cfg, s, Decrypt(k), rest, t, id);
        labels := [Decrypt(k)] + rest;
      } else {
        assert !Pending(s, k, id);
        RefreshedStep(cfg, s, k, id, map[]);
        EmptyReplyKeeps(cfg, s.handlers[k].secret, RefreshReply(id, s.handlers[k].record, map[]));
        var next := Step(cfg, s, Refreshed(k, map[]));
        StillNonePending(s, next, k, id);
        rest, t := Drain(cfg, next, id, n - 1);
        LeadsNext(cfg, s, Refreshed(k, map[]), rest, t, id);
        labels := [Refreshed(k, map[])] + rest;
      }
    }
  }

  lemma StillNonePending(s: State, t: State, k: nat, id: ClientId)
    requires NonePending(s, id) && OnlyMoved(s, t, k, id) && !Pending(t, k, id)
    ensures NonePending(t, id)
    ensures forall j :: 0 <= j < |t.handlers| && j != k && !Holds(s, j, id) ==> !Holds(t, j, id)
  {
    forall j | 0 <= j < |t.handlers| ensures !Pending(t, j, id) {
      if j != k { assert !Pending(s, j, id); }
    }
  }

  /** At most one verdict, that of handler `last`, is pending among the handlers from n on. */
  predicate FlushedFrom(s: State, n: nat, last: nat, id: ClientId) {
    forall k :: n <= k < |s.handlers| && k != last ==> !Pending(s, k, id)
  }

  lemma FlushedFurther(s: State, t: State, n: nat, last: nat, id: ClientId)
    requires FlushedFrom(s, n + 1, last, id) && OnlyMoved(s, t, n, id) && t.handlers[n].Answered?
    ensures FlushedFrom(t, n, last, id)
  {
    forall k | n <= k < |t.handlers| && k != last ensures !Pending(t, k, id) {
      if k != n { assert !Pending(s, k, id); }
    }
  }

  lemma FlushOne(cfg: Config, s: State, id: ClientId, k: nat, last: nat) returns (t: State)
    requires Inv(cfg, s) && Pending(s, k, id) && Pending(s, last, id) && k != last && FlushedFrom(s, k + 1, last, id)
    ensures Leads(cfg, s, [Update(k)], t, id) && Inv(cfg, t) && FlushedFrom(t, k, last, id)
    ensures |t.handlers| == |s.handlers| && t.handlers[last] == s.handlers[last]
    ensures t.issued == s.issued && t.replies == s.replies
  {
    UpdateStep(cfg, s, k, id);
    t := Step(cfg, s, Update(k));
    FlushedFurther(s, t, k, last, id);
    LeadsNext(cfg, s, Update(k), [], t, id);
    assert [Update(k)] == [Update(k)] + [];
  }

  /** Pending verdicts among the first n can be written, keeping one for last. */
  lemma Flush(cfg: Config, s: State, id: ClientId, n: nat, last: nat) returns (labels: seq<Label>, t: State)
    requires Inv(cfg, s) && n <= |s.handlers| && Pending(s, last, id) && FlushedFrom(s, n, last, id)
    ensures Leads(cfg, s, labels, t, id) && Inv(cfg, t) && FlushedFrom(t, 0, last, id)
    ensures |t.handlers| == |s.handlers| && t.handlers[last] == s.handlers[last]
    ensures t.issued == s.issued && t.replies == s.replies
    decreases n
  {
    if n == 0 {
      labels, t := [], s;
    } else if n - 1 == last || !Pending(s, n - 1, id) {
      labels, t := Flush(cfg, s, id, n - 1, last);
    } else {
      var next := FlushOne(cfg, s, id, n - 1, last);
      var rest;
      rest, t := Flush(cfg, next, id, n - 1, last);
      LeadsJoin(cfg, s, [Update(n - 1)], next, rest, t, id);
      labels := [Update(n - 1)] + rest;
    }
  }

  /** The run ends with nobody holding a snapshot and the row not the newest verdict. */
  predicate EndsStale(cfg: Config, s: State, labels: seq<Label>, id: ClientId) {
    var t := Exec(cfg, s, labels);
    Serial(cfg, s, labels, id) && Idle(t, id) && id in t.rows && id in t.issued && t.rows[id] != Newest(cfg, t, id)
  }

  lemma WrongRowStays(cfg: Config, s: State, id: ClientId) returns (labels: seq<Label>)
    requires Inv(cfg, s) && id in s.rows && NonePending(s, id) && s.rows[id] != Newest(cfg, s, id)
    ensures EndsStale(cfg, s, labels, id)
  {
    var t;
    labels, t := Drain(cfg, s, id, |s.handlers|);
  }

  lemma OldVerdictLandsLast(cfg: Config, s: State, id: ClientId, last: nat) returns (labels: seq<Label>)
    requires Inv(cfg, s) && Pending(s, last, id) && id in s.issued && s.handlers[last].row != Newest(cfg, s, id)
    ensures EndsStale(cfg, s, labels, id)
  {
    var first, t := Flush(cfg, s, id, |s.handlers|, last);
    UpdateStep(cfg, t, last, id);
    var u := Step(cfg, t, Update(last));
    forall k | 0 <= k < |u.handlers| ensures !Pending(u, k, id) {
      assert k != last ==> k >= 0 && !Pending(t, k, id);
    }
    var second := WrongRowStays(cfg, u, id);
    var v := Exec(cfg, u, second);
    LeadsNext(cfg, t, Update(last), second, v, id);
    LeadsJoin(cfg, s, first, t, [Update(last)] + second, v, id);
    labels := first + ([Update(last)] + second);
  }

  lemma ReaderOvertakes(cfg: Config, s: State, id: ClientId, reader: nat, writer: nat) returns (labels: seq<Label>)
    requires Inv(cfg, s) && Holds(s, reader, id) && !Pending(s, reader, id) && Pending(s, writer, id)
    ensures EndsStale(cfg, s, labels, id)
  {
    var first, t := Rotate(cfg, s, reader, id, s.handlers[writer].row);
    assert t.handlers[writer] == s.handlers[writer];
    var second := OldVerdictLandsLast(cfg, t, id, writer);
    LeadsJoin(cfg, s, first, t, second, Exec(cfg, t, second), id);
    labels := first + second;
  }

  lemma TwoReadersRace(cfg: Config, s: State, id: ClientId, j: nat, k: nat) returns (labels: seq<Label>)
    requires Inv(cfg, s) && j != k && Holds(s, j, id) && !Pending(s, j, id) && Holds(s, k, id) && !Pending(s, k, id)
    ensures EndsStale(cfg, s, labels, id)
  {
    var first, t := Rotate(cfg, s, j, id, Row.Revoked);
    assert t.handlers[k] == s.handlers[k];
    var second := ReaderOvertakes(cfg, t, id, k, j);
    LeadsJoin(cfg, s, first, t, second, Exec(cfg, t, second), id);
    labels := first + second;
  }

  lemma DisorderEndsStale(cfg: Config, s: State, id: ClientId) returns (labels: seq<Label>)
    requires Inv(cfg, s) && id in s.rows && !Orderly(cfg, s, id)
    ensures EndsStale(cfg, s, labels, id)
  {
    if k :| 0 <= k < |s.handlers| && Pending(s, k, id) && s.handlers[k].row != Newest(cfg, s, id) {
      labels := OldVerdictLandsLast(cfg, s, id, k);
    } else if NonePending(s, id) && s.rows[id] != Newest(cfg, s, id) {
      labels := WrongRowStays(cfg, s, id);
    } else {
      var j, k :| 0 <= j < |s.handlers| && 0 <= k < |s.handlers| && j != k
                  && Holds(s, j, id) && !Pending(s, j, id) && Holds(s, k, id);
      if Pending(s, k, id) {
        labels := ReaderOvertakes(cfg, s, id, j, k);
      } else {
        labels := TwoReadersRace(cfg, s, id, j, k);
      }
    }
  }

  // ----- the newest reply wins, exactly

  lemma {:induction false} RowsStay(cfg: Config, s: State, labels: seq<Label>, id: ClientId)
    requires id in s.rows && id in s.issued
    ensures id in Exec(cfg, s, labels).rows && id in Exec(cfg, s, labels).issued
    decreases |labels|
  {
    if labels != [] { RowsStay(cfg, Step(cfg, s, labels[0]), labels[1..], id); }
  }

  ghost predicate SerialNewestAlwaysWins(cfg: Config, s: State, id: ClientId) {
    forall labels: seq<Label> ::
      var t := Exec(cfg, s, labels);
      id in t.rows && id in t.issued
      && (Serial(cfg, s, labels, id) && Idle(t, id) ==> t.rows[id] == Newest(cfg, t, id))
  }

  /** If new readers come one at a time: however the handlers in flight go on, once they are
      done the row is what the newest reply called for, exactly when all pending verdicts agree
      with it and a handler that may still refresh has the row to itself. */
  lemma SerialNewestWinsExactly(cfg: Config, s: State, id: ClientId)
    requires Inv(cfg, s) && id in s.rows
    ensures SerialNewestAlwaysWins(cfg, s, id) <==> Orderly(cfg, s, id)
  {
    if Orderly(cfg, s, id) {
      forall labels: seq<Label>
        ensures var t := Exec(cfg, s, labels);
                id in t.rows && id in t.issued
                && (Serial(cfg, s, labels, id) && Idle(t, id) ==> t.rows[id] == Newest(cfg, t, id))
      {
        RowsStay(cfg, s, labels, id);
        if Serial(cfg, s, labels, id) { RunStaysOrderly(cfg, s, labels, id); }
      }
    } else {
      var labels := DisorderEndsStale(cfg, s, id);
      var t := Exec(cfg, s, labels);
      assert Idle(t, id) && t.rows[id] != Newest(cfg, t, id);
    }
  }

  predicate AtMostOneHolds(s: State, id: ClientId) {
    forall j, k :: 0 <= j < |s.handlers| && 0 <= k < |s.handlers| ==>
      j != k && Holds(s, j, id) ==> !Holds(s, k, id)
  }

  /** So from a row that is up to date, with nothing pending and new readers one at a time, the
      newest reply always wins exactly when at most one handler has read the row. */
  lemma SerialNewestWinsAmongReadersExactly(cfg: Config, s: State, id: ClientId)
    requires Inv(cfg, s) && id in s.rows && NonePending(s, id)
    requires id in s.issued && s.rows[id] == Newest(cfg, s, id)
    ensures SerialNewestAlwaysWins(cfg, s, id) <==> AtMostOneHolds(s, id)
  {
    SerialNewestWinsExactly(cfg, s, id);
    if Orderly(cfg, s, id) {
      forall j, k | 0 <= j < |s.handlers| && 0 <= k < |s.handlers| && j != k && Holds(s, j, id)
        ensures !Holds(s, k, id)
      {
        assert !Pending(s, j, id);
      }
    }
  }

  /** In every run in which each client's row is read by one handler at a time, the row is
      always what the newest reply called for, or that verdict is about to be written. */
  lemma {:induction false} SerialRefreshesStayOrderly(cfg: Config, s: State, labels: seq<Label>, id: ClientId)
    requires Inv(cfg, s) && id !in s.rows && Serial(cfg, s, labels, id)
    ensures var t := Exec(cfg, s, labels);
            id in t.rows ==> Orderly(cfg, t, id)
    decreases |labels|
  {
    if labels != [] {
      var t := Step(cfg, s, labels[0]);
      StepKeepsInv(cfg, s, labels[0]);
      if id in t.rows {
        IssuedOrderly(cfg, s, labels[0], id);
        RunStaysOrderly(cfg, t, labels[1..], id);
      } else {
        SerialRefreshesStayOrderly(cfg, t, labels[1..], id);
      }
    }
  }

  lemma {:induction false} NoReplyYet(cfg: Config, g: Grant, id: ClientId, replies: seq<RefreshReply>)
    requires forall k :: 0 <= k < |replies| ==> replies[k].id != id
    ensures NewestRow(cfg, g, id, replies) == Live(Seal(g.secret, g.record))
  {
    if replies != [] { NoReplyYet(cfg, g, id, replies[..|replies| - 1]); }
  }

  lemma IssuedIdle(cfg: Config, s: State, l: Label, id: ClientId)
    requires Inv(cfg, s) && id !in s.rows && id in Step(cfg, s, l).rows
    ensures Idle(Step(cfg, s, l), id)
  {
    var t := Step(cfg, s, l);
    assert l.Callback? && t.handlers == s.handlers;
    forall k | 0 <= k < |t.handlers| ensures !Holds(t, k, id) {
      assert HandlerOk(cfg, s, s.handlers[k]);
    }
  }

  lemma IssuedOrderly(cfg: Config, s: State, l: Label, id: ClientId)
    requires Inv(cfg, s) && id !in s.rows && id in Step(cfg, s, l).rows
    ensures Orderly(cfg, Step(cfg, s, l), id)
  {
    var t := Step(cfg, s, l);
    IssuedIdle(cfg, s, l, id);
    assert l.Callback? && t.replies == s.replies;
    NoReplyYet(cfg, t.issued[id], id, t.replies);
  }
}
