/** What a client gets: which exchanges become grants and with what record, who is let in, and
    what is answered without a refresh, in every interleaving. */
module GrantAnswers {
  import opened Wrappers
  import opened Errors
  import opened JsonValues
  import opened Outcome
  import opened Crypto
  import opened TokenEndpoint
  import opened TokenAnswers
  import opened Grants
  import opened GrantProperties

  // ----- the code exchange

  /** An exchange that can become a grant. */
  predicate Acceptable(exchange: Body) {
    Error !in exchange && Truthy(Get(exchange, AccessToken)) && Truthy(Get(exchange, TokenType))
  }

  /** A callback issues a grant exactly for an acceptable exchange and a free id. Without a
      refresh token the whole exchange is stored; with one, all but its access token and what
      goes with it; field by field as the provider sent it. */
  lemma CallbackIssues(cfg: Config, s: State, id: ClientId, secret: string, exchange: Body)
    requires IsKey(secret) && id !in s.rows
    ensures var t := Step(cfg, s, Callback(id, secret, exchange));
            if !Acceptable(exchange) then t == s
            else
              && t.rows.Keys == s.rows.Keys + {id} && (forall j :: j in s.rows ==> t.rows[j] == s.rows[j])
              && t.rows[id].Live? && t.rows[id].cipher.key == secret
              && var record := t.rows[id].cipher.plain;
                 && (RefreshToken !in exchange ==> record == exchange)
                 && (RefreshToken in exchange ==>
                       && record.Keys == exchange.Keys - {AccessToken, ExpiresIn, TokenType}
                       && forall f :: f in record ==> record[f] == exchange[f])
  {
  }

  // ----- requests

  /** A new request is taken in with the secret its text names, or turned away. */
  lemma RequestTaken(cfg: Config, s: State, id: ClientId, presented: string)
    ensures var t, n := Step(cfg, s, Arrive(id, presented)), |s.handlers|;
            && |t.handlers| == n + 1 && t.rows == s.rows
            && if WellFormed(presented)
               then t.handlers[n].Requested? && t.handlers[n].id == id && Spells(presented, t.handlers[n].secret)
               else t.handlers[n] == Answered(id, Failure(401, InvalidClient, None))
  {
    ValidatedSpells(presented);
  }

  /** The row as it is read decides: no client, a revoked grant, or on to its record. */
  lemma LookupAnswers(cfg: Config, s: State, k: nat, workaround: Option<Body>)
    requires k < |s.handlers| && s.handlers[k].Requested?
    ensures var h, t := s.handlers[k], Step(cfg, s, Lookup(k, workaround));
            && t.rows == s.rows && |t.handlers| == |s.handlers|
            && t.handlers[k] == (
                 if h.id !in s.rows then Answered(h.id, Failure(401, InvalidClient, None))
                 else
                   match s.rows[h.id]
                   case Live(c) => Loaded(h.id, h.secret, c)
                   case Revoked =>
                     Answered(h.id, match workaround
                                    case Some(body) => Success(body)
                                    case None => Failure(400, InvalidGrant, None)))
  {
  }

  /** Only the issued secret opens the record; without a refresh token that is the answer. */
  lemma DecryptAnswers(cfg: Config, s: State, k: nat)
    requires Inv(cfg, s) && k < |s.handlers| && s.handlers[k].Loaded?
    ensures var h, t := s.handlers[k], Step(cfg, s, Decrypt(k));
            && h.id in s.issued && t.rows == s.rows && |t.handlers| == |s.handlers|
            && t.handlers[k] == (
                 if h.secret != s.issued[h.id].secret then Answered(h.id, Failure(401, InvalidClient, None))
                 else if RefreshToken in h.cipher.plain then Refreshing(h.id, h.secret, h.cipher.plain)
                 else Answered(h.id, Success(s.issued[h.id].record)))
            && (h.secret != s.issued[h.id].secret ==> t.refreshes == s.refreshes)
  {
    var h := s.handlers[k];
    assert HandlerOk(cfg, s, h);
    var plain, issued := h.cipher.plain, s.issued[h.id].record;
    if RefreshToken !in plain {
      assert plain == plain - {RefreshToken} == issued - {RefreshToken} == issued;
    }
  }

  /** The answer a refreshed request gets: the provider's token, given out; or the error its
      reply means; or, if the reply is neither, a complaint about it. */
  predicate AnswersReply(cfg: Config, record: Body, result: Body, response: Response) {
    if IsToken(result) then response.Success? && GivenOut(result, record, response.body)
    else if Error in result then
      400 !in cfg.retryStatusCodes ==>
        forall e | Means(Str(result[Error]), e, ServerError, cfg.errorTypes) :: Reported(e, response)
    else response == Failure(400, InvalidRequest, None)
  }

  lemma ConclusionAnswers(cfg: Config, record: Body, result: Body)
    ensures AnswersReply(cfg, record, result, Conclude(cfg, record, result).response)
  {
    if IsToken(result) {
      TokenConcluded(cfg, record, result);
    } else if Error in result && 400 !in cfg.retryStatusCodes {
      forall e | Means(Str(result[Error]), e, ServerError, cfg.errorTypes)
        ensures Reported(e, Conclude(cfg, record, result).response)
      {
        ErrorConcluded(cfg, record, result, e);
      }
    }
  }

  /** A handler without a write to make answers its reply at once. */
  lemma ReplyAnswered(cfg: Config, s: State, k: nat, result: Body)
    requires k < |s.handlers| && s.handlers[k].Refreshing?
    ensures var h, t := s.handlers[k], Step(cfg, s, Refreshed(k, result));
            && |t.handlers| == |s.handlers| && t.rows == s.rows
            && (t.handlers[k].Updating? ==> t.handlers[k].record == h.record && t.handlers[k].result == result)
            && (!t.handlers[k].Updating? ==>
                  && t.handlers[k].Answered? && t.handlers[k].id == h.id
                  && AnswersReply(cfg, h.record, result, t.handlers[k].response))
  {
    ConclusionAnswers(cfg, s.handlers[k].record, result);
  }

  /** And one with a write answers it after the write. */
  lemma UpdateAnswered(cfg: Config, s: State, k: nat)
    requires k < |s.handlers| && s.handlers[k].Updating?
    ensures var h, t := s.handlers[k], Step(cfg, s, Update(k));
            && |t.handlers| == |s.handlers| && t.handlers[k].Answered? && t.handlers[k].id == h.id
            && AnswersReply(cfg, h.record, h.result, t.handlers[k].response)
  {
    ConclusionAnswers(cfg, s.handlers[k].record, s.handlers[k].result);
  }

  /** The step gives handler k a token. */
  predicate Serves(cfg: Config, s: State, l: Label, k: nat) {
    var t := Step(cfg, s, l);
    k < |t.handlers| && t.handlers[k].Answered? && t.handlers[k].response.Success?
    && (k < |s.handlers| ==> !s.handlers[k].Answered?)
  }

  /** In every run a token goes out only to a request that came with the secret issued for its
      client; the one exception is the stand-in for a revoked grant, which is not a token of
      anyone's. */
  lemma TokensNeedTheSecret(cfg: Config, before: seq<Label>, l: Label, k: nat)
    ensures var s := Exec(cfg, EMPTY, before);
            Serves(cfg, s, l, k) ==>
              && k < |s.handlers| && s.handlers[k].id in s.issued
              && (|| s.handlers[k].secret == s.issued[s.handlers[k].id].secret
                  || (l.Lookup? && l.k == k && s.handlers[k].id in s.rows && s.rows[s.handlers[k].id] == Row.Revoked
                      && l.workaround.Some?))
  {
    ExecKeepsInv(cfg, EMPTY, before);
    var s := Exec(cfg, EMPTY, before);
    if Serves(cfg, s, l, k) { ServingStep(cfg, s, l, k); }
  }

  lemma ServingStep(cfg: Config, s: State, l: Label, k: nat)
    requires Inv(cfg, s) && Serves(cfg, s, l, k)
    ensures k < |s.handlers| && s.handlers[k].id in s.issued
    ensures || s.handlers[k].secret == s.issued[s.handlers[k].id].secret
            || (l.Lookup? && l.k == k && s.handlers[k].id in s.rows && s.rows[s.handlers[k].id] == Row.Revoked
                && l.workaround.Some?)
  {
    match l
    case Arrive(id, presented) => RequestTaken(cfg, s, id, presented);
    case Lookup(j, workaround) => if k < |s.handlers| && j == k { LookupAnswers(cfg, s, k, workaround); }
    case Decrypt(j) => if k < |s.handlers| && j == k { DecryptAnswers(cfg, s, k); }
    case Refreshed(_, _) => if k < |s.handlers| { assert HandlerOk(cfg, s, s.handlers[k]); }
    case Update(_) => if k < |s.handlers| { assert HandlerOk(cfg, s, s.handlers[k]); }
    case _ =>
  }

  // ----- grants without a refresh token

  lemma UnrefreshedRow(cfg: Config, s: State, labels: seq<Label>, id: ClientId)
    requires Inv(cfg, s) && id in s.rows && id in s.issued && RefreshToken !in s.issued[id].record
    ensures var t := Exec(cfg, s, labels);
            Inv(cfg, t) && id in t.rows && id in t.issued && t.issued[id] == s.issued[id]
            && t.rows[id] == Live(Seal(s.issued[id].secret, s.issued[id].record))
  {
    UnrefreshableRowsNeverChange(cfg, s, labels, id);
    ExecKeepsInv(cfg, s, labels);
    IssuedStays(cfg, s, labels, id);
  }

  lemma {:induction false} IssuedStays(cfg: Config, s: State, labels: seq<Label>, id: ClientId)
    requires Inv(cfg, s) && id in s.issued
    ensures var t := Exec(cfg, s, labels);
            id in t.issued && t.issued[id] == s.issued[id]
    decreases |labels|
  {
    if labels != [] {
      StepExtends(cfg, s, labels[0]);
      StepKeepsInv(cfg, s, labels[0]);
      IssuedStays(cfg, Step(cfg, s, labels[0]), labels[1..], id);
    }
  }

  /** A request for a live row without a refresh token, made under a spelling of its secret. */
  lemma ServedAsStored(cfg: Config, s: State, id: ClientId, presented: string, workaround: Option<Body>)
    requires Inv(cfg, s) && id in s.rows && id in s.issued && RefreshToken !in s.issued[id].record
    requires s.rows[id] == Live(Seal(s.issued[id].secret, s.issued[id].record))
    requires Spells(presented, s.issued[id].secret)
    ensures var n := |s.handlers|;
            var t := Exec(cfg, s, [Arrive(id, presented)] + [Lookup(n, workaround), Decrypt(n)]);
            |t.handlers| == n + 1 && t.handlers[n] == Answered(id, Success(s.issued[id].record))
  {
    var n, secret := |s.handlers|, s.issued[id].secret;
    SecretSpellings(secret, presented);
    var s1 := Step(cfg, s, Arrive(id, presented));
    StepKeepsInv(cfg, s, Arrive(id, presented));
    assert s1.handlers[n] == Requested(id, secret) && s1.rows == s.rows && s1.issued == s.issued;
    var s2 := Step(cfg, s1, Lookup(n, workaround));
    StepKeepsInv(cfg, s1, Lookup(n, workaround));
    LookupAnswers(cfg, s1, n, workaround);
    assert s2.issued == s.issued;
    DecryptAnswers(cfg, s2, n);
    Exec1(cfg, s, Arrive(id, presented));
    ExecTwo(cfg, s1, Lookup(n, workaround), Decrypt(n));
    ExecJoin(cfg, s, [Arrive(id, presented)], [Lookup(n, workaround), Decrypt(n)]);
  }

  /** A grant issued without a refresh token is served as the provider sent it: under every
      spelling of its secret, however much has happened since. */
  lemma ExchangeIsServed(cfg: Config, before: seq<Label>, id: ClientId, secret: string, exchange: Body,
                         between: seq<Label>, presented: string, workaround: Option<Body>)
    requires id !in Exec(cfg, EMPTY, before).rows && IsKey(secret) && Spells(presented, secret)
    requires Acceptable(exchange) && RefreshToken !in exchange
    ensures var s := Step(cfg, Exec(cfg, EMPTY, before), Callback(id, secret, exchange));
            var t := Exec(cfg, s, between);
            var n := |t.handlers|;
            var u := Exec(cfg, t, [Arrive(id, presented)] + [Lookup(n, workaround), Decrypt(n)]);
            |u.handlers| == n + 1 && u.handlers[n] == Answered(id, Success(exchange))
  {
    ExecKeepsInv(cfg, EMPTY, before);
    var first := Exec(cfg, EMPTY, before);
    var s := Step(cfg, first, Callback(id, secret, exchange));
    StepKeepsInv(cfg, first, Callback(id, secret, exchange));
    assert s.issued[id] == Grant(secret, exchange);
    UnrefreshedRow(cfg, s, between, id);
    ServedAsStored(cfg, Exec(cfg, s, between), id, presented, workaround);
  }
}
