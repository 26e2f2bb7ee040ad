/** Which granted messages are accepted, by which grant, and what the grants are afterwards,
    said of the limits, filters and funds alone. */
module AuthzOutcomes {
  import opened Bytes
  import opened Authz

  // ---- one limit ----

  ghost predicate Within(funds: Coins, budget: Coins) {
    forall d :: Amount(funds, d) <= Amount(budget, d)
  }

  /** Calls are left and the budget suffices. A limit on calls alone pays for no funds. */
  ghost predicate Covers(l: Limit, funds: Coins) {
    match l
    case MaxCalls(n) => n > 0 && funds == map[]
    case MaxFunds(a) => Within(funds, a)
    case Combined(n, a) => n > 0 && Within(funds, a)
    case Undefined => false
  }

  /** Nothing is left of a budget. */
  ghost predicate Spends(funds: Coins, budget: Coins) {
    forall d :: Amount(funds, d) == Amount(budget, d)
  }

  /** This message is the last one the limit can pay for: its last call, or its whole budget. */
  ghost predicate LastUse(l: Limit, funds: Coins) {
    match l
    case MaxCalls(n) => n == 1
    case MaxFunds(a) => funds != map[] && Spends(funds, a)
    case Combined(n, a) => n == 1 || Spends(funds, a)
    case Undefined => false
  }

  /** One call less and exactly the funds less. */
  ghost predicate Charged(l: Limit, funds: Coins, rest: Limit) {
    match (l, rest)
    case (MaxCalls(n), MaxCalls(m)) => m == n - 1
    case (MaxFunds(a), MaxFunds(b)) => forall d :: Amount(b, d) == Amount(a, d) - Amount(funds, d)
    case (Combined(n, a), Combined(m, b)) => m == n - 1 && forall d :: Amount(b, d) == Amount(a, d) - Amount(funds, d)
    case _ => false
  }

  lemma SubLeaves(a: Coins, funds: Coins)
    ensures AllLTE(funds, a) <==> Within(funds, a)
    ensures Sub(a, funds).Some? <==> Within(funds, a)
    ensures Sub(a, funds).Some? ==> forall d :: Amount(Sub(a, funds).value, d) == Amount(a, d) - Amount(funds, d)
    ensures Sub(a, funds).Some? ==> (Sub(a, funds).value == map[] <==> Spends(funds, a))
  {
    forall d ensures Sub(a, funds).Some? ==> Amount(Sub(a, funds).value, d) == Amount(a, d) - Amount(funds, d) { SubExact(a, funds, d); }
    if AllLTE(funds, a) {
      forall d ensures Amount(funds, d) <= Amount(a, d) {}
      var rest := Sub(a, funds).value;
      if rest == map[] {
        assert forall d :: Amount(rest, d) == 0;
      } else {
        var d :| d in rest;
        assert Amount(rest, d) > 0;
      }
    } else {
      var d :| d in funds && funds[d] > Amount(a, d);
      assert Amount(funds, d) > Amount(a, d);
    }
  }

  /** A valid limit takes part exactly if it covers the message; then it is dropped on its last
      use, kept if a budget is not touched, and otherwise charged. */
  lemma LimitMeans(l: Limit, funds: Coins)
    requires ValidLimit(l)
    ensures var r := LimitAccept(l, funds);
      && (r.NotAccepted? <==> !Covers(l, funds)) && !r.LimitError?
      && (r.Drop? <==> Covers(l, funds) && LastUse(l, funds))
      && (r.Keep? <==> l.MaxFunds? && funds == map[])
      && (r.Renew? ==> Charged(l, funds, r.limit))
  {
    if l.MaxFunds? || l.Combined? { SubLeaves(l.amounts, funds); }
    if l.MaxFunds? && funds == map[] { assert Within(funds, l.amounts); }
  }

  // ---- the list ----

  /** The grant is for the contract and can pay: its filter decides. */
  ghost predicate Applies(g: Grant, msg: Msg) { g.contract == msg.contract && Covers(g.limit, msg.funds) }

  /** All grants before i are for another contract, cannot pay, or deny the message. */
  ghost predicate PassedOver(gs: seq<Grant>, msg: Msg, i: nat)
    requires i <= |gs|
  {
    forall j | 0 <= j < i :: Applies(gs[j], msg) ==> gs[j].filter.accept(msg.payload).Denied?
  }

  /** The grant that decides: the first one that applies and does not deny. */
  ghost predicate Decides(gs: seq<Grant>, msg: Msg, i: nat) {
    i < |gs| && PassedOver(gs, msg, i) && Applies(gs[i], msg) && !gs[i].filter.accept(msg.payload).Denied?
  }

  lemma ConsiderMeans(g: Grant, msg: Msg)
    requires ValidGrant(g)
    ensures Consider(g, msg).Skip? <==> !Applies(g, msg) || g.filter.accept(msg.payload).Denied?
    ensures Consider(g, msg).Fail? <==> Applies(g, msg) && g.filter.accept(msg.payload).FilterError?
    ensures Consider(g, msg).Take? ==> Consider(g, msg).result == LimitAccept(g.limit, msg.funds)
  {
    LimitMeans(g.limit, msg.funds);
  }

  lemma FirstDecides(gs: seq<Grant>, msg: Msg, i: nat)
    requires ValidGrants(gs) && i <= |gs|
    ensures First(gs, msg, 0) == i && i < |gs| <==> Decides(gs, msg, i)
    ensures First(gs, msg, 0) == |gs| <==> PassedOver(gs, msg, |gs|)
  {
    forall j | 0 <= j < |gs|
      ensures Consider(gs[j], msg).Skip? <==> !Applies(gs[j], msg) || gs[j].filter.accept(msg.payload).Denied?
    {
      ConsiderMeans(gs[j], msg);
    }
  }

  /** From a valid list a message is declined if and only if it is well-formed and every grant
      of its contract lacks calls or budget for it, or denies it. */
  lemma DeclinedIff(gs: seq<Grant>, msg: Msg)
    requires ValidGrants(gs)
    ensures Accept(gs, msg).Declined? <==>
      msg.wellFormed && forall i | 0 <= i < |gs| && gs[i].contract == msg.contract ::
        !Covers(gs[i].limit, msg.funds) || gs[i].filter.accept(msg.payload).Denied?
  {
    FirstDecides(gs, msg, |gs|);
    var i := First(gs, msg, 0);
    if i < |gs| {
      LimitMeans(gs[i].limit, msg.funds);
      ConsiderMeans(gs[i], msg);
    }
  }

  /** It is an error if and only if the message is malformed or the deciding grant's filter
      cannot read it. */
  lemma ErrorIff(gs: seq<Grant>, msg: Msg)
    requires ValidGrants(gs)
    ensures Accept(gs, msg).Error? <==>
      !msg.wellFormed || exists i: nat :: Decides(gs, msg, i) && gs[i].filter.accept(msg.payload).FilterError?
  {
    UpdatedValid(gs, msg);
    var i := First(gs, msg, 0);
    FirstDecides(gs, msg, i);
    if exists j: nat :: Decides(gs, msg, j) && gs[j].filter.accept(msg.payload).FilterError? {
      var j: nat :| Decides(gs, msg, j) && gs[j].filter.accept(msg.payload).FilterError?;
      FirstDecides(gs, msg, j);
    }
  }

  /** The grants after an accepted message: without grant i if this was its last use; unchanged
      if a budget was not touched; else with grant i charged, and nothing else changed. */
  ghost predicate Updates(gs: seq<Grant>, msg: Msg, i: nat, r: Response)
    requires i < |gs|
  {
    var g := gs[i];
    if LastUse(g.limit, msg.funds) then
      r == if |gs| == 1 then AcceptDelete else AcceptUpdate(gs[..i] + gs[i + 1..])
    else if g.limit.MaxFunds? && msg.funds == map[] then r == AcceptSame
    else
      && r.AcceptUpdate? && |r.grants| == |gs| && (forall j | 0 <= j < |gs| && j != i :: r.grants[j] == gs[j])
      && r.grants[i].(limit := Undefined) == g.(limit := Undefined) && Charged(g.limit, msg.funds, r.grants[i].limit)
  }

  /** An accepted message has a grant of its contract whose filter allows the payload and whose
      counter and budget cover it, and that grant alone pays. */
  lemma AcceptedBy(gs: seq<Grant>, msg: Msg) returns (i: nat)
    requires ValidGrants(gs) && !Accept(gs, msg).Error? && !Accept(gs, msg).Declined?
    ensures Decides(gs, msg, i) && gs[i].filter.accept(msg.payload).Allowed? && msg.wellFormed
    ensures Updates(gs, msg, i, Accept(gs, msg))
  {
    i := First(gs, msg, 0);
    FirstDecides(gs, msg, i);
    ConsiderMeans(gs[i], msg);
    LimitMeans(gs[i].limit, msg.funds);
    UpdatedValid(gs, msg);
    ErrorIff(gs, msg);
  }

  /** And whenever such a grant decides, the message is accepted. */
  lemma AcceptedIff(gs: seq<Grant>, msg: Msg)
    requires ValidGrants(gs)
    ensures !Accept(gs, msg).Error? && !Accept(gs, msg).Declined? <==>
      msg.wellFormed && exists i: nat :: Decides(gs, msg, i) && gs[i].filter.accept(msg.payload).Allowed?
  {
    if !Accept(gs, msg).Error? && !Accept(gs, msg).Declined? { var i := AcceptedBy(gs, msg); }
    if msg.wellFormed && exists i: nat :: Decides(gs, msg, i) && gs[i].filter.accept(msg.payload).Allowed? {
      var i: nat :| Decides(gs, msg, i) && gs[i].filter.accept(msg.payload).Allowed?;
      FirstDecides(gs, msg, i);
      ConsiderMeans(gs[i], msg);
      UpdatedValid(gs, msg);
    }
  }
}
