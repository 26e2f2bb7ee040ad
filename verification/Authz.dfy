/** Authz grants for contract messages: limits, the in-place update of the grant list,
    and the budgets over whole runs. */
module Authz {
  import opened Bytes

  // ---- coins: a positive amount per denom ----

  type Denom = string
  type Coins = c: map<Denom, nat> | forall d | d in c :: c[d] > 0

  function Amount(c: Coins, d: Denom): nat { if d in c then c[d] else 0 }

  predicate AllLTE(a: Coins, b: Coins) {
    forall d | d in a :: a[d] <= Amount(b, d)
  }

  /** Coins.Sub; None is its panic on a negative amount. */
  function Sub(a: Coins, b: Coins): Option<Coins> {
    if AllLTE(b, a) then Some(map d | d in a && a[d] > Amount(b, d) :: a[d] - Amount(b, d)) else None
  }

  // ---- limits ----

  datatype Limit = MaxCalls(calls: U64) | MaxFunds(amounts: Coins) | Combined(calls: U64, amounts: Coins) | Undefined

  datatype LimitResult = LimitError | NotAccepted | Keep | Drop | Renew(limit: Limit)

  predicate ValidLimit(l: Limit) {
    match l
    case MaxCalls(n) => n > 0
    case MaxFunds(a) => a != map[]
    case Combined(n, a) => n > 0 && a != map[]
    case Undefined => false
  }

  /** Accept of the four limits. */
  function LimitAccept(l: Limit, funds: Coins): LimitResult {
    match l
    case MaxCalls(n) =>
      if funds != map[] then NotAccepted
      else if n == 0 then LimitError
      else if n == 1 then Drop
      else Renew(MaxCalls(n - 1))
    case MaxFunds(a) =>
      if funds == map[] then Keep
      else if !AllLTE(funds, a) then NotAccepted
      else (match Sub(a, funds)
        case None => LimitError
        case Some(rest) => if rest == map[] then Drop else Renew(MaxFunds(rest)))
    case Combined(n, a) =>
      if !AllLTE(funds, a) then NotAccepted
      else if n == 0 then LimitError
      else if n == 1 then Drop
      else (match Sub(a, funds)
        case None => LimitError
        case Some(rest) => if rest == map[] then Drop else Renew(Combined(n - 1, rest)))
    case Undefined => LimitError
  }

  // ---- grants ----

  datatype Verdict = FilterError | Denied | Allowed

  /** A filter is its decision on a payload, and whether it is well-formed itself. */
  datatype Filter = Filter(accept: Bytes -> Verdict, valid: bool)

  datatype Grant = Grant(contract: string, contractOk: bool, limit: Limit, filter: Filter)

  predicate ValidGrant(g: Grant) { g.contractOk && ValidLimit(g.limit) && g.filter.valid }

  predicate ValidGrants(gs: seq<Grant>) {
    gs != [] && forall i | 0 <= i < |gs| :: ValidGrant(gs[i])
  }

  /** wellFormed: right message type, non-empty payload, ValidateBasic passed. */
  datatype Msg = Msg(contract: string, payload: Bytes, funds: Coins, wellFormed: bool)

  datatype Response = Error | Declined | AcceptSame | AcceptDelete | AcceptUpdate(grants: seq<Grant>)

  datatype Consideration = Skip | Fail | Take(result: LimitResult)

  /** One grant against one message: limit first, then filter. */
  function Consider(g: Grant, msg: Msg): Consideration {
    if g.contract != msg.contract then Skip
    else match LimitAccept(g.limit, msg.funds)
      case LimitError => Fail
      case NotAccepted => Skip
      case result =>
        match g.filter.accept(msg.payload)
        case FilterError => Fail
        case Denied => Skip
        case Allowed => Take(result)
  }

  function Removed(gs: seq<Grant>, i: nat): seq<Grant>
    requires i < |gs|
  {
    gs[..i] + gs[i + 1..]
  }

  function Checked(gs: seq<Grant>): Response {
    if ValidGrants(gs) then AcceptUpdate(gs) else Error
  }

  /** The response when grant i takes the message. */
  function Outcome(gs: seq<Grant>, i: nat, result: LimitResult): Response
    requires i < |gs|
  {
    match result
    case Drop => if |gs| == 1 then AcceptDelete else Checked(Removed(gs, i))
    case Renew(l) => Checked(gs[i := gs[i].(limit := l)])
    case _ => AcceptSame
  }

  /** The first grant from i on that does not skip the message. */
  function First(gs: seq<Grant>, msg: Msg, i: nat): (j: nat)
    requires i <= |gs|
    ensures i <= j <= |gs|
    ensures forall k | i <= k < j :: Consider(gs[k], msg).Skip?
    ensures j < |gs| ==> !Consider(gs[j], msg).Skip?
    decreases |gs| - i
  {
    if i == |gs| || !Consider(gs[i], msg).Skip? then i else First(gs, msg, i + 1)
  }

  function Accept(gs: seq<Grant>, msg: Msg): Response {
    if !msg.wellFormed then Error
    else
      var i := First(gs, msg, 0);
      if i == |gs| then Declined
      else match Consider(gs[i], msg)
        case Take(result) => Outcome(gs, i, result)
        case _ => Error
  }

  // ---- the loop, and the slices it edits in place ----

  /** append(a[..to], a[from..]...) on one backing array. */
  method CopyDown(a: array<Grant>, to: nat, from: nat)
    requires to <= from <= a.Length
    modifies a
    ensures a[..to] == old(a[..to])
    ensures a[to..to + (a.Length - from)] == old(a[from..])
    ensures a[to + (a.Length - from)..] == old(a[to + (a.Length - from)..])
  {
    var n := a.Length - from;
    for j := 0 to n
      invariant a[..to] == old(a[..to])
      invariant a[to..to + j] == old(a[from..from + j])
      invariant forall k | to + j <= k < a.Length :: a[k] == old(a[k])
    {
      a[to + j] := a[from + j];
      assert a[to..to + j + 1] == a[to..to + j] + [a[to + j]];
    }
    assert old(a[from..from + n]) == old(a[from..]);
  }

  method ValidateGrants(a: array<Grant>, n: nat) returns (ok: bool)
    requires n <= a.Length
    ensures ok == ValidGrants(a[..n])
  {
    if n == 0 { return false; }
    for i := 0 to n
      invariant forall k | 0 <= k < i :: ValidGrant(a[..n][k])
    {
      if !ValidGrant(a[i]) {
        assert !ValidGrant(a[..n][i]);
        return false;
      }
    }
    return true;
  }

  /** What AcceptGrantedMessage leaves in the slice it was given: a removal shifts the
      tail down and keeps a second copy of the last grant. */
  function Leftover(gs: seq<Grant>, msg: Msg): seq<Grant> {
    var i := First(gs, msg, 0);
    if !msg.wellFormed || i == |gs| then gs
    else match Consider(gs[i], msg)
      case Take(Drop) => Removed(gs, i) + [gs[|gs| - 1]]
      case Take(Renew(l)) => gs[i := gs[i].(limit := l)]
      case _ => gs
  }

  method DropGrant(a: array<Grant>, i: nat) returns (r: Response)
    requires i < a.Length
    modifies a
    ensures r == Outcome(old(a[..]), i, Drop)
    ensures a[..] == Removed(old(a[..]), i) + [old(a[a.Length - 1])]
  {
    var n := a.Length - 1;
    CopyDown(a, i, i + 1);
    assert a[n..] == old(a[n..]) && a[i..n] == old(a[i + 1..]);
    assert a[..] == a[..i] + a[i..n] + a[n..];
    assert a[..n] == a[..i] + a[i..n] == Removed(old(a[..]), i);
    if n == 0 { return AcceptDelete; }
    var ok := ValidateGrants(a, n);
    r := if ok then AcceptUpdate(a[..n]) else Error;
  }

  method RenewGrant(a: array<Grant>, i: nat, l: Limit) returns (r: Response)
    requires i < a.Length
    modifies a
    ensures r == Outcome(old(a[..]), i, Renew(l))
    ensures a[..] == old(a[..])[i := old(a[i]).(limit := l)]
  {
    a[i] := a[i].(limit := l);
    CopyDown(a, i + 1, i + 1);
    assert a[..] == a[..i + 1] + a[i + 1..];
    var ok := ValidateGrants(a, a.Length);
    assert a[..a.Length] == a[..];
    r := if ok then AcceptUpdate(a[..]) else Error;
  }

  /** AcceptGrantedMessage */
  method AcceptGrantedMessage(a: array<Grant>, msg: Msg) returns (r: Response)
    modifies a
    ensures r == Accept(old(a[..]), msg)
    ensures a[..] == Leftover(old(a[..]), msg)
  {
    if !msg.wellFormed { return Error; }
    for i := 0 to a.Length
      invariant a[..] == old(a[..])
      invariant First(a[..], msg, 0) == First(a[..], msg, i)
    {
      var g := a[i];
      assert g == a[..][i];
      if g.contract == msg.contract {
        var result := LimitAccept(g.limit, msg.funds);
        if result.LimitError? { return Error; }
        if !result.NotAccepted? {
          var verdict := g.filter.accept(msg.payload);
          if verdict.FilterError? { return Error; }
          if verdict.Allowed? {
            if result.Drop? {
              r := DropGrant(a, i);
            } else if result.Renew? {
              r := RenewGrant(a, i, result.limit);
            } else {
              r := AcceptSame;
            }
            return;
          }
        }
      }
    }
    return Declined;
  }

  // ---- limits: no negative coins, validity kept, exact accounting ----

  /** Subtraction succeeds exactly when nothing would become negative; then it is exact. */
  lemma SubExact(a: Coins, b: Coins, d: Denom)
    ensures Sub(a, b).Some? <==> forall x :: Amount(b, x) <= Amount(a, x)
    ensures Sub(a, b).Some? ==> Amount(Sub(a, b).value, d) + Amount(b, d) == Amount(a, d)
  {
  }

  /** A limit's counter; None where it does not count calls. */
  function Calls(l: Limit): Option<nat> {
    match l
    case MaxCalls(n) => Some(n)
    case Combined(n, _) => Some(n)
    case _ => None
  }

  function Budget(l: Limit, d: Denom): nat {
    match l
    case MaxFunds(a) => Amount(a, d)
    case Combined(_, a) => Amount(a, d)
    case _ => 0
  }

  /** A valid limit answers without error; what it renews to is valid, and has paid
      exactly one call and exactly the funds; what it drops could afford them. */
  lemma LimitAccounts(l: Limit, funds: Coins, d: Denom)
    requires ValidLimit(l)
    ensures var r := LimitAccept(l, funds);
      && !r.LimitError?
      && (r.Keep? ==> l.MaxFunds? && funds == map[])
      && (r.Drop? ==> Amount(funds, d) <= Budget(l, d) && (Calls(l).Some? ==> Calls(l).value >= 1))
      && (r.Renew? ==>
        && ValidLimit(r.limit)
        && Budget(r.limit, d) + Amount(funds, d) == Budget(l, d)
        && (if Calls(l).Some? then Calls(r.limit) == Some(Calls(l).value - 1) else Calls(r.limit).None?))
  {
    if l.MaxFunds? || l.Combined? { SubExact(l.amounts, funds, d); }
  }

  // ---- the list stays valid, so the sanity checks never fail ----

  lemma UpdatedValid(gs: seq<Grant>, msg: Msg)
    requires ValidGrants(gs)
    ensures Accept(gs, msg).AcceptUpdate? ==> ValidGrants(Accept(gs, msg).grants)
    ensures Accept(gs, msg).Error? <==>
      !msg.wellFormed || var i := First(gs, msg, 0); i < |gs| && gs[i].filter.accept(msg.payload).FilterError?
  {
    var i := First(gs, msg, 0);
    if msg.wellFormed && i < |gs| {
      LimitAccounts(gs[i].limit, msg.funds, "");
      var c := Consider(gs[i], msg);
      if c.Take? && c.result.Drop? && |gs| > 1 { assert ValidGrants(Removed(gs, i)); }
      if c.Take? && c.result.Renew? { assert ValidGrants(gs[i := gs[i].(limit := c.result.limit)]); }
    }
  }

  // ---- runs ----

  /** An authorization over a run: its current grants, which initial grant each one
      descends from, and for one denom what each initial grant has paid so far. */
  datatype Ledger = Ledger(grants: seq<Grant>, ids: seq<nat>, used: seq<nat>, spent: seq<nat>)

  /** The initial grant that pays for a message, if any does. */
  function Payer(led: Ledger, msg: Msg): Option<nat>
    requires |led.ids| == |led.grants|
  {
    if Accept(led.grants, msg).Error? || Accept(led.grants, msg).Declined? then None
    else Some(led.ids[First(led.grants, msg, 0)])
  }

  function Bill(led: Ledger, t: nat, amount: nat): Ledger
    requires t < |led.used| == |led.spent|
  {
    led.(used := led.used[t := led.used[t] + 1], spent := led.spent[t := led.spent[t] + amount])
  }

  /** The authz module stores what Accept answers: the updated list, nothing new, or
      no authorization at all. */
  function Advance(led: Ledger, msg: Msg, d: Denom): Ledger
    requires |led.ids| == |led.grants| && |led.used| == |led.spent| && forall i | 0 <= i < |led.ids| :: led.ids[i] < |led.used|
  {
    match Payer(led, msg)
    case None => led
    case Some(t) =>
      var i, billed := First(led.grants, msg, 0), Bill(led, t, Amount(msg.funds, d));
      match Accept(led.grants, msg)
      case AcceptDelete => billed.(grants := [], ids := [])
      case AcceptUpdate(gs) => billed.(grants := gs, ids := if |gs| < |led.grants| then led.ids[..i] + led.ids[i + 1..] else led.ids)
      case _ => billed
  }

  /** Initial grant t, as it stands: a live descendant holds what is left, exactly. */
  ghost predicate Descends(init: seq<Grant>, led: Ledger, i: nat, d: Denom)
    requires i < |led.ids| == |led.grants| && |led.used| == |led.spent| == |init| && led.ids[i] < |init|
  {
    var g, t := led.grants[i], led.ids[i];
    && g.contract == init[t].contract && g.filter == init[t].filter && ValidGrant(g)
    && Budget(g.limit, d) + led.spent[t] == Budget(init[t].limit, d)
    && (if Calls(init[t].limit).Some?
        then Calls(g.limit).Some? && Calls(g.limit).value + led.used[t] == Calls(init[t].limit).value
        else Calls(g.limit).None?)
  }

  ghost predicate Within(init: seq<Grant>, led: Ledger, t: nat, d: Denom)
    requires |led.used| == |led.spent| == |init| && t < |init|
  {
    && led.spent[t] <= Budget(init[t].limit, d)
    && (Calls(init[t].limit).Some? ==> led.used[t] <= Calls(init[t].limit).value)
  }

  ghost predicate Shaped(init: seq<Grant>, led: Ledger) {
    && |led.ids| == |led.grants| && |led.used| == |led.spent| == |init|
    && (forall i | 0 <= i < |led.ids| :: led.ids[i] < |init|)
    && (forall i, j | 0 <= i < j < |led.ids| :: led.ids[i] < led.ids[j])
  }

  ghost predicate Balanced(init: seq<Grant>, led: Ledger, d: Denom) {
    && Shaped(init, led)
    && (forall i | 0 <= i < |led.ids| :: Descends(init, led, i, d))
    && (forall t | 0 <= t < |init| :: Within(init, led, t, d))
  }

  function Opened(init: seq<Grant>): Ledger {
    Ledger(init, seq(|init|, i => i), seq(|init|, _ => 0), seq(|init|, _ => 0))
  }

  lemma OpenedBalanced(init: seq<Grant>, d: Denom)
    requires ValidGrants(init)
    ensures Balanced(init, Opened(init), d)
  {
  }

  /** What grant i of the ledger pays it can afford. */
  lemma PayerAffords(init: seq<Grant>, led: Ledger, msg: Msg, d: Denom)
    requires Balanced(init, led, d) && Payer(led, msg).Some?
    ensures var t := Payer(led, msg).value;
      t < |init| && Within(init, Bill(led, t, Amount(msg.funds, d)), t, d)
  {
    var i := First(led.grants, msg, 0);
    assert Descends(init, led, i, d) && Within(init, led, led.ids[i], d);
    LimitAccounts(led.grants[i].limit, msg.funds, d);
  }

  lemma BillWithin(init: seq<Grant>, led: Ledger, msg: Msg, d: Denom, u: nat)
    requires Balanced(init, led, d) && Payer(led, msg).Some? && u < |init|
    ensures Within(init, Bill(led, Payer(led, msg).value, Amount(msg.funds, d)), u, d)
  {
    PayerAffords(init, led, msg, d);
    assert Within(init, led, u, d);
  }

  /** The grant that pays, renewed or kept, still descends from its initial grant. */
  lemma PayerDescends(init: seq<Grant>, led: Ledger, msg: Msg, d: Denom, gs: seq<Grant>)
    requires Balanced(init, led, d) && Payer(led, msg).Some? && |gs| == |led.grants|
    requires Accept(led.grants, msg) == AcceptUpdate(gs) || (Accept(led.grants, msg).AcceptSame? && gs == led.grants)
    ensures var t := Payer(led, msg).value;
      Descends(init, Bill(led, t, Amount(msg.funds, d)).(grants := gs), First(led.grants, msg, 0), d)
  {
    var i := First(led.grants, msg, 0);
    assert Descends(init, led, i, d);
    LimitAccounts(led.grants[i].limit, msg.funds, d);
  }

  /** A grant that does not pay, at its place in the new list. */
  lemma OtherDescends(init: seq<Grant>, led: Ledger, led': Ledger, i: nat, j: nat, d: Denom)
    requires Shaped(init, led) && Shaped(init, led') && i < |led.ids| && j < |led'.ids| && Descends(init, led, i, d)
    requires led'.grants[j] == led.grants[i] && led'.ids[j] == led.ids[i]
    requires led'.used[led.ids[i]] == led.used[led.ids[i]] && led'.spent[led.ids[i]] == led.spent[led.ids[i]]
    ensures Descends(init, led', j, d)
  {
  }

  lemma DropBalanced(init: seq<Grant>, led: Ledger, i: nat, amount: nat, d: Denom)
    requires Balanced(init, led, d) && i < |led.ids|
    requires forall t | 0 <= t < |init| :: Within(init, Bill(led, led.ids[i], amount), t, d)
    ensures Balanced(init, Bill(led, led.ids[i], amount).(grants := Removed(led.grants, i), ids := led.ids[..i] + led.ids[i + 1..]), d)
  {
    var b := Bill(led, led.ids[i], amount);
    var led' := b.(grants := Removed(led.grants, i), ids := led.ids[..i] + led.ids[i + 1..]);
    assert forall j | 0 <= j < |led'.ids| :: led'.ids[j] == led.ids[if j < i then j else j + 1];
    forall t | 0 <= t < |init| ensures Within(init, led', t, d) { assert Within(init, b, t, d); }
    forall j | 0 <= j < |led'.ids| ensures Descends(init, led', j, d) {
      OtherDescends(init, led, led', if j < i then j else j + 1, j, d);
    }
  }

  lemma RenewBalanced(init: seq<Grant>, led: Ledger, i: nat, g: Grant, amount: nat, d: Denom)
    requires Balanced(init, led, d) && i < |led.ids|
    requires forall t | 0 <= t < |init| :: Within(init, Bill(led, led.ids[i], amount), t, d)
    requires Descends(init, Bill(led, led.ids[i], amount).(grants := led.grants[i := g]), i, d)
    ensures Balanced(init, Bill(led, led.ids[i], amount).(grants := led.grants[i := g]), d)
  {
    var b := Bill(led, led.ids[i], amount);
    var led' := b.(grants := led.grants[i := g]);
    forall t | 0 <= t < |init| ensures Within(init, led', t, d) { assert Within(init, b, t, d); }
    forall j | 0 <= j < |led'.ids| ensures Descends(init, led', j, d) {
      if j != i { OtherDescends(init, led, led', j, j, d); }
    }
  }

  /** Either the paying grant leaves the list, or it alone is replaced. */
  lemma AdvanceIs(led: Ledger, msg: Msg, d: Denom)
    requires |led.ids| == |led.grants| && |led.used| == |led.spent| && forall i | 0 <= i < |led.ids| :: led.ids[i] < |led.used|
    requires Payer(led, msg).Some?
    ensures var i := First(led.grants, msg, 0);
      var b, led' := Bill(led, led.ids[i], Amount(msg.funds, d)), Advance(led, msg, d);
      if Consider(led.grants[i], msg).result.Drop?
      then led' == b.(grants := Removed(led.grants, i), ids := led.ids[..i] + led.ids[i + 1..])
      else |led'.grants| == |led.grants| && led' == b.(grants := led.grants[i := led'.grants[i]])
  {
  }

  lemma AdvanceBalanced(init: seq<Grant>, led: Ledger, msg: Msg, d: Denom)
    requires Balanced(init, led, d) && Payer(led, msg).Some?
    ensures Balanced(init, Advance(led, msg, d), d)
  {
    var i, led', amount := First(led.grants, msg, 0), Advance(led, msg, d), Amount(msg.funds, d);
    AdvanceIs(led, msg, d);
    forall t | 0 <= t < |init| ensures Within(init, Bill(led, led.ids[i], amount), t, d) {
      BillWithin(init, led, msg, d, t);
    }
    if Consider(led.grants[i], msg).result.Drop? {
      DropBalanced(init, led, i, amount, d);
    } else {
      PayerDescends(init, led, msg, d, led'.grants);
      RenewBalanced(init, led, i, led'.grants[i], amount, d);
    }
  }

  function RunLedger(init: seq<Grant>, msgs: seq<Msg>, d: Denom): (led: Ledger)
    requires ValidGrants(init)
    ensures Balanced(init, led, d)
    decreases |msgs|
  {
    if msgs == [] then
      OpenedBalanced(init, d);
      Opened(init)
    else
      var before, msg := RunLedger(init, msgs[..|msgs| - 1], d), msgs[|msgs| - 1];
      if Payer(before, msg).Some? then
        AdvanceBalanced(init, before, msg, d);
        Advance(before, msg, d)
      else before
  }

  /** Initial grant t paid at most its budget and calls; a grant still in the list
      that descends from it holds exactly the difference. */
  ghost predicate NotOverspent(init: seq<Grant>, led: Ledger, t: nat, d: Denom)
    requires Shaped(init, led) && t < |init|
  {
    && led.spent[t] <= Budget(init[t].limit, d)
    && (Calls(init[t].limit).Some? ==> led.used[t] <= Calls(init[t].limit).value)
    && forall i | 0 <= i < |led.grants| && led.ids[i] == t ::
         && Budget(led.grants[i].limit, d) == Budget(init[t].limit, d) - led.spent[t]
         && (Calls(init[t].limit).Some? ==> Calls(led.grants[i].limit) == Some(Calls(init[t].limit).value - led.used[t]))
  }

  lemma BalancedNotOverspent(init: seq<Grant>, led: Ledger, t: nat, d: Denom)
    requires Balanced(init, led, d) && t < |init|
    ensures NotOverspent(init, led, t, d)
  {
    assert Within(init, led, t, d);
    forall i | 0 <= i < |led.grants| && led.ids[i] == t ensures Descends(init, led, i, d) {}
  }

  /** Over any run no grant pays more than it was given. */
  lemma GrantsNeverOverspend(init: seq<Grant>, msgs: seq<Msg>, d: Denom, t: nat)
    requires ValidGrants(init) && t < |init|
    ensures NotOverspent(init, RunLedger(init, msgs, d), t, d)
  {
    BalancedNotOverspent(init, RunLedger(init, msgs, d), t, d);
  }

  // ---- totals for one contract ----

  /** Funds of the messages to a contract that the run accepted. */
  function Accepted(init: seq<Grant>, msgs: seq<Msg>, d: Denom, contract: string): nat
    requires ValidGrants(init)
    decreases |msgs|
  {
    if msgs == [] then 0
    else
      var front, msg := msgs[..|msgs| - 1], msgs[|msgs| - 1];
      Accepted(init, front, d, contract)
        + if msg.contract == contract && Payer(RunLedger(init, front, d), msg).Some? then Amount(msg.funds, d) else 0
  }

  /** Sum of xs over the grants of one contract. */
  function Total(init: seq<Grant>, xs: seq<nat>, contract: string): nat
    requires |xs| == |init|
    decreases |init|
  {
    if init == [] then 0
    else
      var n := |init| - 1;
      Total(init[..n], xs[..n], contract) + if init[n].contract == contract then xs[n] else 0
  }

  lemma {:induction false} TotalBump(init: seq<Grant>, xs: seq<nat>, contract: string, t: nat, v: nat)
    requires |xs| == |init| && t < |init|
    ensures Total(init, xs[t := xs[t] + v], contract) == Total(init, xs, contract) + if init[t].contract == contract then v else 0
    decreases |init|
  {
    var n := |init| - 1;
    if t < n {
      TotalBump(init[..n], xs[..n], contract, t, v);
      assert xs[t := xs[t] + v][..n] == xs[..n][t := xs[t] + v];
    } else {
      assert xs[t := xs[t] + v][..n] == xs[..n];
    }
  }

  lemma {:induction false} TotalZero(init: seq<Grant>, xs: seq<nat>, contract: string)
    requires |xs| == |init| && forall i | 0 <= i < |xs| :: xs[i] == 0
    ensures Total(init, xs, contract) == 0
    decreases |init|
  {
    if init != [] { TotalZero(init[..|init| - 1], xs[..|init| - 1], contract); }
  }

  lemma {:induction false} TotalMonotone(init: seq<Grant>, xs: seq<nat>, ys: seq<nat>, contract: string)
    requires |xs| == |ys| == |init| && forall i | 0 <= i < |xs| :: xs[i] <= ys[i]
    ensures Total(init, xs, contract) <= Total(init, ys, contract)
    decreases |init|
  {
    if init != [] {
      var n := |init| - 1;
      TotalMonotone(init[..n], xs[..n], ys[..n], contract);
    }
  }

  /** The message's contract is the payer's. */
  lemma PayerContract(init: seq<Grant>, led: Ledger, msg: Msg, d: Denom)
    requires Balanced(init, led, d) && Payer(led, msg).Some?
    ensures init[Payer(led, msg).value].contract == msg.contract
  {
    assert Descends(init, led, First(led.grants, msg, 0), d);
  }

  /** Every accepted coin is on exactly one grant's account. */
  lemma {:induction false} AcceptedIsBilled(init: seq<Grant>, msgs: seq<Msg>, d: Denom, contract: string)
    requires ValidGrants(init)
    ensures Accepted(init, msgs, d, contract) == Total(init, RunLedger(init, msgs, d).spent, contract)
    decreases |msgs|
  {
    if msgs == [] {
      TotalZero(init, RunLedger(init, msgs, d).spent, contract);
    } else {
      var front, msg := msgs[..|msgs| - 1], msgs[|msgs| - 1];
      AcceptedIsBilled(init, front, d, contract);
      var led := RunLedger(init, front, d);
      if Payer(led, msg).Some? { BilledTotal(init, led, msg, d, contract); }
    }
  }

  lemma BilledTotal(init: seq<Grant>, led: Ledger, msg: Msg, d: Denom, contract: string)
    requires Balanced(init, led, d) && Payer(led, msg).Some?
    ensures |Advance(led, msg, d).spent| == |init|
    ensures Total(init, Advance(led, msg, d).spent, contract)
      == Total(init, led.spent, contract) + if msg.contract == contract then Amount(msg.funds, d) else 0
  {
    var t := Payer(led, msg).value;
    PayerContract(init, led, msg, d);
    assert Advance(led, msg, d).spent == led.spent[t := led.spent[t] + Amount(msg.funds, d)];
    TotalBump(init, led.spent, contract, t, Amount(msg.funds, d));
  }

  function Budgets(init: seq<Grant>, d: Denom): (r: seq<nat>)
    ensures |r| == |init|
  {
    seq(|init|, i requires 0 <= i < |init| => Budget(init[i].limit, d))
  }

  /** The funds a run accepts for a contract never exceed the budgets granted for it. */
  lemma FundsNeverExceedBudgets(init: seq<Grant>, msgs: seq<Msg>, d: Denom, contract: string)
    requires ValidGrants(init)
    ensures Accepted(init, msgs, d, contract) <= Total(init, Budgets(init, d), contract)
  {
    AcceptedIsBilled(init, msgs, d, contract);
    var led := RunLedger(init, msgs, d);
    forall t | 0 <= t < |init| ensures led.spent[t] <= Budgets(init, d)[t] { GrantsNeverOverspend(init, msgs, d, t); }
    TotalMonotone(init, led.spent, Budgets(init, d), contract);
  }
}
