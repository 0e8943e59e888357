/** Coin selection and the exact-fee fixed point. The Operator's fee evaluator is an arbitrary
    total function that may fail or return a value that is not a usable amount. */
module CoinSelection {
  import opened Prelude
  import opened Ordering

  const MAX_FEE_EVALUATIONS := 20_000

  datatype VtxoType = Plain | Recoverable | Note

  /** One spendable output as the indexer lists it. */
  datatype Vtxo = Vtxo(
    txid: Blob, vout: nat, valueSats: nat, script: Blob,
    createdAt: int, expiresAt: Option<int>, swept: bool, commitments: nat)

  datatype FeeInput = FeeInput(amount: nat, birth: int, expiry: Option<int>, kind: VtxoType)
  datatype Output = Output(amount: nat, script: Blob)
  datatype FeeAmount = NotANumber | Infinite | Finite(value: real)

  datatype Estimator = Estimator(
    evalInput: FeeInput -> Option<FeeAmount>,
    eval: (seq<FeeInput>, seq<Output>) -> Option<FeeAmount>)

  datatype Coin = Coin(txid: Blob, vout: nat, valueSats: nat, feeInput: FeeInput, effective: nat)

  function ArkFeeInput(v: Vtxo): FeeInput {
    FeeInput(v.valueSats, v.createdAt, v.expiresAt,
             if v.swept then Recoverable else if v.commitments == 0 then Note else Plain)
  }

  /** exactFeeSats: fees are rounded up to whole satoshis. */
  function Ceil(r: real): int { if r == r.Floor as real then r.Floor else r.Floor + 1 }

  function ExactFee(fee: FeeAmount): Option<nat> {
    if fee.Finite? && fee.value >= 0.0 && Ceil(fee.value) < MAX_INT64 + 1 then Some(Ceil(fee.value)) else None
  }

  function Evaluate(fee: Option<FeeAmount>): Option<nat> {
    if fee.Some? then ExactFee(fee.value) else None
  }

  // ---------- one spend ----------

  function Sum(coins: seq<Coin>): nat {
    if coins == [] then 0 else coins[0].valueSats + Sum(coins[1..])
  }

  function FeeInputs(coins: seq<Coin>): (r: seq<FeeInput>)
    ensures |r| == |coins| && forall i :: 0 <= i < |coins| ==> r[i] == coins[i].feeInput
  {
    if coins == [] then [] else [coins[0].feeInput] + FeeInputs(coins[1..])
  }

  /** The payment: who is paid how much, where change goes, the fee ceiling, and the evaluator. */
  datatype Spend = Spend(destScript: Blob, changeScript: Blob, amount: nat, feeCap: nat, est: Estimator)

  function NoChangeFee(s: Spend, coins: seq<Coin>): Option<nat> {
    Evaluate(s.est.eval(FeeInputs(coins), [Output(s.amount, s.destScript)]))
  }

  function ChangeFee(s: Spend, coins: seq<Coin>, change: nat): Option<nat> {
    Evaluate(s.est.eval(FeeInputs(coins), [Output(s.amount, s.destScript), Output(change, s.changeScript)]))
  }

  /** Inputs equal amount plus fee plus change, the fee is what the evaluator asks for exactly these
      outputs and is within the cap, and change is absent or at least dust. */
  predicate Balances(s: Spend, coins: seq<Coin>, fee: nat, change: nat) {
    && Sum(coins) == s.amount + fee + change && fee <= s.feeCap
    && if change == 0 then NoChangeFee(s, coins) == Some(fee)
       else change >= DUST_SATS && ChangeFee(s, coins, change) == Some(fee)
  }

  datatype SolveResult = Solved(fee: nat, change: nat) | Unsolvable | Failed

  /** Candidate fees are tried in increasing order from `candidate`. */
  function Scan(s: Spend, coins: seq<Coin>, spare: nat, candidate: nat, last: nat, budget: nat): (SolveResult, nat)
    requires last <= spare
    decreases last + 1 - candidate
  {
    if candidate > last then (Unsolvable, budget)
    else if spare - candidate < DUST_SATS then Scan(s, coins, spare, candidate + 1, last, budget)
    else if budget == 0 then (Failed, 0)
    else
      match ChangeFee(s, coins, spare - candidate)
      case None => (Failed, budget - 1)
      case Some(fee) =>
        if fee == candidate then (Solved(candidate, spare - candidate), budget - 1)
        else Scan(s, coins, spare, candidate + 1, last, budget - 1)
  }

  function Min(a: nat, b: nat): nat { if a <= b then a else b }

  function Solve(s: Spend, coins: seq<Coin>, budget: nat): (SolveResult, nat) {
    if Sum(coins) > MAX_UINT64 then (Failed, budget)
    else if Sum(coins) < s.amount then (Unsolvable, budget)
    else if budget == 0 then (Failed, 0)
    else
      var spare := Sum(coins) - s.amount;
      match NoChangeFee(s, coins)
      case None => (Failed, budget - 1)
      case Some(fee) =>
        if fee <= s.feeCap && spare == fee then (Solved(fee, 0), budget - 1)
        else Scan(s, coins, spare, 0, Min(s.feeCap, spare), budget - 1)
  }

  lemma {:induction false} SumAppend(a: seq<Coin>, c: Coin)
    ensures Sum(a + [c]) == Sum(a) + c.valueSats
  {
    if a != [] {
      assert (a + [c])[1..] == a[1..] + [c];
      SumAppend(a[1..], c);
    } else {
      assert a + [c] == [c] && [c][1..] == [];
    }
  }

  lemma {:induction false} SumPrefix(coins: seq<Coin>, n: nat)
    requires n <= |coins|
    ensures Sum(coins[..n]) <= Sum(coins)
    decreases |coins|
  {
    if n > 0 {
      assert coins[..n][1..] == coins[1..][..n - 1];
      SumPrefix(coins[1..], n - 1);
    }
  }

  /** solveVtxoSpendWithBudget. The source's stop after the largest 64-bit candidate only keeps its counter
      from wrapping around; here the loop ends there by itself. */
  method SolveSpend(s: Spend, coins: seq<Coin>, budget: nat) returns (res: SolveResult, left: nat)
    ensures (res, left) == Solve(s, coins, budget)
  {
    left := budget;
    var total := 0;
    var i := 0;
    while i < |coins|
      invariant 0 <= i <= |coins| && total == Sum(coins[..i]) <= MAX_UINT64
    {
      assert coins[..i + 1] == coins[..i] + [coins[i]];
      SumAppend(coins[..i], coins[i]);
      SumPrefix(coins, i + 1);
      if coins[i].valueSats > MAX_UINT64 - total { return Failed, left; }
      total := total + coins[i].valueSats;
      i := i + 1;
    }
    assert coins[..|coins|] == coins;
    if total < s.amount { return Unsolvable, left; }
    if left == 0 { return Failed, 0; }
    left := left - 1;
    var noChange := NoChangeFee(s, coins);
    if noChange.None? { return Failed, left; }
    var spare := total - s.amount;
    if noChange.value <= s.feeCap && spare == noChange.value { return Solved(noChange.value, 0), left; }
    var last := Min(s.feeCap, spare);
    var candidate := 0;
    while candidate <= last
      invariant 0 <= candidate <= last + 1
      invariant Solve(s, coins, budget) == Scan(s, coins, spare, candidate, last, left)
    {
      var change := spare - candidate;
      if change >= DUST_SATS {
        if left == 0 { return Failed, 0; }
        left := left - 1;
        var actual := ChangeFee(s, coins, change);
        if actual.None? { return Failed, left; }
        if actual.value == candidate { return Solved(candidate, change), left; }
      }
      candidate := candidate + 1;
    }
    return Unsolvable, left;
  }

  lemma {:induction false} ScanCorrect(s: Spend, coins: seq<Coin>, spare: nat, candidate: nat, last: nat, budget: nat)
    requires last == Min(s.feeCap, spare) && Sum(coins) == s.amount + spare
    ensures var (res, left) := Scan(s, coins, spare, candidate, last, budget);
            && left <= budget
            && (res.Solved? ==>
                  && candidate <= res.fee && res.change > 0 && Balances(s, coins, res.fee, res.change)
                  && forall f: nat, c: nat :: candidate <= f < res.fee && c > 0 ==> !Balances(s, coins, f, c))
            && (res.Unsolvable? ==> forall f: nat, c: nat :: candidate <= f && c > 0 ==> !Balances(s, coins, f, c))
    decreases last + 1 - candidate
  {
    if candidate <= last {
      var left := if spare - candidate < DUST_SATS then budget else if budget == 0 then 0 else budget - 1;
      ScanCorrect(s, coins, spare, candidate + 1, last, left);
    }
  }

  /** A solution balances; without change it is preferred, with change its fee is the least fixed
      point; and "unsolvable" means that no fee and change balance at all. */
  lemma SolveCorrect(s: Spend, coins: seq<Coin>, budget: nat)
    ensures var (res, left) := Solve(s, coins, budget);
            && left <= budget
            && (res.Solved? ==>
                  && Sum(coins) <= MAX_UINT64 && Balances(s, coins, res.fee, res.change)
                  && (res.change > 0 ==> LeastFee(s, coins, res.fee)))
            && (res.Unsolvable? ==> forall f: nat, c: nat :: !Balances(s, coins, f, c))
  {
    if s.amount <= Sum(coins) && budget > 0 {
      var spare := Sum(coins) - s.amount;
      ScanCorrect(s, coins, spare, 0, Min(s.feeCap, spare), budget - 1);
    }
  }

  // ---------- listing to candidates ----------

  predicate ValidVtxo(v: Vtxo, pkScript: Blob) {
    |v.txid| == 32 && v.script == pkScript && v.valueSats <= MAX_INT64
  }

  function InputFee(est: Estimator, v: Vtxo): Option<nat> { Evaluate(est.evalInput(ArkFeeInput(v))) }

  /** A listed output that costs at least its value is dropped. */
  function ToCoins(est: Estimator, pkScript: Blob, vtxos: seq<Vtxo>, budget: nat): (r: Option<seq<Coin>>)
    ensures r.Some? ==> |vtxos| <= budget
  {
    if vtxos == [] then Some([])
    else
      var v := vtxos[0];
      if !ValidVtxo(v, pkScript) || budget == 0 || InputFee(est, v).None? then None
      else
        var rest := ToCoins(est, pkScript, vtxos[1..], budget - 1);
        if rest.None? then None
        else if InputFee(est, v).value >= v.valueSats then rest
        else Some([CoinOf(est, v)] + rest.value)
  }

  function CoinOf(est: Estimator, v: Vtxo): Coin
    requires InputFee(est, v).Some? && InputFee(est, v).value < v.valueSats
  {
    Coin(v.txid, v.vout, v.valueSats, ArkFeeInput(v), v.valueSats - InputFee(est, v).value)
  }

  function Outpoint(c: Coin): (Blob, nat) { (c.txid, c.vout) }

  /** Most valuable after its own fee first, then by outpoint. */
  predicate Better(a: Coin, b: Coin) {
    || a.effective > b.effective
    || (a.effective == b.effective && OutpointLess(a, b))
  }

  predicate OutpointLess(a: Coin, b: Coin) {
    BytesLess(a.txid, b.txid) || (a.txid == b.txid && a.vout < b.vout)
  }

  // ---------- the shortest solvable prefix ----------

  datatype Selection = Selected(coins: seq<Coin>, fee: nat, change: nat) | Insufficient | Refused

  function FirstSolvable(s: Spend, coins: seq<Coin>, count: nat, limit: nat, budget: nat): Selection
    requires limit <= |coins|
    decreases limit + 1 - count
  {
    if count > limit then Insufficient
    else
      var (res, left) := Solve(s, coins[..count], budget);
      match res
      case Solved(fee, change) => Selected(Sort(OutpointLess, coins[..count]), fee, change)
      case Failed => Refused
      case Unsolvable => FirstSolvable(s, coins, count + 1, limit, left)
  }

  lemma SortKeepsLength<T>(less: (T, T) -> bool, s: seq<T>)
    ensures |Sort(less, s)| == |s|
  {
    SortPermutes(less, s);
    assert |multiset(Sort(less, s))| == |Sort(less, s)| && |multiset(s)| == |s|;
  }

  function Select(s: Spend, vtxos: seq<Vtxo>): Selection {
    match ToCoins(s.est, s.changeScript, vtxos, MAX_FEE_EVALUATIONS)
    case None => Refused
    case Some(coins) =>
      if |coins| > 0xffff || !KeysDistinct(Outpoint, coins) then Refused
      else
        SortKeepsLength(Better, coins);
        FirstSolvable(s, Sort(Better, coins), 1, Min(|coins|, MAX_INPUTS), MAX_FEE_EVALUATIONS - |vtxos|)
  }

  ghost function Prepended(out: seq<Coin>, rest: Option<seq<Coin>>): Option<seq<Coin>> {
    if rest.Some? then Some(out + rest.value) else None
  }

  lemma PrependNothing(rest: Option<seq<Coin>>)
    ensures Prepended([], rest) == rest
  {
    if rest.Some? { assert [] + rest.value == rest.value; }
  }

  lemma PrependTwice(out: seq<Coin>, c: Coin, rest: Option<seq<Coin>>)
    ensures Prepended(out, Prepended([c], rest)) == Prepended(out + [c], rest)
  {
    if rest.Some? { assert out + ([c] + rest.value) == out + [c] + rest.value; }
  }

  /** vtxosToCoins. */
  method ListCoins(est: Estimator, pkScript: Blob, vtxos: seq<Vtxo>, budget: nat) returns (coins: Option<seq<Coin>>,
          left: nat)
    ensures coins == ToCoins(est, pkScript, vtxos, budget)
    ensures coins.Some? ==> left == budget - |vtxos|
  {
    left := budget;
    var out: seq<Coin> := [];
    var i := 0;
    assert vtxos[0..] == vtxos;
    PrependNothing(ToCoins(est, pkScript, vtxos, budget));
    while i < |vtxos|
      invariant 0 <= i <= |vtxos| && i + left == budget
      invariant var rest := ToCoins(est, pkScript, vtxos[i..], left);
                ToCoins(est, pkScript, vtxos, budget) == Prepended(out, rest)
    {
      var v := vtxos[i];
      assert vtxos[i..][1..] == vtxos[i + 1..];
      if !ValidVtxo(v, pkScript) || left == 0 { return None, left; }
      left := left - 1;
      var fee := InputFee(est, v);
      if fee.None? { return None, left; }
      if fee.value < v.valueSats {
        PrependTwice(out, CoinOf(est, v), ToCoins(est, pkScript, vtxos[i + 1..], left));
        out := out + [CoinOf(est, v)];
      }
      i := i + 1;
    }
    assert vtxos[i..] == [] && out + [] == out;
    return Some(out), left;
  }

  /** The prefix loop of selectSpendVtxos. */
  method SearchPrefixes(s: Spend, coins: seq<Coin>, limit: nat, budget: nat) returns (res: Selection)
    requires limit <= |coins|
    ensures res == FirstSolvable(s, coins, 1, limit, budget)
  {
    var left := budget;
    var count := 1;
    while count <= limit
      invariant 1 <= count <= limit + 1
      invariant FirstSolvable(s, coins, 1, limit, budget) == FirstSolvable(s, coins, count, limit, left)
    {
      var solved, after := SolveSpend(s, coins[..count], left);
      if solved.Failed? { return Refused; }
      if solved.Solved? { return Selected(Sort(OutpointLess, coins[..count]), solved.fee, solved.change); }
      left := after;
      count := count + 1;
    }
    return Insufficient;
  }

  /** selectSpendVtxos over one indexer listing. */
  method SelectSpend(s: Spend, vtxos: seq<Vtxo>) returns (res: Selection)
    ensures res == Select(s, vtxos)
  {
    var listed, budget := ListCoins(s.est, s.changeScript, vtxos, MAX_FEE_EVALUATIONS);
    if listed.None? || |listed.value| > 0xffff || !KeysDistinct(Outpoint, listed.value) { return Refused; }
    var coins := Sort(Better, listed.value);
    SortKeepsLength(Better, listed.value);
    res := SearchPrefixes(s, coins, Min(|coins|, MAX_INPUTS), budget);
  }

  // ---------- what a selection means ----------

  /** The candidates in the order they are considered. */
  function Ranked(s: Spend, vtxos: seq<Vtxo>): (r: seq<Coin>) {
    var coins := ToCoins(s.est, s.changeScript, vtxos, MAX_FEE_EVALUATIONS);
    if coins.None? then [] else Sort(Better, coins.value)
  }

  ghost predicate NothingBalances(s: Spend, coins: seq<Coin>) {
    forall f: nat, c: nat :: !Balances(s, coins, f, c)
  }

  /** No balance without change exists, and none with change has a smaller fee. */
  ghost predicate LeastFee(s: Spend, coins: seq<Coin>, fee: nat) {
    && (forall f: nat :: !Balances(s, coins, f, 0))
    && (forall f: nat, c: nat :: c > 0 && f < fee ==> !Balances(s, coins, f, c))
  }

  /** The selection is a rearrangement of the first `count` ranked coins. */
  ghost predicate ChosenPrefix(s: Spend, ranked: seq<Coin>, sel: Selection, count: nat) {
    && sel.Selected? && 1 <= count <= |ranked| && count <= MAX_INPUTS
    && multiset(sel.coins) == multiset(ranked[..count])
    && Balances(s, ranked[..count], sel.fee, sel.change)
    && Sum(sel.coins) == s.amount + sel.fee + sel.change <= MAX_UINT64
    && (sel.change > 0 ==> LeastFee(s, ranked[..count], sel.fee))
    && (forall k: nat :: 1 <= k < count ==> NothingBalances(s, ranked[..k]))
  }

  lemma {:induction false} SortSum(less: (Coin, Coin) -> bool, coins: seq<Coin>)
    ensures Sum(Sort(less, coins)) == Sum(coins)
  {
    if coins != [] {
      SortSum(less, coins[1..]);
      InsertSum(less, coins[0], Sort(less, coins[1..]));
    }
  }

  lemma {:induction false} InsertSum(less: (Coin, Coin) -> bool, x: Coin, coins: seq<Coin>)
    ensures Sum(Insert(less, x, coins)) == x.valueSats + Sum(coins)
    decreases |coins|
  {
    if coins == [] || less(x, coins[0]) {
      assert ([x] + coins)[1..] == coins;
    } else {
      InsertSum(less, x, coins[1..]);
      var t := Insert(less, x, coins[1..]);
      assert ([coins[0]] + t)[1..] == t;
    }
  }

  lemma {:induction false} FirstSolvableCorrect(s: Spend, coins: seq<Coin>, count: nat, limit: nat, budget: nat)
    requires 1 <= count && limit <= |coins| && limit <= MAX_INPUTS
    requires forall k: nat :: 1 <= k < count && k <= |coins| ==> NothingBalances(s, coins[..k])
    ensures var sel := FirstSolvable(s, coins, count, limit, budget);
            && (sel.Selected? ==> exists n: nat :: ChosenPrefix(s, coins, sel, n))
            && (sel.Insufficient? ==> forall k: nat :: 1 <= k <= limit ==> NothingBalances(s, coins[..k]))
    decreases limit + 1 - count
  {
    if count <= limit {
      var (res, left) := Solve(s, coins[..count], budget);
      SolveCorrect(s, coins[..count], budget);
      if res.Solved? {
        SortPermutes(OutpointLess, coins[..count]);
        SortSum(OutpointLess, coins[..count]);
        assert ChosenPrefix(s, coins, FirstSolvable(s, coins, count, limit, budget), count);
      } else if res.Unsolvable? {
        assert NothingBalances(s, coins[..count]);
        FirstSolvableCorrect(s, coins, count + 1, limit, left);
      }
    }
  }

  /** For any fee evaluator: a selection balances exactly, uses the shortest ranked prefix that can
      balance, and "insufficient" means that no prefix within the input limit balances. */
  lemma SelectCorrect(s: Spend, vtxos: seq<Vtxo>)
    ensures Select(s, vtxos).Selected? ==> exists n: nat :: ChosenPrefix(s, Ranked(s, vtxos), Select(s, vtxos), n)
    ensures Select(s, vtxos).Insufficient? ==>
              forall k: nat :: 1 <= k <= |Ranked(s, vtxos)| && k <= MAX_INPUTS ==>
                NothingBalances(s, Ranked(s, vtxos)[..k])
  {
    var listed := ToCoins(s.est, s.changeScript, vtxos, MAX_FEE_EVALUATIONS);
    if listed.Some? && |listed.value| <= 0xffff && KeysDistinct(Outpoint, listed.value) {
      var ranked := Ranked(s, vtxos);
      SortKeepsLength(Better, listed.value);
      RankedSearch(s, ranked, MAX_FEE_EVALUATIONS - |vtxos|);
      assert Select(s, vtxos) == FirstSolvable(s, ranked, 1, Min(|ranked|, MAX_INPUTS), MAX_FEE_EVALUATIONS - |vtxos|);
    }
  }

  lemma RankedSearch(s: Spend, ranked: seq<Coin>, budget: nat)
    ensures var sel := FirstSolvable(s, ranked, 1, Min(|ranked|, MAX_INPUTS), budget);
            && (sel.Selected? ==> exists n: nat :: ChosenPrefix(s, ranked, sel, n))
            && (sel.Insufficient? ==> forall k: nat :: 1 <= k <= |ranked| && k <= MAX_INPUTS ==>
               NothingBalances(s, ranked[..k]))
  {
    FirstSolvableCorrect(s, ranked, 1, Min(|ranked|, MAX_INPUTS), budget);
  }

  // ---------- the listing order does not matter ----------

  predicate Usable(est: Estimator, pkScript: Blob, v: Vtxo) { ValidVtxo(v, pkScript) && InputFee(est, v).Some? }

  ghost predicate AllUsable(est: Estimator, pkScript: Blob, vtxos: seq<Vtxo>) {
    forall v :: v in vtxos ==> Usable(est, pkScript, v)
  }

  ghost function Yield(est: Estimator, v: Vtxo): multiset<Coin> {
    if InputFee(est, v).Some? && InputFee(est, v).value < v.valueSats then multiset{CoinOf(est, v)} else multiset{}
  }

  ghost function Yields(est: Estimator, vtxos: seq<Vtxo>): multiset<Coin> {
    if vtxos == [] then multiset{} else Yield(est, vtxos[0]) + Yields(est, vtxos[1..])
  }

  /** A listing is accepted exactly when it fits the budget and every output in it is usable; its
      candidates are the outputs worth more than their own fee. */
  lemma {:induction false} ToCoinsMeans(est: Estimator, pkScript: Blob, vtxos: seq<Vtxo>, budget: nat)
    ensures var r := ToCoins(est, pkScript, vtxos, budget);
            && (r.Some? <==> |vtxos| <= budget && AllUsable(est, pkScript, vtxos))
            && (r.Some? ==> multiset(r.value) == Yields(est, vtxos))
  {
    if vtxos != [] {
      assert forall v :: v in vtxos <==> v == vtxos[0] || v in vtxos[1..];
      assert AllUsable(est, pkScript, vtxos) <==>
        Usable(est, pkScript, vtxos[0]) && AllUsable(est, pkScript, vtxos[1..]);
      if budget > 0 { ToCoinsMeans(est, pkScript, vtxos[1..], budget - 1); }
    }
  }

  lemma {:induction false} YieldsRemove(est: Estimator, vtxos: seq<Vtxo>, k: nat)
    requires k < |vtxos|
    ensures Yields(est, vtxos) == Yield(est, vtxos[k]) + Yields(est, vtxos[..k] + vtxos[k + 1..])
    decreases k
  {
    var others := vtxos[..k] + vtxos[k + 1..];
    if k == 0 {
      assert others == vtxos[1..];
    } else {
      assert others[1..] == vtxos[1..][..k - 1] + vtxos[1..][k..];
      YieldsRemove(est, vtxos[1..], k - 1);
    }
  }

  lemma Cancel<T>(x: T, m: multiset<T>, n: multiset<T>)
    requires multiset{x} + m == multiset{x} + n
    ensures m == n
  {
    assert m == (multiset{x} + m) - multiset{x};
    assert n == (multiset{x} + n) - multiset{x};
  }

  lemma MultisetWithout<T>(s: seq<T>, k: nat)
    requires k < |s|
    ensures multiset(s) == multiset{s[k]} + multiset(s[..k] + s[k + 1..])
  {
    assert s == s[..k] + ([s[k]] + s[k + 1..]);
  }

  lemma RemoveHead<T>(a: seq<T>, b: seq<T>) returns (k: nat)
    requires a != [] && multiset(a) == multiset(b)
    ensures k < |b| && b[k] == a[0] && multiset(a[1..]) == multiset(b[..k] + b[k + 1..])
  {
    assert a[0] in multiset(a) && a[0] in b;
    k :| 0 <= k < |b| && b[k] == a[0];
    MultisetWithout(b, k);
    assert a == [a[0]] + a[1..];
    Cancel(a[0], multiset(a[1..]), multiset(b[..k] + b[k + 1..]));
  }

  lemma {:induction false} YieldsForgetsOrder(est: Estimator, a: seq<Vtxo>, b: seq<Vtxo>)
    requires multiset(a) == multiset(b)
    ensures Yields(est, a) == Yields(est, b)
    decreases |a|
  {
    if a == [] {
      assert |multiset(a)| == |multiset(b)| == |b|;
    } else {
      var k := RemoveHead(a, b);
      YieldsForgetsOrder(est, a[1..], b[..k] + b[k + 1..]);
      YieldsRemove(est, b, k);
    }
  }

  lemma ToCoinsForgetsOrder(est: Estimator, pkScript: Blob, a: seq<Vtxo>, b: seq<Vtxo>, budget: nat)
    requires multiset(a) == multiset(b)
    ensures var x, y := ToCoins(est, pkScript, a, budget), ToCoins(est, pkScript, b, budget);
            (x.None? <==> y.None?) && (x.Some? ==> multiset(x.value) == multiset(y.value))
  {
    assert |multiset(a)| == |a| && |multiset(b)| == |b|;
    assert forall v :: v in a <==> v in multiset(a);
    assert forall v :: v in b <==> v in multiset(b);
    ToCoinsMeans(est, pkScript, a, budget);
    ToCoinsMeans(est, pkScript, b, budget);
    YieldsForgetsOrder(est, a, b);
  }

  lemma BetterOrders(m: multiset<Coin>)
    requires KeyedOn(Outpoint, m)
    ensures OrderOn(Better, m)
  {
    forall x, y | x in m && y in m && x != y ensures Better(x, y) || Better(y, x) {
      if x.txid != y.txid { BytesLessTotal(x.txid, y.txid); }
    }
    forall x, y, z | x in m && y in m && z in m && Better(x, y) && Better(y, z) ensures Better(x, z) {
      if BytesLess(x.txid, y.txid) && BytesLess(y.txid, z.txid) { BytesLessTransitive(x.txid, y.txid, z.txid); }
    }
    forall x, y | x in m && y in m ensures !(Better(x, y) && Better(y, x)) {
      BytesLessAsymmetric(x.txid, y.txid);
    }
  }

  /** Whatever order the indexer lists the outputs in, the selection is the same. */
  lemma SelectForgetsListingOrder(s: Spend, a: seq<Vtxo>, b: seq<Vtxo>)
    requires multiset(a) == multiset(b)
    ensures Select(s, a) == Select(s, b)
  {
    assert |multiset(a)| == |a| && |multiset(b)| == |b|;
    ToCoinsForgetsOrder(s.est, s.changeScript, a, b, MAX_FEE_EVALUATIONS);
    var x := ToCoins(s.est, s.changeScript, a, MAX_FEE_EVALUATIONS);
    var y := ToCoins(s.est, s.changeScript, b, MAX_FEE_EVALUATIONS);
    if x.Some? {
      assert |multiset(x.value)| == |x.value| && |multiset(y.value)| == |y.value|;
      KeysDistinctIff(Outpoint, x.value);
      KeysDistinctIff(Outpoint, y.value);
      if KeysDistinct(Outpoint, x.value) {
        BetterOrders(multiset(x.value));
        SortForgetsOrder(Better, x.value, y.value);
      }
    }
  }

  lemma {:induction false} ToCoinsValues(est: Estimator, pkScript: Blob, vtxos: seq<Vtxo>, budget: nat, c: Coin)
    requires ToCoins(est, pkScript, vtxos, budget).Some? && c in ToCoins(est, pkScript, vtxos, budget).value
    ensures c.valueSats <= MAX_INT64 && |c.txid| == 32
  {
    var v := vtxos[0];
    if InputFee(est, v).value >= v.valueSats || c != CoinOf(est, v) {
      ToCoinsValues(est, pkScript, vtxos[1..], budget - 1, c);
    }
  }

  /** A ranked coin is a listed output, so its value is a proper amount. */
  lemma RankedValues(s: Spend, vtxos: seq<Vtxo>, c: Coin)
    requires c in Ranked(s, vtxos)
    ensures c.valueSats <= MAX_INT64 && |c.txid| == 32
  {
    var coins := ToCoins(s.est, s.changeScript, vtxos, MAX_FEE_EVALUATIONS).value;
    SortPermutes(Better, coins);
    assert c in multiset(Sort(Better, coins)) && c in multiset(coins);
    ToCoinsValues(s.est, s.changeScript, vtxos, MAX_FEE_EVALUATIONS, c);
  }

  lemma OutpointOrders(m: multiset<Coin>)
    requires KeyedOn(Outpoint, m)
    ensures OrderOn(OutpointLess, m)
  {
    forall x, y | x in m && y in m && x != y ensures OutpointLess(x, y) || OutpointLess(y, x) {
      if x.txid != y.txid { BytesLessTotal(x.txid, y.txid); }
    }
    forall x, y, z | x in m && y in m && z in m && OutpointLess(x, y) && OutpointLess(y, z) ensures OutpointLess(x, z) {
      if BytesLess(x.txid, y.txid) && BytesLess(y.txid, z.txid) { BytesLessTransitive(x.txid, y.txid, z.txid); }
    }
    forall x, y | x in m && y in m ensures !(OutpointLess(x, y) && OutpointLess(y, x)) {
      BytesLessAsymmetric(x.txid, y.txid);
    }
  }

  lemma {:induction false} FirstSolvableSorted(s: Spend, coins: seq<Coin>, count: nat, limit: nat, budget: nat)
    requires limit <= |coins| && KeyedOn(Outpoint, multiset(coins))
    ensures var sel := FirstSolvable(s, coins, count, limit, budget); sel.Selected? ==> Sorted(OutpointLess, sel.coins)
    decreases limit + 1 - count
  {
    if count <= limit {
      var (res, left) := Solve(s, coins[..count], budget);
      if res.Solved? {
        OutpointOrders(multiset(coins));
        assert coins == coins[..count] + coins[count..];
        SortSorts(OutpointLess, coins[..count], multiset(coins));
      } else if res.Unsolvable? {
        FirstSolvableSorted(s, coins, count + 1, limit, left);
      }
    }
  }

  lemma RankedKeyed(coins: seq<Coin>)
    requires KeysDistinct(Outpoint, coins)
    ensures KeyedOn(Outpoint, multiset(Sort(Better, coins)))
  {
    KeysDistinctIff(Outpoint, coins);
    SortPermutes(Better, coins);
  }

  lemma RankedSorted(coins: seq<Coin>)
    requires KeysDistinct(Outpoint, coins)
    ensures Sorted(Better, Sort(Better, coins))
  {
    KeysDistinctIff(Outpoint, coins);
    BetterOrders(multiset(coins));
    SortSorts(Better, coins, multiset(coins));
  }

  lemma SelectionListed(s: Spend, vtxos: seq<Vtxo>)
    requires Select(s, vtxos).Selected?
    ensures var listed := ToCoins(s.est, s.changeScript, vtxos, MAX_FEE_EVALUATIONS);
            listed.Some? && KeysDistinct(Outpoint, listed.value)
  {
  }

  /** Candidates are considered by value after their own fee. */
  lemma RankedInOrder(s: Spend, vtxos: seq<Vtxo>)
    requires Select(s, vtxos).Selected?
    ensures Sorted(Better, Ranked(s, vtxos))
  {
    SelectionListed(s, vtxos);
    RankedSorted(ToCoins(s.est, s.changeScript, vtxos, MAX_FEE_EVALUATIONS).value);
  }

  lemma SearchSorted(s: Spend, coins: seq<Coin>, budget: nat)
    requires KeysDistinct(Outpoint, coins)
    ensures |Sort(Better, coins)| == |coins|
    ensures var sel := FirstSolvable(s, Sort(Better, coins), 1, Min(|coins|, MAX_INPUTS), budget);
            sel.Selected? ==> Sorted(OutpointLess, sel.coins)
  {
    SortKeepsLength(Better, coins);
    RankedKeyed(coins);
    FirstSolvableSorted(s, Sort(Better, coins), 1, Min(|coins|, MAX_INPUTS), budget);
  }

  /** The chosen coins are stored by outpoint. */
  lemma PickedInOrder(s: Spend, vtxos: seq<Vtxo>)
    requires Select(s, vtxos).Selected?
    ensures Sorted(OutpointLess, Select(s, vtxos).coins)
  {
    SelectionListed(s, vtxos);
    SearchSorted(s, ToCoins(s.est, s.changeScript, vtxos, MAX_FEE_EVALUATIONS).value, MAX_FEE_EVALUATIONS - |vtxos|);
  }
}
