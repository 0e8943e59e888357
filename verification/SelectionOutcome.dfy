/** When a coin selection succeeds, fails and is refused, counted in fee evaluations.

    For one prefix of the ranked coins the solver asks for the fee without change first, and then for
    change of the whole surplus, the surplus less one satoshi, and so on while the candidate fee is
    within the cap and the change is not dust. Question number 0 is the one without change; question
    number f + 1 is the one with candidate fee f.
 */
module SelectionOutcome {
  import opened Prelude
  import opened Ordering
  import opened CoinSelection

  // ---------- the questions of one prefix ----------

  /** How many questions a search without success asks; none for coins that cannot pay the amount. */
  function Questions(s: Spend, coins: seq<Coin>): nat {
    if Sum(coins) < s.amount then 0
    else
      var spare := Sum(coins) - s.amount;
      if spare < 330 then 1 else 2 + Min(s.feeCap, spare - 330)
  }

  function Reply(s: Spend, coins: seq<Coin>, q: nat): Option<nat>
    requires q < Questions(s, coins)
  {
    if q == 0 then NoChangeFee(s, coins) else ChangeFee(s, coins, Sum(coins) - s.amount - (q - 1))
  }

  /** The reply closes the balance: without change it takes the whole surplus, within the cap; with
      change it is the candidate itself. */
  predicate Closes(s: Spend, coins: seq<Coin>, q: nat)
    requires q < Questions(s, coins)
  {
    if q == 0 then Reply(s, coins, 0) == Some(Sum(coins) - s.amount) && Sum(coins) - s.amount <= s.feeCap
    else Reply(s, coins, q) == Some(q - 1)
  }

  /** Exactly the balances of these coins are asked for. */
  lemma ClosesIffBalances(s: Spend, coins: seq<Coin>, fee: nat, change: nat)
    ensures Balances(s, coins, fee, change) <==>
            && Sum(coins) == s.amount + fee + change
            && var q := if change == 0 then 0 else fee + 1; q < Questions(s, coins) && Closes(s, coins, q)
  {
  }

  ghost predicate OpenBefore(s: Spend, coins: seq<Coin>, q: nat) {
    forall i: nat :: i < q && i < Questions(s, coins) ==> !Closes(s, coins, i)
  }

  /** Nothing closes before question q, which fails or comes after `budget` questions in all, `asked` of
      them for other coins. */
  ghost predicate StopsAt(s: Spend, coins: seq<Coin>, asked: nat, budget: nat, q: nat) {
    q < Questions(s, coins) && OpenBefore(s, coins, q) && (asked + q >= budget || Reply(s, coins, q).None?)
  }

  ghost predicate Stops(s: Spend, coins: seq<Coin>, asked: nat, budget: nat) {
    Sum(coins) > 0xffff_ffff_ffff_ffff || exists q: nat :: StopsAt(s, coins, asked, budget, q)
  }

  lemma OpenIffNothingBalances(s: Spend, coins: seq<Coin>)
    ensures OpenBefore(s, coins, Questions(s, coins)) <==> NothingBalances(s, coins)
  {
    if OpenBefore(s, coins, Questions(s, coins)) {
      forall f: nat, c: nat ensures !Balances(s, coins, f, c) { ClosesIffBalances(s, coins, f, c); }
    } else {
      var q: nat :| q < Questions(s, coins) && Closes(s, coins, q);
      var fee := if q == 0 then Sum(coins) - s.amount else q - 1;
      ClosesIffBalances(s, coins, fee, Sum(coins) - s.amount - fee);
    }
  }

  // ---------- the solver follows the questions ----------

  /** Candidates that would leave dust are passed over without a question. */
  lemma {:induction false} ScanDust(s: Spend, coins: seq<Coin>, spare: nat, candidate: nat, last: nat, left: nat)
    requires last <= spare && spare < candidate + 330
    ensures Scan(s, coins, spare, candidate, last, left) == (Unsolvable, left)
    decreases last + 1 - candidate
  {
    if candidate <= last { ScanDust(s, coins, spare, candidate + 1, last, left); }
  }

  /** The scan from `candidate` on, when that many questions and the first one were asked in vain. */
  lemma {:induction false} ScanFollows(
      s: Spend, coins: seq<Coin>, spare: nat, candidate: nat, asked: nat, budget: nat)
    requires Sum(coins) == s.amount + spare && asked + candidate + 1 <= budget
    requires candidate + 1 <= Questions(s, coins) && OpenBefore(s, coins, candidate + 1)
    ensures var (res, left) :=
              Scan(s, coins, spare, candidate, Min(s.feeCap, spare), budget - asked - candidate - 1);
            && (res.Failed? <==> exists q: nat :: candidate < q && StopsAt(s, coins, asked, budget, q))
            && (res.Unsolvable? ==>
                  OpenBefore(s, coins, Questions(s, coins)) && left == budget - asked - Questions(s, coins))
    decreases Questions(s, coins) - candidate
  {
    var n, last, left := Questions(s, coins), Min(s.feeCap, spare), budget - asked - candidate - 1;
    if candidate + 1 == n {
      if candidate <= last { ScanDust(s, coins, spare, candidate, last, left); }
    } else {
      var reply := ChangeFee(s, coins, spare - candidate);
      assert reply == Reply(s, coins, candidate + 1);
      if left == 0 || reply.None? {
        assert StopsAt(s, coins, asked, budget, candidate + 1);
      } else if reply.value == candidate {
        assert Closes(s, coins, candidate + 1);
      } else {
        ScanFollows(s, coins, spare, candidate + 1, asked, budget);
      }
    }
  }

  /** The solver on one prefix, after `asked` questions for others. */
  lemma SolveFollows(s: Spend, coins: seq<Coin>, asked: nat, budget: nat)
    requires asked <= budget
    ensures var (res, left) := Solve(s, coins, budget - asked);
            && (res.Failed? <==> Stops(s, coins, asked, budget))
            && (res.Unsolvable? ==> NothingBalances(s, coins) && left == budget - asked - Questions(s, coins))
            && (res.Solved? ==> !NothingBalances(s, coins))
  {
    SolveCorrect(s, coins, budget - asked);
    if s.amount <= Sum(coins) <= MAX_UINT64 {
      var spare := Sum(coins) - s.amount;
      OpenIffNothingBalances(s, coins);
      assert Reply(s, coins, 0) == NoChangeFee(s, coins);
      if asked == budget || NoChangeFee(s, coins).None? {
        assert StopsAt(s, coins, asked, budget, 0);
      } else if NoChangeFee(s, coins).value <= s.feeCap && spare == NoChangeFee(s, coins).value {
        assert Closes(s, coins, 0);
      } else {
        ScanFollows(s, coins, spare, 0, asked, budget);
      }
    }
  }

  // ---------- growing prefixes under one budget ----------

  /** The questions of the first k prefixes together. */
  function Asked(s: Spend, coins: seq<Coin>, k: nat): nat
    requires k <= |coins|
  {
    if k == 0 then 0 else Asked(s, coins, k - 1) + Questions(s, coins[..k])
  }

  /** Nothing balances before prefix k, and prefix k overflows, or stops before it balances. */
  ghost predicate Troubled(s: Spend, coins: seq<Coin>, k: nat, budget: nat) {
    && 1 <= k <= |coins| && k <= 50
    && (forall i: nat :: 1 <= i < k ==> NothingBalances(s, coins[..i]))
    && Stops(s, coins[..k], Asked(s, coins, k - 1), budget)
  }

  lemma {:induction false} SearchFollows(s: Spend, coins: seq<Coin>, count: nat, limit: nat, budget: nat)
    requires 1 <= count <= limit + 1 && limit <= |coins| && limit <= 50 && Asked(s, coins, count - 1) <= budget
    requires forall i: nat :: 1 <= i < count ==> NothingBalances(s, coins[..i])
    ensures FirstSolvable(s, coins, count, limit, budget - Asked(s, coins, count - 1)).Refused? <==>
            exists k: nat :: count <= k <= limit && Troubled(s, coins, k, budget)
    decreases limit + 1 - count
  {
    if count <= limit {
      var asked := Asked(s, coins, count - 1);
      var (res, left) := Solve(s, coins[..count], budget - asked);
      SolveFollows(s, coins[..count], asked, budget);
      if res.Failed? {
        assert Troubled(s, coins, count, budget);
      } else if res.Unsolvable? {
        SearchFollows(s, coins, count + 1, limit, budget);
      }
    }
  }

  // ---------- the listing ----------

  /** A listed output of the vault with a proper value and a usable fee of its own. */
  predicate Listable(s: Spend, v: Vtxo) {
    |v.txid| == 32 && v.script == s.changeScript && v.valueSats <= 0x7fff_ffff_ffff_ffff && InputFee(s.est, v).Some?
  }

  /** It is worth more than its own fee. */
  predicate Worth(s: Spend, v: Vtxo) { InputFee(s.est, v).Some? && InputFee(s.est, v).value < v.valueSats }

  ghost predicate Repeats(s: Spend, vtxos: seq<Vtxo>) {
    exists i, j :: SameOutpoint(s, vtxos, i, j)
  }

  predicate SameOutpoint(s: Spend, vtxos: seq<Vtxo>, i: int, j: int) {
    && 0 <= i < j < |vtxos| && Worth(s, vtxos[i]) && Worth(s, vtxos[j])
    && vtxos[i].txid == vtxos[j].txid && vtxos[i].vout == vtxos[j].vout
  }

  /** The listing is within the budget, every output in it is usable, and none worth its fee is repeated. */
  ghost predicate GoodListing(s: Spend, vtxos: seq<Vtxo>) {
    |vtxos| <= 20_000 && (forall v :: v in vtxos ==> Listable(s, v)) && !Repeats(s, vtxos)
  }

  ghost predicate IsCandidate(s: Spend, vtxos: seq<Vtxo>, c: Coin) {
    exists v :: v in vtxos && Worth(s, v) && IsCoinOf(s, v, c)
  }

  /** Its effective value is what is left after its own fee. */
  predicate IsCoinOf(s: Spend, v: Vtxo, c: Coin)
    requires Worth(s, v)
  {
    && c.txid == v.txid && c.vout == v.vout && c.valueSats == v.valueSats
    && c.feeInput == ArkFeeInput(v) && c.effective == v.valueSats - InputFee(s.est, v).value
  }

  /** The candidates are exactly the listed outputs worth more than their fee. */
  lemma {:induction false} CandidatesAre(s: Spend, vtxos: seq<Vtxo>, budget: nat, c: Coin)
    requires ToCoins(s.est, s.changeScript, vtxos, budget).Some?
    ensures c in ToCoins(s.est, s.changeScript, vtxos, budget).value <==> IsCandidate(s, vtxos, c)
    decreases |vtxos|
  {
    if vtxos != [] {
      assert forall v :: v in vtxos <==> v == vtxos[0] || v in vtxos[1..];
      CandidatesAre(s, vtxos[1..], budget - 1, c);
      if Worth(s, vtxos[0]) { assert IsCoinOf(s, vtxos[0], CoinOf(s.est, vtxos[0])); }
    }
  }

  ghost predicate RepeatsHead(s: Spend, v: Vtxo, rest: seq<Vtxo>) {
    Worth(s, v) && exists u :: u in rest && Worth(s, u) && u.txid == v.txid && u.vout == v.vout
  }

  lemma RepeatsStep(s: Spend, vtxos: seq<Vtxo>)
    requires vtxos != []
    ensures Repeats(s, vtxos) <==> RepeatsHead(s, vtxos[0], vtxos[1..]) || Repeats(s, vtxos[1..])
  {
    var rest := vtxos[1..];
    if Repeats(s, vtxos) {
      var i, j :| SameOutpoint(s, vtxos, i, j);
      if i > 0 {
        assert SameOutpoint(s, rest, i - 1, j - 1);
      } else {
        assert vtxos[j] == rest[j - 1] && vtxos[j] in rest;
      }
    }
    if Repeats(s, rest) {
      var i, j :| SameOutpoint(s, rest, i, j);
      assert SameOutpoint(s, vtxos, i + 1, j + 1);
    }
    if RepeatsHead(s, vtxos[0], rest) {
      var u :| u in rest && Worth(s, u) && u.txid == vtxos[0].txid && u.vout == vtxos[0].vout;
      var j :| 0 <= j < |rest| && rest[j] == u;
      assert SameOutpoint(s, vtxos, 0, j + 1);
    }
  }

  lemma DistinctStep(c: Coin, rest: seq<Coin>)
    ensures KeysDistinct(Outpoint, [c] + rest) <==>
            KeysDistinct(Outpoint, rest) && forall d :: d in rest ==> Outpoint(d) != Outpoint(c)
  {
    var all := [c] + rest;
    assert forall i :: 0 <= i < |rest| ==> all[i + 1] == rest[i];
    if KeysDistinct(Outpoint, all) {
      forall d | d in rest ensures Outpoint(d) != Outpoint(c) {
        var i :| 0 <= i < |rest| && rest[i] == d;
        assert Outpoint(all[0]) != Outpoint(all[i + 1]);
      }
      forall i, j | 0 <= i < j < |rest| ensures Outpoint(rest[i]) != Outpoint(rest[j]) {
        assert Outpoint(all[i + 1]) != Outpoint(all[j + 1]);
      }
    }
  }

  lemma HeadRepeats(s: Spend, v: Vtxo, rest: seq<Vtxo>, budget: nat)
    requires ToCoins(s.est, s.changeScript, rest, budget).Some? && Worth(s, v)
    ensures RepeatsHead(s, v, rest) <==>
            exists d :: d in ToCoins(s.est, s.changeScript, rest, budget).value && Outpoint(d) == (v.txid, v.vout)
  {
    var coins := ToCoins(s.est, s.changeScript, rest, budget).value;
    if RepeatsHead(s, v, rest) {
      var u :| u in rest && Worth(s, u) && u.txid == v.txid && u.vout == v.vout;
      CandidatesAre(s, rest, budget, CoinOf(s.est, u));
      assert IsCoinOf(s, u, CoinOf(s.est, u));
      assert CoinOf(s.est, u) in coins;
    } else {
      forall d | d in coins ensures Outpoint(d) != (v.txid, v.vout) { CandidatesAre(s, rest, budget, d); }
    }
  }

  lemma {:induction false} DistinctIffNoRepeats(s: Spend, vtxos: seq<Vtxo>, budget: nat)
    requires ToCoins(s.est, s.changeScript, vtxos, budget).Some?
    ensures KeysDistinct(Outpoint, ToCoins(s.est, s.changeScript, vtxos, budget).value) <==> !Repeats(s, vtxos)
    decreases |vtxos|
  {
    if vtxos != [] {
      var v, rest := vtxos[0], vtxos[1..];
      DistinctIffNoRepeats(s, rest, budget - 1);
      RepeatsStep(s, vtxos);
      if Worth(s, v) {
        HeadRepeats(s, v, rest, budget - 1);
        DistinctStep(CoinOf(s.est, v), ToCoins(s.est, s.changeScript, rest, budget - 1).value);
      }
    }
  }

  lemma {:induction false} FewerCoins(s: Spend, vtxos: seq<Vtxo>, budget: nat)
    requires ToCoins(s.est, s.changeScript, vtxos, budget).Some?
    ensures |ToCoins(s.est, s.changeScript, vtxos, budget).value| <= |vtxos|
    decreases |vtxos|
  {
    if vtxos != [] { FewerCoins(s, vtxos[1..], budget - 1); }
  }

  lemma ListingIff(s: Spend, vtxos: seq<Vtxo>)
    ensures var listed := ToCoins(s.est, s.changeScript, vtxos, MAX_FEE_EVALUATIONS);
            GoodListing(s, vtxos) <==>
            listed.Some? && |listed.value| <= 0xffff && KeysDistinct(Outpoint, listed.value)
  {
    ToCoinsMeans(s.est, s.changeScript, vtxos, MAX_FEE_EVALUATIONS);
    assert AllUsable(s.est, s.changeScript, vtxos) <==> forall v :: v in vtxos ==> Listable(s, v);
    if ToCoins(s.est, s.changeScript, vtxos, MAX_FEE_EVALUATIONS).Some? {
      FewerCoins(s, vtxos, MAX_FEE_EVALUATIONS);
      DistinctIffNoRepeats(s, vtxos, MAX_FEE_EVALUATIONS);
    }
  }

  // ---------- the three answers ----------

  /** Some prefix of the ranking within the input limit balances. */
  ghost predicate CanBalance(s: Spend, ranked: seq<Coin>) {
    exists k: nat :: 1 <= k <= |ranked| && k <= 50 && !NothingBalances(s, ranked[..k])
  }

  ghost predicate SomeTroubled(s: Spend, ranked: seq<Coin>, budget: nat) {
    exists k: nat :: Troubled(s, ranked, k, budget)
  }

  /** The fee of each listed output is the first use of the 20000 evaluations. */
  ghost predicate IsTroubled(s: Spend, vtxos: seq<Vtxo>) {
    |vtxos| <= 20_000 && SomeTroubled(s, Ranked(s, vtxos), 20_000 - |vtxos|)
  }

  lemma RefusedIff(s: Spend, vtxos: seq<Vtxo>)
    ensures Select(s, vtxos).Refused? <==> !GoodListing(s, vtxos) || IsTroubled(s, vtxos)
  {
    ListingIff(s, vtxos);
    if GoodListing(s, vtxos) {
      var coins := ToCoins(s.est, s.changeScript, vtxos, MAX_FEE_EVALUATIONS).value;
      SortKeepsLength(Better, coins);
      SearchFromStart(s, Ranked(s, vtxos), 20_000 - |vtxos|);
    }
  }

  lemma SearchFromStart(s: Spend, ranked: seq<Coin>, budget: nat)
    ensures FirstSolvable(s, ranked, 1, Min(|ranked|, MAX_INPUTS), budget).Refused? <==> SomeTroubled(s, ranked, budget)
  {
    SearchFollows(s, ranked, 1, Min(|ranked|, MAX_INPUTS), budget);
  }

  /** Exactly when a selection is refused, made or found insufficient, for any fee evaluator: it is refused
      when the listing is over 20000 outputs, has an unusable one or repeats one worth its fee, or when,
      with nothing balancing before, some prefix overflows 64 bits, meets a failed evaluation or runs out
      of the 20000 evaluations before it balances. Otherwise it is made exactly when some prefix of at most
      50 coins balances. */
  lemma SelectIff(s: Spend, vtxos: seq<Vtxo>)
    ensures var refused := !GoodListing(s, vtxos) || IsTroubled(s, vtxos);
            && (Select(s, vtxos).Refused? <==> refused)
            && (Select(s, vtxos).Selected? <==> !refused && CanBalance(s, Ranked(s, vtxos)))
            && (Select(s, vtxos).Insufficient? <==> !refused && !CanBalance(s, Ranked(s, vtxos)))
  {
    RefusedIff(s, vtxos);
    SelectCorrect(s, vtxos);
    if Select(s, vtxos).Selected? {
      var n: nat :| ChosenPrefix(s, Ranked(s, vtxos), Select(s, vtxos), n);
      assert !NothingBalances(s, Ranked(s, vtxos)[..n]);
    }
  }

  // ---------- enough is selected ----------

  /** Every question about the first n prefixes has a usable answer. */
  ghost predicate Answers(s: Spend, coins: seq<Coin>, n: nat)
    requires n <= |coins|
  {
    forall k: nat, q: nat :: 1 <= k <= n && q < Questions(s, coins[..k]) ==> Reply(s, coins[..k], q).Some?
  }

  lemma {:induction false} AskedGrows(s: Spend, coins: seq<Coin>, k: nat, n: nat)
    requires k <= n <= |coins|
    ensures Asked(s, coins, k) <= Asked(s, coins, n)
    decreases n
  {
    if k < n { AskedGrows(s, coins, k, n - 1); }
  }

  lemma NotTroubled(s: Spend, coins: seq<Coin>, n: nat, k: nat, budget: nat)
    requires 1 <= n <= |coins| && !NothingBalances(s, coins[..n]) && Answers(s, coins, n)
    requires Sum(coins[..n]) <= 0xffff_ffff_ffff_ffff && Asked(s, coins, n) <= budget
    ensures !Troubled(s, coins, k, budget)
  {
    if 1 <= k <= n {
      assert coins[..n][..k] == coins[..k];
      SumPrefix(coins[..n], k);
      AskedGrows(s, coins, k, n);
      NeverStops(s, coins[..k], Asked(s, coins, k - 1), budget);
    }
  }

  lemma NeverStops(s: Spend, coins: seq<Coin>, asked: nat, budget: nat)
    requires forall q: nat :: q < Questions(s, coins) ==> Reply(s, coins, q).Some?
    requires asked + Questions(s, coins) <= budget && Sum(coins) <= 0xffff_ffff_ffff_ffff
    ensures !Stops(s, coins, asked, budget)
  {
  }

  /** When some prefix of at most 50 coins balances without overflow, every evaluation up to it succeeds
      and they are within the budget, the answer is a selection. */
  lemma EnoughIsSelected(s: Spend, vtxos: seq<Vtxo>, n: nat)
    requires GoodListing(s, vtxos) && 1 <= n <= |Ranked(s, vtxos)| && n <= 50
    requires var ranked := Ranked(s, vtxos);
             && !NothingBalances(s, ranked[..n]) && Answers(s, ranked, n)
             && Sum(ranked[..n]) <= 0xffff_ffff_ffff_ffff && |vtxos| + Asked(s, ranked, n) <= 20_000
    ensures Select(s, vtxos).Selected?
  {
    var ranked, budget := Ranked(s, vtxos), 20_000 - |vtxos|;
    forall k: nat ensures !Troubled(s, ranked, k, budget) { NotTroubled(s, ranked, n, k, budget); }
    SelectIff(s, vtxos);
  }

  // ---------- ranking and rounding, spelled out ----------

  /** The ranking lists exactly the candidates, by what they are worth after their fee, then transaction
      id, then index. */
  lemma RankingIs(s: Spend, vtxos: seq<Vtxo>)
    requires GoodListing(s, vtxos)
    ensures var r := Ranked(s, vtxos);
            && (forall c :: c in r <==> IsCandidate(s, vtxos, c))
            && (forall i, j :: 0 <= i < j < |r| ==>
                  || r[i].effective > r[j].effective
                  || (r[i].effective == r[j].effective && ComesFirst(r[i].txid, r[j].txid))
                  || (r[i].effective == r[j].effective && r[i].txid == r[j].txid && r[i].vout < r[j].vout))
  {
    ListingIff(s, vtxos);
    var coins, r := ToCoins(s.est, s.changeScript, vtxos, MAX_FEE_EVALUATIONS).value, Ranked(s, vtxos);
    RankedSorted(coins);
    SortPermutes(Better, coins);
    forall c ensures c in r <==> c in coins { assert c in multiset(r) <==> c in multiset(coins); }
    forall c ensures c in coins <==> IsCandidate(s, vtxos, c) {
      CandidatesAre(s, vtxos, MAX_FEE_EVALUATIONS, c);
    }
    forall i, j | 0 <= i < j < |r| && BytesLess(r[i].txid, r[j].txid) ensures ComesFirst(r[i].txid, r[j].txid) {
      BytesLessIff(r[i].txid, r[j].txid);
    }
  }

  /** The evaluator's answer asks for this many satoshis: the least whole number not below a finite,
      non-negative result, within a signed 64-bit amount. */
  predicate AsksFor(answer: Option<FeeAmount>, sats: nat) {
    && answer.Some? && answer.value.Finite? && answer.value.value >= 0.0 && sats <= 0x7fff_ffff_ffff_ffff
    && answer.value.value <= sats as real && (sats as real) - 1.0 < answer.value.value
  }

  lemma FeeRoundsUp(answer: Option<FeeAmount>, sats: nat)
    ensures Evaluate(answer) == Some(sats) <==> AsksFor(answer, sats)
  {
    if answer.Some? && answer.value.Finite? { CeilIs(answer.value.value, sats); }
  }

  lemma CeilIs(r: real, n: int)
    ensures Ceil(r) == n <==> r <= n as real && (n as real) - 1.0 < r
  {
    assert r.Floor as real <= r < (r.Floor + 1) as real;
  }

  /** A balance in full: the inputs pay exactly amount, fee and change, and the fee is what the evaluator
      asks for these inputs with the payment first and the change, if any, second. */
  lemma BalancesMeans(s: Spend, coins: seq<Coin>, fee: nat, change: nat)
    ensures var ins := seq(|coins|, i requires 0 <= i < |coins| => coins[i].feeInput);
            Balances(s, coins, fee, change) <==>
            && Sum(coins) == s.amount + fee + change && fee <= s.feeCap && (change == 0 || change >= 330)
            && AsksFor(s.est.eval(ins, [Output(s.amount, s.destScript)] +
                                       if change == 0 then [] else [Output(change, s.changeScript)]), fee)
  {
    var pay, back := Output(s.amount, s.destScript), Output(change, s.changeScript);
    assert FeeInputs(coins) == seq(|coins|, i requires 0 <= i < |coins| => coins[i].feeInput);
    assert [pay] + [] == [pay] && [pay] + [back] == [pay, back];
    FeeRoundsUp(s.est.eval(FeeInputs(coins), [pay]), fee);
    FeeRoundsUp(s.est.eval(FeeInputs(coins), [pay, back]), fee);
  }

  /** An output's own fee is asked for its value, its times and its kind: recoverable if it was swept, else
      a note if no commitment stands behind it. */
  lemma InputFeeMeans(est: Estimator, v: Vtxo, sats: nat)
    ensures var kind := if v.swept then Recoverable else if v.commitments == 0 then Note else Plain;
            InputFee(est, v) == Some(sats) <==>
            AsksFor(est.evalInput(FeeInput(v.valueSats, v.createdAt, v.expiresAt, kind)), sats)
  {
    FeeRoundsUp(est.evalInput(ArkFeeInput(v)), sats);
  }
}
