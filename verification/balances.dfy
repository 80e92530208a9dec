/** The balances hook: reads the account's balance of each of the five USDC
    tokens on the hub chain, falls back to a zero record for a token whose
    read fails, and orders the list with non-zero balances first and then by
    symbol. */
module Balances {
  import opened Common

  /** Where a token comes from: an EVM chain id, or the string tag of a
      non-EVM chain (`"solana"`). */
  datatype Origin = ChainId(id: int) | NonEvm(tag: string)

  /** One entry of the fixed token list (its contract address is left out). */
  datatype Token = Token(symbol: string, name: string, network: string, origin: Origin)

  /** A token together with what was read for it. `balance` is in base units;
      the displayed `formattedBalance` is positive exactly when `balance` is. */
  datatype Entry = Entry(token: Token, balance: nat, decimals: nat, error: Option<string>)

  /** What reading one token's `balanceOf` and `decimals` gave. */
  datatype TokenRead = Fetched(balance: nat, decimals: nat) | ReadFailed(err: JsError)

  const TOKENS: seq<Token> := [
    Token("USDC.4", "USDC 4-pool LP Token", "ZetaChain", ChainId(ZETA)),
    Token("USDC.ARB", "USDC from Arbitrum", "Arbitrum", ChainId(ARBITRUM)),
    Token("USDC.SOL", "USDC from Solana", "Solana", NonEvm("solana")),
    Token("USDC.BASE", "USDC from Base", "Base", ChainId(BASE)),
    Token("USDC.AVAX", "USDC from Avalanche", "Avalanche", ChainId(AVAX))
  ]

  /** The record one token's read yields: the token's metadata with what was
      read, or, when a read threw, a zero balance with 18 decimals and the
      error's message. */
  function FetchOne(t: Token, read: TokenRead): (e: Entry)
    ensures e.token == t
    ensures read.ReadFailed? ==> e.balance == 0 && e.decimals == 18 && e.error == read.err.message
    ensures read.Fetched? ==> e.balance == read.balance && e.decimals == read.decimals && e.error == None
  {
    match read
    case Fetched(b, d) => Entry(t, b, d, None)
    case ReadFailed(err) => Entry(t, 0, 18, err.message)
  }

  /** The `Promise.all` over the token list: one record per token, in list
      order, each read independently. */
  function FetchAll(outcomes: seq<TokenRead>): (rs: seq<Entry>)
    requires |outcomes| == |TOKENS|
    ensures |rs| == |TOKENS|
    ensures forall i :: 0 <= i < |rs| ==> rs[i] == FetchOne(TOKENS[i], outcomes[i])
  {
    seq(|TOKENS|, i requires 0 <= i < |TOKENS| => FetchOne(TOKENS[i], outcomes[i]))
  }

  /** `formattedBalance > 0`. */
  predicate Positive(e: Entry) {
    e.balance > 0
  }

  /** `x.localeCompare(y)`, taken as lexicographic order on code points:
      negative, zero or positive. */
  function StrCompare(x: string, y: string): int
    decreases |x|
  {
    if x == [] && y == [] then 0
    else if x == [] then -1
    else if y == [] then 1
    else if x[0] < y[0] then -1
    else if x[0] > y[0] then 1
    else StrCompare(x[1..], y[1..])
  }

  lemma {:induction false} StrCompareAntisymmetric(x: string, y: string)
    ensures StrCompare(x, y) == -StrCompare(y, x)
    decreases |x|
  {
    if x != [] && y != [] && x[0] == y[0] {
      StrCompareAntisymmetric(x[1..], y[1..]);
    }
  }

  lemma {:induction false} StrCompareZeroIsEqual(x: string, y: string)
    ensures StrCompare(x, y) == 0 <==> x == y
    decreases |x|
  {
    if x != [] && y != [] && x[0] == y[0] {
      StrCompareZeroIsEqual(x[1..], y[1..]);
      assert x == [x[0]] + x[1..] && y == [y[0]] + y[1..];
    }
  }

  lemma {:induction false} StrCompareTransitive(x: string, y: string, z: string)
    requires StrCompare(x, y) <= 0 && StrCompare(y, z) <= 0
    ensures StrCompare(x, z) <= 0
    decreases |x|
  {
    if x != [] && y != [] && z != [] && x[0] == y[0] && y[0] == z[0] {
      StrCompareTransitive(x[1..], y[1..], z[1..]);
    }
  }

  /** The sort comparator: a non-zero balance before a zero one; otherwise by
      symbol. */
  function Compare(a: Entry, b: Entry): (c: int)
    ensures Positive(a) && !Positive(b) ==> c < 0
    ensures !Positive(a) && Positive(b) ==> c > 0
    ensures Positive(a) == Positive(b) ==> c == StrCompare(a.token.symbol, b.token.symbol)
  {
    if Positive(a) && !Positive(b) then -1
    else if !Positive(a) && Positive(b) then 1
    else StrCompare(a.token.symbol, b.token.symbol)
  }

  /** `a` may come before `b` in the sorted list. */
  predicate Le(a: Entry, b: Entry) {
    Compare(a, b) <= 0
  }

  /** The comparator is consistent: any two entries are ordered one way or
      the other, and the order is transitive, so the sort has a well-defined
      result. */
  lemma LeTotal(a: Entry, b: Entry)
    ensures Le(a, b) || Le(b, a)
  {
    StrCompareAntisymmetric(a.token.symbol, b.token.symbol);
  }

  lemma LeTransitive(a: Entry, b: Entry, c: Entry)
    requires Le(a, b) && Le(b, c)
    ensures Le(a, c)
  {
    if Positive(a) == Positive(b) && Positive(b) == Positive(c) {
      StrCompareTransitive(a.token.symbol, b.token.symbol, c.token.symbol);
    }
  }

  /** Neighbours are in comparator order. */
  predicate AdjacentSorted(s: seq<Entry>) {
    forall k :: 0 < k < |s| ==> Le(s[k - 1], s[k])
  }

  /** Every pair is in comparator order. */
  predicate Sorted(s: seq<Entry>) {
    forall i, j :: 0 <= i < j < |s| ==> Le(s[i], s[j])
  }

  lemma {:induction false} AdjacentSortedIsSorted(s: seq<Entry>)
    requires AdjacentSorted(s)
    ensures Sorted(s)
    decreases |s|
  {
    if |s| > 1 {
      var t := s[..|s| - 1];
      assert AdjacentSorted(t) by {
        forall k | 0 < k < |t| ensures Le(t[k - 1], t[k]) {
          assert t[k - 1] == s[k - 1] && t[k] == s[k];
        }
      }
      AdjacentSortedIsSorted(t);
      forall i, j | 0 <= i < j < |s| ensures Le(s[i], s[j]) {
        if j < |s| - 1 {
          assert s[i] == t[i] && s[j] == t[j];
        } else if i < j - 1 {
          assert Le(t[i], t[j - 1]);
          LeTransitive(s[i], s[j - 1], s[j]);
        }
      }
    }
  }

  /** In a sorted list every non-zero entry comes before every zero entry,
      and entries of the same kind are in symbol order. */
  lemma SortedMeansNonZeroFirstThenBySymbol(s: seq<Entry>, i: int, j: int)
    requires Sorted(s)
    requires 0 <= i < j < |s|
    ensures !(Positive(s[j]) && !Positive(s[i]))
    ensures Positive(s[i]) == Positive(s[j]) ==> StrCompare(s[i].token.symbol, s[j].token.symbol) <= 0
  {
    assert Le(s[i], s[j]);
  }

  /** `results.sort(comparator)`: reorders the records in place into
      comparator order. */
  method SortBalances(a: array<Entry>)
    modifies a
    ensures Sorted(a[..])
    ensures multiset(a[..]) == multiset(old(a[..]))
  {
    var i := 1;
    while i < a.Length
      invariant a.Length == 0 || 1 <= i <= a.Length
      invariant forall k :: 0 < k < i && k < a.Length ==> Le(a[k - 1], a[k])
      invariant multiset(a[..]) == multiset(old(a[..]))
    {
      SiftDown(a, i);
      i := i + 1;
    }
    assert AdjacentSorted(a[..]);
    AdjacentSortedIsSorted(a[..]);
  }

  /** Moves `a[i]` left past every neighbour that must follow it, extending
      the sorted prefix `a[..i]` to `a[..i + 1]`. */
  method SiftDown(a: array<Entry>, i: int)
    requires 0 < i < a.Length
    requires forall k :: 0 < k < i ==> Le(a[k - 1], a[k])
    modifies a
    ensures forall k :: 0 < k <= i ==> Le(a[k - 1], a[k])
    ensures multiset(a[..]) == multiset(old(a[..]))
  {
    var j := i;
    while j > 0 && !Le(a[j - 1], a[j])
      invariant 0 <= j <= i
      invariant forall k :: 0 < k <= i && k != j ==> Le(a[k - 1], a[k])
      invariant 0 < j < i ==> Le(a[j - 1], a[j + 1])
      invariant multiset(a[..]) == multiset(old(a[..]))
    {
      ghost var s := a[..];
      SwapKeepsOrder(s, i, j);
      a[j - 1], a[j] := a[j], a[j - 1];
      assert a[..] == s[j - 1 := s[j]][j := s[j - 1]];
      j := j - 1;
    }
  }

  /** Swapping an out-of-order pair at the hole `j` of an otherwise ordered
      prefix moves the hole to `j - 1`. */
  lemma SwapKeepsOrder(s: seq<Entry>, i: int, j: int)
    requires 0 < j <= i < |s|
    requires forall k :: 0 < k <= i && k != j ==> Le(s[k - 1], s[k])
    requires j < i ==> Le(s[j - 1], s[j + 1])
    requires !Le(s[j - 1], s[j])
    ensures var t := s[j - 1 := s[j]][j := s[j - 1]];
      (forall k :: 0 < k <= i && k != j - 1 ==> Le(t[k - 1], t[k])) &&
      (0 < j - 1 ==> Le(t[j - 2], t[j]))
  {
    LeTotal(s[j - 1], s[j]);
  }

  /** The state the hook returns. */
  class BalancesHook {
    var balances: seq<Entry>
    var loading: bool
    var error: Option<string>

    constructor ()
      ensures balances == [] && !loading && error == None
    {
      balances, loading, error := [], false, None;
    }

    /** The hook's effect, run when the account, the provider or the refresh
        trigger changes. Without an account or provider the list is emptied
        and nothing is read. Otherwise every token is read, a failed read
        yields its fallback record, and the list becomes the records in
        sorted order. */
    method Refresh(account: Option<string>, hasProvider: bool, outcomes: seq<TokenRead>)
      requires |outcomes| == |TOKENS|
      modifies this
      ensures !Truthy(account) || !hasProvider ==>
        balances == [] && loading == old(loading) && error == old(error)
      ensures Truthy(account) && hasProvider ==>
        !loading && error == old(error) &&
        multiset(balances) == multiset(FetchAll(outcomes)) && Sorted(balances)
    {
      if !Truthy(account) || !hasProvider {
        balances := [];
        return;
      }
      loading := true;
      var results := new Entry[|TOKENS|](i requires 0 <= i < |TOKENS| => FetchOne(TOKENS[i], outcomes[i]));
      assert results[..] == FetchAll(outcomes);
      SortBalances(results);
      balances := results[..];
      loading := false;
    }
  }

  /** The listed tokens come from five different chains. */
  lemma TokensDistinct(a: nat, b: nat)
    requires a < |TOKENS| && b < |TOKENS| && a != b
    ensures TOKENS[a].origin != TOKENS[b].origin
  {
  }

  /** A value at two positions of a sequence is counted at least twice. */
  lemma {:induction false} TwoPositionsCountTwice(s: seq<Entry>, i: nat, j: nat)
    requires i < j < |s| && s[i] == s[j]
    ensures multiset(s)[s[i]] >= 2
  {
    assert s == s[..j] + s[j..];
    assert s[i] == s[..j][i];
    assert s[j] == s[j..][0];
  }

  /** The fetched records carry the five tokens in list order, so each
      record occurs once among them. */
  lemma {:induction false} FetchedRecordCountedOnce(outcomes: seq<TokenRead>, k: nat)
    requires |outcomes| == |TOKENS| && k < |TOKENS|
    ensures multiset(FetchAll(outcomes))[FetchAll(outcomes)[k]] == 1
  {
    var rs := FetchAll(outcomes);
    assert rs == rs[..k] + [rs[k]] + rs[k + 1..];
    assert rs[k] !in rs[..k] && rs[k] !in rs[k + 1..] by {
      forall m | 0 <= m < |rs| && m != k ensures rs[m] != rs[k] {
        TokensDistinct(m, k);
      }
    }
  }

  /** After a refresh each of the five tokens appears exactly once: the list
      has five entries, each token is among them, and no two entries share a
      token. */
  lemma RefreshListsEachTokenOnce(outcomes: seq<TokenRead>, balances: seq<Entry>, t: Token)
    requires |outcomes| == |TOKENS|
    requires multiset(balances) == multiset(FetchAll(outcomes))
    ensures |balances| == |TOKENS|
    ensures t in TOKENS ==> exists i :: 0 <= i < |balances| && balances[i].token == t
    ensures forall i, j :: 0 <= i < j < |balances| ==> balances[i].token != balances[j].token
  {
    var rs := FetchAll(outcomes);
    assert |balances| == |multiset(balances)| == |rs|;
    if t in TOKENS {
      var k :| 0 <= k < |TOKENS| && TOKENS[k] == t;
      assert rs[k] in multiset(balances);
      var i :| 0 <= i < |balances| && balances[i] == rs[k];
    }
    forall i, j | 0 <= i < j < |balances|
      ensures balances[i].token != balances[j].token
    {
      assert balances[i] in multiset(rs) && balances[j] in multiset(rs);
      var ki :| 0 <= ki < |rs| && rs[ki] == balances[i];
      var kj :| 0 <= kj < |rs| && rs[kj] == balances[j];
      if ki != kj {
        TokensDistinct(ki, kj);
      } else {
        TwoPositionsCountTwice(balances, i, j);
        FetchedRecordCountedOnce(outcomes, ki);
        assert false;
      }
    }
  }
}
