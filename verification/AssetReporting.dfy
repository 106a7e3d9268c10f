/**
 A day of transfers turned into per-currency totals (services/compliance/asset_reporting.go).
 */
module AssetReporting {
  import opened Wrappers
  import opened Decimals

  /** A transfer; no amount or no symbol means nobody could tell what moved. */
  datatype Transaction = Transaction(id: string, symbol: string, amount: Option<int>, decimals: nat, peg: string)

  /** Where a transfer is reported. */
  datatype Place = Undecoded | InCurrency(code: string) | Unvalued(symbol: string)

  /** `priced` is whether there is a price for the native coin. */
  function PlaceOf(tx: Transaction, priced: bool): Place {
    if tx.amount.None? || tx.symbol == "" then Undecoded
    else if tx.symbol == "NATIVE" then (if priced then InCurrency("USD") else Unvalued("NATIVE"))
    else if tx.peg == "" then Unvalued(tx.symbol)
    else InCurrency(tx.peg)
  }

  /** One currency's totals by asset, and its transactions. */
  datatype Aggregate = Aggregate(byAsset: map<string, string>, ids: seq<string>)

  datatype Books = Books(undecoded: seq<string>, currencies: map<string, Aggregate>, unvalued: set<string>)

  function Total(a: Aggregate, symbol: string): string {
    if symbol in a.byAsset then a.byAsset[symbol] else ""
  }

  function Current(b: Books, code: string): Aggregate {
    if code in b.currencies then b.currencies[code] else Aggregate(map[], [])
  }

  /** How a written total is added to, and what it should read for a sum. */
  type Adder = (string, int, nat) -> string
  type Rendering = int -> string

  function WithTransfer(add: Adder, a: Aggregate, tx: Transaction): Aggregate
    requires tx.amount.Some?
  {
    Aggregate(a.byAsset[tx.symbol := add(Total(a, tx.symbol), tx.amount.value, tx.decimals)], a.ids + [tx.id])
  }

  function Booked(add: Adder, b: Books, tx: Transaction, priced: bool): Books {
    match PlaceOf(tx, priced)
    case Undecoded => b.(undecoded := b.undecoded + [tx.id])
    case InCurrency(code) => b.(currencies := b.currencies[code := WithTransfer(add, Current(b, code), tx)])
    case Unvalued(symbol) => b.(unvalued := b.unvalued + {symbol})
  }

  /** The books of a day's transfers; the code adds to totals by `Added`. */
  function BooksOf(add: Adder, txs: seq<Transaction>, priced: bool): Books {
    if txs == [] then Books([], map[], {}) else Booked(add, BooksOf(add, txs[..|txs| - 1], priced), txs[|txs| - 1], priced)
  }

  // ---- what the books hold ----

  /** The transactions reported at a place, in order. */
  function IdsAt(txs: seq<Transaction>, priced: bool, place: Place): seq<string> {
    if txs == [] then []
    else
      var tx := txs[|txs| - 1];
      IdsAt(txs[..|txs| - 1], priced, place) + if PlaceOf(tx, priced) == place then [tx.id] else []
  }

  predicate Moves(tx: Transaction, priced: bool, code: string, symbol: string) {
    PlaceOf(tx, priced) == InCurrency(code) && tx.symbol == symbol
  }

  /** How much of an asset moved in a currency, in base units. */
  function Sum(txs: seq<Transaction>, priced: bool, code: string, symbol: string): int {
    if txs == [] then 0
    else
      var tx := txs[|txs| - 1];
      Sum(txs[..|txs| - 1], priced, code, symbol) + if Moves(tx, priced, code, symbol) then tx.amount.value else 0
  }

  ghost predicate AnyAt(txs: seq<Transaction>, priced: bool, place: Place) {
    exists i | 0 <= i < |txs| :: PlaceOf(txs[i], priced) == place
  }

  ghost predicate AnyMoves(txs: seq<Transaction>, priced: bool, code: string, symbol: string) {
    exists i | 0 <= i < |txs| :: Moves(txs[i], priced, code, symbol)
  }

  /** Every transfer of the asset in the currency is written with the same decimals. */
  ghost predicate Consistent(txs: seq<Transaction>, priced: bool, code: string, symbol: string, decimals: nat) {
    forall i | 0 <= i < |txs| && Moves(txs[i], priced, code, symbol) :: txs[i].decimals == decimals
  }

  lemma LastAt(txs: seq<Transaction>, priced: bool, place: Place)
    requires txs != []
    ensures AnyAt(txs, priced, place) <==> AnyAt(txs[..|txs| - 1], priced, place) || PlaceOf(txs[|txs| - 1], priced) == place
  {
    var front := txs[..|txs| - 1];
    if AnyAt(front, priced, place) {
      var i :| 0 <= i < |front| && PlaceOf(front[i], priced) == place;
      assert txs[i] == front[i];
    }
    if AnyAt(txs, priced, place) {
      var i :| 0 <= i < |txs| && PlaceOf(txs[i], priced) == place;
      assert i < |front| ==> front[i] == txs[i];
    }
  }

  lemma {:induction false} UndecodedIs(add: Adder, txs: seq<Transaction>, priced: bool)
    ensures BooksOf(add, txs, priced).undecoded == IdsAt(txs, priced, Undecoded)
  {
    if txs != [] {
      UndecodedIs(add, txs[..|txs| - 1], priced);
    }
  }

  /** A currency is listed exactly when something moved in it, with just those transactions. */
  lemma {:induction false} CurrencyIs(add: Adder, txs: seq<Transaction>, priced: bool, code: string)
    ensures code in BooksOf(add, txs, priced).currencies <==> AnyAt(txs, priced, InCurrency(code))
    ensures Current(BooksOf(add, txs, priced), code).ids == IdsAt(txs, priced, InCurrency(code))
  {
    if txs != [] {
      CurrencyIs(add, txs[..|txs| - 1], priced, code);
      LastAt(txs, priced, InCurrency(code));
    }
  }

  lemma {:induction false} UnvaluedIs(add: Adder, txs: seq<Transaction>, priced: bool, symbol: string)
    ensures symbol in BooksOf(add, txs, priced).unvalued <==> AnyAt(txs, priced, Unvalued(symbol))
  {
    if txs != [] {
      UnvaluedIs(add, txs[..|txs| - 1], priced, symbol);
      LastAt(txs, priced, Unvalued(symbol));
    }
  }

  // ---- by symbol, price and peg ----

  /** A currency is listed exactly for the native coin, as dollars if there is a price for it, and for
      the tokens pegged to it. */
  lemma ListedByPegExactly(add: Adder, txs: seq<Transaction>, priced: bool, code: string)
    ensures code in BooksOf(add, txs, priced).currencies <==>
            exists i | 0 <= i < |txs| :: txs[i].amount.Some? && txs[i].symbol != "" &&
              if txs[i].symbol == "NATIVE" then priced && code == "USD" else txs[i].peg != "" && txs[i].peg == code
  {
    CurrencyIs(add, txs, priced, code);
    PlacedIn(txs, priced, code);
  }

  lemma PlacedIn(txs: seq<Transaction>, priced: bool, code: string)
    ensures AnyAt(txs, priced, InCurrency(code)) <==>
            exists i | 0 <= i < |txs| :: txs[i].amount.Some? && txs[i].symbol != "" &&
              if txs[i].symbol == "NATIVE" then priced && code == "USD" else txs[i].peg != "" && txs[i].peg == code
  {
  }

  /** An asset is named as unvalued exactly if it is the native coin without a price, or a token pegged
      to nothing, and a transfer of it is known. */
  lemma UnvaluedByPegExactly(add: Adder, txs: seq<Transaction>, priced: bool, symbol: string)
    ensures symbol in BooksOf(add, txs, priced).unvalued <==>
            exists i | 0 <= i < |txs| :: txs[i].amount.Some? && txs[i].symbol != "" && txs[i].symbol == symbol &&
              if symbol == "NATIVE" then !priced else txs[i].peg == ""
  {
    UnvaluedIs(add, txs, priced, symbol);
  }

  /** A transaction is listed as undecoded exactly if its amount or its asset is unknown. */
  lemma {:induction false} UndecodedExactly(add: Adder, txs: seq<Transaction>, priced: bool, id: string)
    ensures id in BooksOf(add, txs, priced).undecoded <==>
            exists i | 0 <= i < |txs| :: txs[i].id == id && (txs[i].amount.None? || txs[i].symbol == "")
  {
    if txs != [] {
      var n := |txs| - 1;
      UndecodedExactly(add, txs[..n], priced, id);
      var front, all := BooksOf(add, txs[..n], priced).undecoded, BooksOf(add, txs, priced).undecoded;
      assert id in all <==> id in front || (txs[n].id == id && (txs[n].amount.None? || txs[n].symbol == ""));
      if i :| 0 <= i < n && txs[..n][i].id == id && (txs[..n][i].amount.None? || txs[..n][i].symbol == "") {
        assert txs[i] == txs[..n][i];
      }
      if i :| 0 <= i < |txs| && txs[i].id == id && (txs[i].amount.None? || txs[i].symbol == "") {
        assert i < n ==> txs[..n][i] == txs[i];
      }
    }
  }

  /** Transactions are listed in the order they come in. */
  lemma {:induction false} ListedInOrder(a: seq<Transaction>, b: seq<Transaction>, priced: bool, place: Place)
    ensures IdsAt(a + b, priced, place) == IdsAt(a, priced, place) + IdsAt(b, priced, place)
  {
    if b == [] {
      assert a + b == a;
    } else {
      var n := |b| - 1;
      assert (a + b)[..|a + b| - 1] == a + b[..n];
      ListedInOrder(a, b[..n], priced, place);
    }
  }

  lemma LastMoves(txs: seq<Transaction>, priced: bool, code: string, symbol: string)
    requires txs != []
    ensures AnyMoves(txs, priced, code, symbol) <==>
            AnyMoves(txs[..|txs| - 1], priced, code, symbol) || Moves(txs[|txs| - 1], priced, code, symbol)
  {
    var front := txs[..|txs| - 1];
    if AnyMoves(front, priced, code, symbol) {
      var i :| 0 <= i < |front| && Moves(front[i], priced, code, symbol);
      assert txs[i] == front[i];
    }
    if AnyMoves(txs, priced, code, symbol) {
      var i :| 0 <= i < |txs| && Moves(txs[i], priced, code, symbol);
      assert i < |front| ==> front[i] == txs[i];
    }
  }

  // ---- totals ----

  /** One asset's total, whatever way it is added to. */
  function Text(add: Adder, txs: seq<Transaction>, priced: bool, code: string, symbol: string): string {
    if txs == [] then ""
    else
      var front, tx := Text(add, txs[..|txs| - 1], priced, code, symbol), txs[|txs| - 1];
      if Moves(tx, priced, code, symbol) then add(front, tx.amount.value, tx.decimals) else front
  }

  /** Adding to nothing and to a total reads as the sum. */
  ghost predicate Renders(add: Adder, text: Rendering, decimals: nat) {
    && (forall a: int {:trigger add("", a, decimals)} :: add("", a, decimals) == text(a))
    && (forall s: int, a: int {:trigger add(text(s), a, decimals)} :: add(text(s), a, decimals) == text(s + a))
  }

  lemma {:induction false} TextIs(add: Adder, text: Rendering, txs: seq<Transaction>, priced: bool, code: string, symbol: string, decimals: nat)
    requires Renders(add, text, decimals) && Consistent(txs, priced, code, symbol, decimals)
    ensures AnyMoves(txs, priced, code, symbol) ==> Text(add, txs, priced, code, symbol) == text(Sum(txs, priced, code, symbol))
    ensures !AnyMoves(txs, priced, code, symbol) ==> Text(add, txs, priced, code, symbol) == "" && Sum(txs, priced, code, symbol) == 0
  {
    if txs != [] {
      LastMoves(txs, priced, code, symbol);
      TextIs(add, text, txs[..|txs| - 1], priced, code, symbol, decimals);
    }
  }

  /** The books hold these totals, for the assets that moved. */
  lemma {:induction false} TotalIsText(add: Adder, txs: seq<Transaction>, priced: bool, code: string, symbol: string)
    ensures var a := Current(BooksOf(add, txs, priced), code);
            && (symbol in a.byAsset <==> AnyMoves(txs, priced, code, symbol))
            && Total(a, symbol) == Text(add, txs, priced, code, symbol)
  {
    if txs != [] {
      LastMoves(txs, priced, code, symbol);
      TotalIsText(add, txs[..|txs| - 1], priced, code, symbol);
    }
  }

  /** Each asset's total is what its sum should read; assets that did not move are not there. */
  lemma TotalReads(add: Adder, text: Rendering, txs: seq<Transaction>, priced: bool, code: string, symbol: string, decimals: nat)
    requires Renders(add, text, decimals) && Consistent(txs, priced, code, symbol, decimals)
    ensures var a := Current(BooksOf(add, txs, priced), code);
            if AnyMoves(txs, priced, code, symbol)
            then symbol in a.byAsset && a.byAsset[symbol] == text(Sum(txs, priced, code, symbol))
            else symbol !in a.byAsset && Sum(txs, priced, code, symbol) == 0
  {
    TotalIsText(add, txs, priced, code, symbol);
    TextIs(add, text, txs, priced, code, symbol, decimals);
  }

  lemma AddedToNothing(a: int, decimals: nat)
    ensures Added("", a, decimals) == Format(a, decimals)
  {
  }

  lemma AddedRenders(decimals: nat)
    ensures Renders(Added, s => Format(s, decimals), decimals)
  {
    forall a: int ensures Added("", a, decimals) == Format(a, decimals) {
      AddedToNothing(a, decimals);
    }
    forall s: int, a: int ensures Added(Format(s, decimals), a, decimals) == Format(s + a, decimals) {
      AddedIs(s, a, decimals);
    }
  }

  /** So with the code's own adding it is the exact sum of its amounts, written out. */
  lemma TotalIsExact(txs: seq<Transaction>, priced: bool, code: string, symbol: string, decimals: nat)
    requires Consistent(txs, priced, code, symbol, decimals)
    ensures var a := Current(BooksOf(Added, txs, priced), code);
            if AnyMoves(txs, priced, code, symbol)
            then symbol in a.byAsset && a.byAsset[symbol] == Format(Sum(txs, priced, code, symbol), decimals)
            else symbol !in a.byAsset
  {
    AddedRenders(decimals);
    TotalReads(Added, s => Format(s, decimals), txs, priced, code, symbol, decimals);
  }

  // ---- at mixed decimals ----

  /** How much of an asset moved in a currency, in units of 10^-bound. */
  function Quantity(txs: seq<Transaction>, priced: bool, code: string, symbol: string, bound: nat): int {
    if txs == [] then 0
    else
      var tx := txs[|txs| - 1];
      Quantity(txs[..|txs| - 1], priced, code, symbol, bound)
      + if Moves(tx, priced, code, symbol) && tx.decimals <= bound then tx.amount.value * Pow10(bound - tx.decimals) else 0
  }

  /** No transfer of the asset in the currency has more decimals than the bound. */
  ghost predicate Within(txs: seq<Transaction>, priced: bool, code: string, symbol: string, bound: nat) {
    forall i | 0 <= i < |txs| && Moves(txs[i], priced, code, symbol) :: txs[i].decimals <= bound
  }

  /** The total written is the quantity that has moved, after each of the transfers. */
  ghost predicate ExactThroughout(txs: seq<Transaction>, priced: bool, code: string, symbol: string, bound: nat) {
    && Running(Text(Added, txs, priced, code, symbol), bound) == Quantity(txs, priced, code, symbol, bound)
    && (txs != [] ==> ExactThroughout(txs[..|txs| - 1], priced, code, symbol, bound))
  }

  /** Each transfer finds a total with no more digits after its point than it has decimals itself. */
  ghost predicate FitsThroughout(txs: seq<Transaction>, priced: bool, code: string, symbol: string) {
    txs != [] ==>
      var front, tx := txs[..|txs| - 1], txs[|txs| - 1];
      && (Moves(tx, priced, code, symbol) ==> FractionDigits(Text(Added, front, priced, code, symbol)) <= tx.decimals)
      && FitsThroughout(front, priced, code, symbol)
  }

  lemma {:induction false} TextIsTotal(txs: seq<Transaction>, priced: bool, code: string, symbol: string, bound: nat)
    requires Within(txs, priced, code, symbol, bound)
    ensures IsTotal(Text(Added, txs, priced, code, symbol), bound)
  {
    if txs != [] {
      var front, tx := txs[..|txs| - 1], txs[|txs| - 1];
      TextIsTotal(front, priced, code, symbol, bound);
      if Moves(tx, priced, code, symbol) {
        AddsExactly(Text(Added, front, priced, code, symbol), tx.amount.value, tx.decimals, bound);
      }
    }
  }

  /** One more transfer, on a total that has been exact so far. */
  lemma LastExact(txs: seq<Transaction>, priced: bool, code: string, symbol: string, bound: nat,
                  before: string, after: string, moved: int, moved': int)
    requires txs != [] && Within(txs, priced, code, symbol, bound)
    requires before == Text(Added, txs[..|txs| - 1], priced, code, symbol) && after == Text(Added, txs, priced, code, symbol)
    requires moved == Quantity(txs[..|txs| - 1], priced, code, symbol, bound) && moved' == Quantity(txs, priced, code, symbol, bound)
    ensures Running(before, bound) == moved ==>
            (Running(after, bound) == moved' <==>
             (Moves(txs[|txs| - 1], priced, code, symbol) ==> FractionDigits(before) <= txs[|txs| - 1].decimals))
  {
    var front, tx := txs[..|txs| - 1], txs[|txs| - 1];
    if Moves(tx, priced, code, symbol) {
      assert Within(front, priced, code, symbol, bound);
      TextIsTotal(front, priced, code, symbol, bound);
      assert after == Added(before, tx.amount.value, tx.decimals);
      AddsExactly(before, tx.amount.value, tx.decimals, bound);
    }
  }

  /** Whatever decimals the transfers of an asset have, its total is exact after each of them if and
      only if each finds a total with no more digits after its point than it has decimals. */
  lemma {:induction false} ExactThroughoutExactly(txs: seq<Transaction>, priced: bool, code: string, symbol: string, bound: nat)
    requires Within(txs, priced, code, symbol, bound)
    ensures ExactThroughout(txs, priced, code, symbol, bound) <==> FitsThroughout(txs, priced, code, symbol)
  {
    if txs != [] {
      var front, tx := txs[..|txs| - 1], txs[|txs| - 1];
      ExactThroughoutExactly(front, priced, code, symbol, bound);
      var before, after := Text(Added, front, priced, code, symbol), Text(Added, txs, priced, code, symbol);
      LastExact(txs, priced, code, symbol, bound, before, after,
                Quantity(front, priced, code, symbol, bound), Quantity(txs, priced, code, symbol, bound));
    }
  }

  // ---- in any order ----

  lemma {:induction false} SumConcat(a: seq<Transaction>, b: seq<Transaction>, priced: bool, code: string, symbol: string)
    ensures Sum(a + b, priced, code, symbol) == Sum(a, priced, code, symbol) + Sum(b, priced, code, symbol)
  {
    if b == [] {
      assert a + b == a;
    } else {
      var n := |b| - 1;
      assert (a + b)[..|a + b| - 1] == a + b[..n];
      SumConcat(a, b[..n], priced, code, symbol);
    }
  }

  lemma Without(b: seq<Transaction>, i: nat, priced: bool, code: string, symbol: string) returns (rest: seq<Transaction>)
    requires i < |b|
    ensures multiset(b) == multiset(rest) + multiset{b[i]}
    ensures Sum(b, priced, code, symbol) == Sum(rest, priced, code, symbol) + Sum([b[i]], priced, code, symbol)
  {
    rest := b[..i] + b[i + 1..];
    assert b == b[..i] + ([b[i]] + b[i + 1..]);
    SumConcat(b[..i], [b[i]] + b[i + 1..], priced, code, symbol);
    SumConcat([b[i]], b[i + 1..], priced, code, symbol);
    SumConcat(b[..i], b[i + 1..], priced, code, symbol);
  }

  lemma Cancel(a: multiset<Transaction>, b: multiset<Transaction>, x: Transaction)
    requires a + multiset{x} == b + multiset{x}
    ensures a == b
  {
    forall y ensures a[y] == b[y] {
      assert (a + multiset{x})[y] == (b + multiset{x})[y];
    }
  }

  /** The sum, and so the total written, does not depend on the order of the transfers. */
  lemma {:induction false} SumInAnyOrder(a: seq<Transaction>, b: seq<Transaction>, priced: bool, code: string, symbol: string)
    requires multiset(a) == multiset(b)
    ensures Sum(a, priced, code, symbol) == Sum(b, priced, code, symbol)
    decreases |a|
  {
    if a == [] {
      assert |b| == |multiset(b)|;
    } else {
      var n := |a| - 1;
      assert a == a[..n] + [a[n]];
      SumConcat(a[..n], [a[n]], priced, code, symbol);
      assert a[n] in multiset(b);
      var i :| 0 <= i < |b| && b[i] == a[n];
      var rest := Without(b, i, priced, code, symbol);
      Cancel(multiset(a[..n]), multiset(rest), a[n]);
      SumInAnyOrder(a[..n], rest, priced, code, symbol);
    }
  }

  lemma SameElements(a: seq<Transaction>, b: seq<Transaction>, i: nat) returns (j: nat)
    requires multiset(a) == multiset(b) && i < |b|
    ensures j < |a| && a[j] == b[i]
  {
    assert b[i] in multiset(b);
    j :| 0 <= j < |a| && a[j] == b[i];
  }

  lemma MovesInAnyOrder(a: seq<Transaction>, b: seq<Transaction>, priced: bool, code: string, symbol: string)
    requires multiset(a) == multiset(b) && AnyMoves(b, priced, code, symbol)
    ensures AnyMoves(a, priced, code, symbol)
  {
    var i: nat :| i < |b| && Moves(b[i], priced, code, symbol);
    var j := SameElements(a, b, i);
  }

  lemma ConsistentInAnyOrder(a: seq<Transaction>, b: seq<Transaction>, priced: bool, code: string, symbol: string, decimals: nat)
    requires multiset(a) == multiset(b) && Consistent(a, priced, code, symbol, decimals)
    ensures Consistent(b, priced, code, symbol, decimals)
  {
    forall i | 0 <= i < |b| && Moves(b[i], priced, code, symbol) ensures b[i].decimals == decimals {
      var j := SameElements(a, b, i);
    }
  }

  lemma TotalReadsInAnyOrder(add: Adder, text: Rendering, a: seq<Transaction>, b: seq<Transaction>,
                             priced: bool, code: string, symbol: string, decimals: nat)
    requires Renders(add, text, decimals) && multiset(a) == multiset(b) && Consistent(a, priced, code, symbol, decimals)
    ensures Total(Current(BooksOf(add, a, priced), code), symbol) == Total(Current(BooksOf(add, b, priced), code), symbol)
  {
    ConsistentInAnyOrder(a, b, priced, code, symbol, decimals);
    TotalReads(add, text, a, priced, code, symbol, decimals);
    TotalReads(add, text, b, priced, code, symbol, decimals);
    SumInAnyOrder(a, b, priced, code, symbol);
    if AnyMoves(a, priced, code, symbol) {
      MovesInAnyOrder(b, a, priced, code, symbol);
    } else if AnyMoves(b, priced, code, symbol) {
      MovesInAnyOrder(a, b, priced, code, symbol);
    }
  }

  /** Whatever order a day's transfers come in, each asset's total reads the same. */
  lemma TotalInAnyOrder(a: seq<Transaction>, b: seq<Transaction>, priced: bool, code: string, symbol: string, decimals: nat)
    requires multiset(a) == multiset(b) && Consistent(a, priced, code, symbol, decimals)
    ensures Total(Current(BooksOf(Added, a, priced), code), symbol) == Total(Current(BooksOf(Added, b, priced), code), symbol)
  {
    AddedRenders(decimals);
    TotalReadsInAnyOrder(Added, s => Format(s, decimals), a, b, priced, code, symbol, decimals);
  }

  // ---- one place each ----

  predicate DistinctIds(txs: seq<Transaction>) {
    forall i, j | 0 <= i < j < |txs| :: txs[i].id != txs[j].id
  }

  lemma {:induction false} IdsAtOnly(txs: seq<Transaction>, priced: bool, place: Place, id: string)
    requires forall i | 0 <= i < |txs| :: txs[i].id != id
    ensures id !in IdsAt(txs, priced, place)
  {
    if txs != [] {
      IdsAtOnly(txs[..|txs| - 1], priced, place, id);
    }
  }

  /** Every transfer is listed once at its own place, and nowhere else. */
  lemma {:induction false} ListedOnce(txs: seq<Transaction>, priced: bool, k: nat, place: Place)
    requires DistinctIds(txs) && k < |txs|
    ensures multiset(IdsAt(txs, priced, place))[txs[k].id] == if PlaceOf(txs[k], priced) == place then 1 else 0
  {
    var n := |txs| - 1;
    LastListed(txs, priced, place, txs[k].id);
    if k == n {
      IdsAtOnly(txs[..n], priced, place, txs[n].id);
    } else {
      assert txs[n].id != txs[k].id;
      ListedOnce(txs[..n], priced, k, place);
    }
  }

  lemma LastListed(txs: seq<Transaction>, priced: bool, place: Place, id: string)
    requires txs != []
    ensures var n := |txs| - 1;
            multiset(IdsAt(txs, priced, place))[id] == multiset(IdsAt(txs[..n], priced, place))[id] +
            if PlaceOf(txs[n], priced) == place && txs[n].id == id then 1 else 0
  {
    var front := IdsAt(txs[..|txs| - 1], priced, place);
    assert front + [] == front;
  }

  // ---- sorted names ----

  /** Strings in the order Go compares them. */
  predicate Less(a: string, b: string) {
    if b == "" then false
    else if a == "" then true
    else a[0] < b[0] || (a[0] == b[0] && Less(a[1..], b[1..]))
  }

  lemma {:induction false} LessTotal(a: string, b: string)
    ensures a == b || Less(a, b) || Less(b, a)
    ensures !(Less(a, b) && Less(b, a)) && !Less(a, a)
  {
    if a != "" && b != "" {
      LessTotal(a[1..], b[1..]);
      LessTotal(a[1..], a[1..]);
      assert a[0] == b[0] && a[1..] == b[1..] ==> a == b by {
        assert a == [a[0]] + a[1..] && b == [b[0]] + b[1..];
      }
    } else if a != "" {
      LessTotal(a[1..], a[1..]);
    }
  }

  lemma {:induction false} LessTransitive(a: string, b: string, c: string)
    requires Less(a, b) && Less(b, c)
    ensures Less(a, c)
  {
    if a != "" && b != "" && c != "" && a[0] == b[0] && b[0] == c[0] {
      LessTransitive(a[1..], b[1..], c[1..]);
    }
  }

  /** A string is less than another if and only if it is a proper beginning of it or has the lower
      character where the two first differ. */
  lemma {:induction false} LessIs(a: string, b: string)
    ensures Less(a, b) <==> exists k: nat :: FirstDifference(a, b, k) && k < |b| && (k == |a| || a[k] < b[k])
  {
    if b == "" {
    } else if a == "" {
      assert FirstDifference(a, b, 0);
    } else {
      LessIs(a[1..], b[1..]);
      if a[0] == b[0] {
        if k: nat :| FirstDifference(a[1..], b[1..], k) && k < |b[1..]| && (k == |a[1..]| || a[1..][k] < b[1..][k]) {
          DifferenceLater(a, b, k);
        }
        if k: nat :| FirstDifference(a, b, k) && k < |b| && (k == |a| || a[k] < b[k]) {
          DifferenceSooner(a, b, k);
        }
      } else {
        assert FirstDifference(a, b, 0);
        if k: nat :| FirstDifference(a, b, k) && k < |b| && (k == |a| || a[k] < b[k]) {
          DifferenceAtOnce(a, b, k);
        }
      }
    }
  }

  /** Two strings agree up to a place, and one of them ends there or they differ there. */
  ghost predicate FirstDifference(a: string, b: string, k: nat) {
    k <= |a| && k <= |b| && a[..k] == b[..k] && (k < |a| && k < |b| ==> a[k] != b[k])
  }

  lemma DifferenceAtOnce(a: string, b: string, k: nat)
    requires a != "" && b != "" && FirstDifference(a, b, k)
    ensures k == 0 || a[0] == b[0]
  {
    if k > 0 {
      assert a[..k][0] == a[0] && b[..k][0] == b[0];
    }
  }

  lemma DifferenceLater(a: string, b: string, k: nat)
    requires a != "" && b != "" && a[0] == b[0] && FirstDifference(a[1..], b[1..], k)
    ensures FirstDifference(a, b, k + 1)
  {
    assert a[..k + 1] == [a[0]] + a[1..][..k] && b[..k + 1] == [b[0]] + b[1..][..k];
  }

  lemma DifferenceSooner(a: string, b: string, k: nat)
    requires a != "" && b != "" && a[0] == b[0] && FirstDifference(a, b, k) && k < |b|
    ensures k > 0 && FirstDifference(a[1..], b[1..], k - 1)
  {
    assert a[1..][..k - 1] == a[..k][1..] && b[1..][..k - 1] == b[..k][1..];
  }

  ghost predicate Sorted(s: seq<string>) {
    forall i, j | 0 <= i < j < |s| :: Less(s[i], s[j])
  }

  /** The names of a set, whatever order the map gave them in, sorted and without repeats. */
  method SortNames(names: set<string>) returns (sorted: seq<string>)
    ensures Sorted(sorted) && forall x :: x in sorted <==> x in names
  {
    sorted := [];
    var rest := names;
    while rest != {}
      invariant rest <= names && Sorted(sorted) && forall x :: x in sorted <==> x in names && x !in rest
      decreases |rest|
    {
      var name :| name in rest;
      rest := rest - {name};
      sorted := InsertName(sorted, name);
    }
  }

  method InsertName(s: seq<string>, name: string) returns (r: seq<string>)
    requires Sorted(s) && name !in s
    ensures Sorted(r) && forall x :: x in r <==> x == name || x in s
  {
    var k := |s|;
    while k > 0 && Less(name, s[k - 1])
      invariant 0 <= k <= |s| && forall i | k <= i < |s| :: Less(name, s[i])
    {
      k := k - 1;
    }
    if k > 0 {
      LessTotal(name, s[k - 1]);
    }
    InsertedSorted(s, k, name);
    r := s[..k] + [name] + s[k..];
  }

  lemma InsertedSorted(s: seq<string>, k: nat, name: string)
    requires k <= |s| && Sorted(s) && (k > 0 ==> Less(s[k - 1], name)) && forall i | k <= i < |s| :: Less(name, s[i])
    ensures var r := s[..k] + [name] + s[k..]; Sorted(r) && forall x :: x in r <==> x == name || x in s
  {
    var r := s[..k] + [name] + s[k..];
    forall i | 0 <= i < k ensures Less(s[i], name) {
      if i < k - 1 {
        LessTransitive(s[i], s[k - 1], name);
      }
    }
    forall x ensures x in r <==> x == name || x in s {
      assert s == s[..k] + s[k..];
    }
  }

  // ---- the report ----

  /** One currency of a report. */
  datatype Line = Line(code: string, aggregate: Aggregate)

  /** A day's transfers as books, each taken in its turn. */
  method Book(txs: seq<Transaction>, priced: bool) returns (b: Books)
    ensures b == BooksOf(Added, txs, priced)
  {
    b := Books([], map[], {});
    for i := 0 to |txs|
      invariant b == BooksOf(Added, txs[..i], priced)
    {
      assert txs[..i + 1][..i] == txs[..i];
      b := BookOne(b, txs[i], priced);
    }
    assert txs[..|txs|] == txs;
  }

  method BookOne(b: Books, tx: Transaction, priced: bool) returns (r: Books)
    ensures r == Booked(Added, b, tx, priced)
  {
    if tx.amount.None? || tx.symbol == "" {
      return b.(undecoded := b.undecoded + [tx.id]);
    }
    if tx.symbol == "NATIVE" && !priced {
      return b.(unvalued := b.unvalued + {"NATIVE"});
    }
    if tx.symbol != "NATIVE" && tx.peg == "" {
      return b.(unvalued := b.unvalued + {tx.symbol});
    }
    var code := if tx.symbol == "NATIVE" then "USD" else tx.peg;
    var a := Current(b, code);
    var total := AddDecimal(Total(a, tx.symbol), tx.amount.value, tx.decimals);
    r := b.(currencies := b.currencies[code := Aggregate(a.byAsset[tx.symbol := total], a.ids + [tx.id])]);
  }

  ghost predicate LineOk(add: Adder, line: Line, txs: seq<Transaction>, priced: bool) {
    && line.aggregate == Current(BooksOf(add, txs, priced), line.code)
    && line.aggregate.ids == IdsAt(txs, priced, InCurrency(line.code)) && AnyAt(txs, priced, InCurrency(line.code))
  }

  ghost predicate LinesOf(add: Adder, lines: seq<Line>, txs: seq<Transaction>, priced: bool) {
    && (forall i, j | 0 <= i < j < |lines| :: Less(lines[i].code, lines[j].code))
    && (forall i | 0 <= i < |lines| :: LineOk(add, lines[i], txs, priced))
  }

  lemma OneMoreLine(add: Adder, lines: seq<Line>, line: Line, txs: seq<Transaction>, priced: bool)
    requires LinesOf(add, lines, txs, priced) && LineOk(add, line, txs, priced)
    requires forall i | 0 <= i < |lines| :: Less(lines[i].code, line.code)
    ensures LinesOf(add, lines + [line], txs, priced)
  {
  }

  lemma CurrencyLine(add: Adder, b: Books, code: string, txs: seq<Transaction>, priced: bool)
    requires b == BooksOf(add, txs, priced) && code in b.currencies
    ensures LineOk(add, Line(code, b.currencies[code]), txs, priced)
  {
    CurrencyIs(add, txs, priced, code);
  }

  /** The currencies of the books in order. */
  method CurrencyLines(b: Books, ghost add: Adder, ghost txs: seq<Transaction>, ghost priced: bool) returns (lines: seq<Line>)
    requires b == BooksOf(add, txs, priced)
    ensures LinesOf(add, lines, txs, priced)
    ensures forall code | code in b.currencies :: exists i :: 0 <= i < |lines| && lines[i].code == code
  {
    var codes := SortNames(b.currencies.Keys);
    lines := [];
    for i := 0 to |codes|
      invariant |lines| == i && forall k | 0 <= k < i :: lines[k].code == codes[k]
      invariant LinesOf(add, lines, txs, priced)
    {
      assert codes[i] in codes;
      var line := Line(codes[i], b.currencies[codes[i]]);
      CurrencyLine(add, b, codes[i], txs, priced);
      OneMoreLine(add, lines, line, txs, priced);
      lines := lines + [line];
    }
    forall code | code in b.currencies ensures exists i :: 0 <= i < |lines| && lines[i].code == code {
      assert code in codes;
      var i :| 0 <= i < |codes| && codes[i] == code;
      assert lines[i].code == code;
    }
  }

  /** The report: the undecoded transactions and their count, the currencies in order with the
      transactions of each, and the names of what could not be valued in order. */
  method AggregateByCurrency(txs: seq<Transaction>, priced: bool)
    returns (undecoded: seq<string>, undecodedCount: nat, lines: seq<Line>, unvalued: seq<string>)
    ensures undecoded == IdsAt(txs, priced, Undecoded) && undecodedCount == |undecoded|
    ensures LinesOf(Added, lines, txs, priced)
    ensures forall code | AnyAt(txs, priced, InCurrency(code)) :: exists i :: 0 <= i < |lines| && lines[i].code == code
    ensures Sorted(unvalued) && forall symbol :: symbol in unvalued <==> AnyAt(txs, priced, Unvalued(symbol))
  {
    var b := Book(txs, priced);
    UndecodedIs(Added, txs, priced);
    undecoded, undecodedCount := b.undecoded, |b.undecoded|;
    lines := CurrencyLines(b, Added, txs, priced);
    forall code | AnyAt(txs, priced, InCurrency(code)) ensures code in b.currencies {
      CurrencyIs(Added, txs, priced, code);
    }
    unvalued := SortNames(b.unvalued);
    forall symbol ensures symbol in unvalued <==> AnyAt(txs, priced, Unvalued(symbol)) {
      UnvaluedIs(Added, txs, priced, symbol);
    }
  }
}
