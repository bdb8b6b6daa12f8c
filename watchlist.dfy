/** The watchlist: an ordered list of upper-case symbols (`watchlist`, edited by
    the `add_symbol` and `remove_symbol` endpoints). */
module Watchlists {
  import opened Sequences

  /** ASCII upper-casing of one character; every other character is kept. */
  function UpperChar(c: char): (u: char)
    ensures 'a' <= c <= 'z' ==> u as int == c as int - 32
    ensures !('a' <= c <= 'z') ==> u == c
    ensures !('a' <= u <= 'z')
  {
    if 'a' <= c <= 'z' then (c as int - 32) as char else c
  }

  /** `str.upper()`, restricted to ASCII letters. */
  function Upper(s: string): (r: string)
    ensures |r| == |s|
    ensures forall i :: 0 <= i < |s| ==> r[i] == UpperChar(s[i])
  {
    seq(|s|, i requires 0 <= i < |s| => UpperChar(s[i]))
  }

  /** Upper-casing twice is upper-casing once. */
  lemma UpperIdempotent(s: string)
    ensures Upper(Upper(s)) == Upper(s)
  {
  }

  /** Every symbol is already in upper case. */
  ghost predicate AllUpper(w: seq<string>) {
    forall sym :: sym in w ==> Upper(sym) == sym
  }

  /** The shape every watchlist keeps: upper-case symbols, none twice. */
  ghost predicate WellFormed(w: seq<string>) {
    NoDup(w) && AllUpper(w)
  }

  /** The watchlist at startup. */
  const Defaults: seq<string> := ["BTC/USD", "ETH/USD", "SOL/USD"]

  /** The startup watchlist is well formed. */
  lemma DefaultsWellFormed()
    ensures WellFormed(Defaults)
  {
    assert Upper("BTC/USD") == "BTC/USD";
    assert Upper("ETH/USD") == "ETH/USD";
    assert Upper("SOL/USD") == "SOL/USD";
  }

  /** `add_symbol`: the upper-cased symbol is appended unless it is already there. */
  function Added(w: seq<string>, symbol: string): (r: seq<string>)
    ensures Upper(symbol) in r
    ensures |w| <= |r| && r[..|w|] == w
    ensures forall sym :: sym in r <==> sym in w || sym == Upper(symbol)
    ensures |r| == if Upper(symbol) in w then |w| else |w| + 1
  {
    var sym := Upper(symbol);
    if sym in w then w else w + [sym]
  }

  /** `remove_symbol`: the upper-cased symbol is removed if it is there. */
  function Removed(w: seq<string>, symbol: string): (r: seq<string>)
    ensures Upper(symbol) !in w ==> r == w
    ensures multiset(r) == multiset(w) - multiset{Upper(symbol)}
  {
    DiscardMultiset(w, Upper(symbol));
    Discard(w, Upper(symbol))
  }

  /** Adding the same symbol again, in any letter case, changes nothing. */
  lemma AddIdempotent(w: seq<string>, symbol: string, again: string)
    requires Upper(again) == Upper(symbol)
    ensures Added(Added(w, symbol), again) == Added(w, symbol)
  {
  }

  /** Adding keeps the watchlist upper-case and duplicate-free. */
  lemma AddKeepsWellFormed(w: seq<string>, symbol: string)
    requires WellFormed(w)
    ensures WellFormed(Added(w, symbol))
  {
    var sym := Upper(symbol);
    if sym !in w {
      AppendNoDup(w, sym);
      UpperIdempotent(symbol);
    }
  }

  /** Removing keeps the watchlist upper-case and duplicate-free, and the
      symbol is gone afterwards. */
  lemma RemoveKeepsWellFormed(w: seq<string>, symbol: string)
    requires WellFormed(w)
    ensures WellFormed(Removed(w, symbol))
    ensures Upper(symbol) !in Removed(w, symbol)
  {
    var sym := Upper(symbol);
    DiscardTwice(w, sym);
    var r := Removed(w, symbol);
    forall s | s in r ensures Upper(s) == s {
      assert multiset(r)[s] > 0;
    }
  }

  /** Adding a symbol that was not listed and then removing it, in any letter
      case, restores the watchlist. */
  lemma AddThenRemove(w: seq<string>, symbol: string, other: string)
    requires Upper(symbol) !in w
    requires Upper(other) == Upper(symbol)
    ensures Removed(Added(w, symbol), other) == w
  {
    AppendThenDiscard(w, Upper(symbol));
  }

  /** Removing an unlisted symbol, however often, changes nothing. */
  lemma RemoveAbsent(w: seq<string>, symbol: string)
    requires Upper(symbol) !in w
    ensures Removed(Removed(w, symbol), symbol) == Removed(w, symbol) == w
  {
  }

  class Watchlist {
    var symbols: seq<string>

    constructor ()
      ensures symbols == Defaults && WellFormed(symbols)
    {
      symbols := Defaults;
      DefaultsWellFormed();
    }

    /** `add_symbol`: returns the watchlist after the edit. */
    method AddSymbol(symbol: string) returns (r: seq<string>)
      modifies this
      ensures symbols == Added(old(symbols), symbol) && r == symbols
      ensures old(WellFormed(symbols)) ==> WellFormed(symbols)
    {
      var sym := Upper(symbol);
      if sym !in symbols {
        symbols := symbols + [sym];
      }
      r := symbols;
      if old(WellFormed(symbols)) {
        AddKeepsWellFormed(old(symbols), symbol);
      }
    }

    /** `remove_symbol`: returns the watchlist after the edit. */
    method RemoveSymbol(symbol: string) returns (r: seq<string>)
      modifies this
      ensures symbols == Removed(old(symbols), symbol) && r == symbols
      ensures old(WellFormed(symbols)) ==> WellFormed(symbols)
    {
      var sym := Upper(symbol);
      if sym in symbols {
        symbols := RemoveFirst(symbols, sym);
      }
      r := symbols;
      if old(WellFormed(symbols)) {
        RemoveKeepsWellFormed(old(symbols), symbol);
      }
    }
  }
}
