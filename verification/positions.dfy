/** The insertion-ordered `positions` dictionary of one account. */
module Positions {
  import opened BrokerModels

  type Book = seq<Position>

  /** Index of the ticker, or |ps| when it is absent. */
  function IndexOf(ps: Book, ticker: Name): (i: nat)
    ensures i <= |ps|
    ensures i < |ps| ==> ps[i].ticker == ticker
    ensures forall j :: 0 <= j < i ==> ps[j].ticker != ticker
  {
    if |ps| == 0 then 0
    else if ps[0].ticker == ticker then 0
    else 1 + IndexOf(ps[1..], ticker)
  }

  function Find(ps: Book, ticker: Name): Option<Position> {
    var i := IndexOf(ps, ticker);
    if i < |ps| then Some(ps[i]) else None
  }

  function Shares(ps: Book, ticker: Name): real {
    match Find(ps, ticker)
    case None => 0.0
    case Some(p) => p.shares
  }

  function AvgCost(ps: Book, ticker: Name): real {
    match Find(ps, ticker)
    case None => 0.0
    case Some(p) => p.avgCost
  }

  /** `positions[p.ticker] = p`: in place when present, at the end otherwise. */
  function Put(ps: Book, p: Position): Book {
    var i := IndexOf(ps, p.ticker);
    if i < |ps| then ps[i := p] else ps + [p]
  }

  /** `positions.pop(ticker, None)` */
  function Drop(ps: Book, ticker: Name): Book {
    var i := IndexOf(ps, ticker);
    if i < |ps| then ps[..i] + ps[i + 1..] else ps
  }

  ghost predicate Distinct(ps: Book) {
    forall i, j :: 0 <= i < j < |ps| ==> ps[i].ticker != ps[j].ticker
  }

  /** No entry is kept for a ticker that is not held. */
  ghost predicate NoFlatEntry(ps: Book) {
    forall i :: 0 <= i < |ps| ==> ps[i].shares != 0.0
  }

  ghost predicate WellFormed(ps: Book) {
    Distinct(ps) && NoFlatEntry(ps)
  }

  /** A number attached to every position, summed over the book. */
  ghost function Total(ps: Book, value: Position -> real): real {
    if |ps| == 0 then 0.0 else value(ps[0]) + Total(ps[1..], value)
  }

  lemma {:induction false} TotalSplit(ps: Book, qs: Book, value: Position -> real)
    ensures Total(ps + qs, value) == Total(ps, value) + Total(qs, value)
  {
    if |ps| == 0 {
      assert ps + qs == qs;
    } else {
      TotalSplit(ps[1..], qs, value);
      assert (ps + qs)[1..] == ps[1..] + qs;
    }
  }

  lemma {:induction false} TotalAt(ps: Book, i: nat, value: Position -> real)
    requires i < |ps|
    ensures Total(ps, value) == Total(ps[..i], value) + value(ps[i]) + Total(ps[i + 1..], value)
  {
    assert ps == ps[..i] + ([ps[i]] + ps[i + 1..]);
    TotalSplit(ps[..i], [ps[i]] + ps[i + 1..], value);
    TotalSplit([ps[i]], ps[i + 1..], value);
    assert [ps[i]][1..] == [];
  }

  /** Contribution of one ticker to a total. */
  ghost function Part(ps: Book, ticker: Name, value: Position -> real): real {
    match Find(ps, ticker)
    case None => 0.0
    case Some(p) => value(p)
  }

  lemma IndexOfUnique(ps: Book, i: nat)
    requires Distinct(ps) && i < |ps|
    ensures IndexOf(ps, ps[i].ticker) == i
  {
  }

  lemma PutEffect(ps: Book, p: Position, value: Position -> real)
    requires Distinct(ps)
    ensures Distinct(Put(ps, p))
    ensures NoFlatEntry(ps) && p.shares != 0.0 ==> NoFlatEntry(Put(ps, p))
    ensures Find(Put(ps, p), p.ticker) == Some(p)
    ensures forall t :: t != p.ticker ==> Find(Put(ps, p), t) == Find(ps, t)
    ensures Total(Put(ps, p), value) == Total(ps, value) - Part(ps, p.ticker, value) + value(p)
  {
    var i := IndexOf(ps, p.ticker);
    var qs := Put(ps, p);
    if i < |ps| {
      TotalAt(ps, i, value);
      TotalAt(qs, i, value);
      assert qs[..i] == ps[..i] && qs[i + 1..] == ps[i + 1..];
    } else {
      TotalSplit(ps, [p], value);
      assert [p][1..] == [];
    }
    forall t | t != p.ticker ensures Find(qs, t) == Find(ps, t) {
      SameFind(ps, qs, t);
    }
    IndexOfUnique(qs, i);
  }

  /** Find only depends on which (distinct) entries are present. */
  lemma SameFind(ps: Book, qs: Book, t: Name)
    requires Distinct(ps) && Distinct(qs)
    requires forall p: Position :: p.ticker == t ==> (p in ps <==> p in qs)
    ensures Find(ps, t) == Find(qs, t)
  {
    var i, j := IndexOf(ps, t), IndexOf(qs, t);
    if i < |ps| {
      assert ps[i] in qs;
      var k :| 0 <= k < |qs| && qs[k] == ps[i];
      IndexOfUnique(qs, k);
    }
  }

  lemma DropKeeps(ps: Book, ticker: Name, p: Position)
    requires p.ticker != ticker
    ensures p in ps <==> p in Drop(ps, ticker)
  {
    var i := IndexOf(ps, ticker);
    if i < |ps| {
      assert ps == ps[..i] + [ps[i]] + ps[i + 1..];
    }
  }

  lemma DropEffect(ps: Book, ticker: Name, value: Position -> real)
    requires Distinct(ps)
    ensures Distinct(Drop(ps, ticker))
    ensures NoFlatEntry(ps) ==> NoFlatEntry(Drop(ps, ticker))
    ensures Find(Drop(ps, ticker), ticker) == None
    ensures forall t :: t != ticker ==> Find(Drop(ps, ticker), t) == Find(ps, t)
    ensures Total(Drop(ps, ticker), value) == Total(ps, value) - Part(ps, ticker, value)
  {
    var i := IndexOf(ps, ticker);
    var qs := Drop(ps, ticker);
    if i < |ps| {
      TotalAt(ps, i, value);
      TotalSplit(ps[..i], ps[i + 1..], value);
      assert forall j :: 0 <= j < |qs| ==> qs[j] == if j < i then ps[j] else ps[j + 1];
    }
    forall t | t != ticker ensures Find(qs, t) == Find(ps, t) {
      forall p: Position | p.ticker == t ensures p in ps <==> p in qs {
        DropKeeps(ps, ticker, p);
      }
      SameFind(ps, qs, t);
    }
  }

  /** Two totals that agree on every entry are equal. */
  lemma {:induction false} TotalCong(ps: Book, f: Position -> real, g: Position -> real)
    requires forall i :: 0 <= i < |ps| ==> f(ps[i]) == g(ps[i])
    ensures Total(ps, f) == Total(ps, g)
  {
    if |ps| > 0 {
      assert forall i :: 0 <= i < |ps[1..]| ==> ps[1..][i] == ps[i + 1];
      TotalCong(ps[1..], f, g);
    }
  }
}
