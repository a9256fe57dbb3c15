/** Multisets of what a row of sequences holds together. */
module Bags {

  ghost function Bag<T>(rows: seq<seq<T>>): multiset<T> {
    if rows == [] then multiset{} else multiset(rows[0]) + Bag(rows[1..])
  }

  lemma AddFirst<T>(r: multiset<T>, a: multiset<T>, b: multiset<T>, c: multiset<T>, d: multiset<T>)
    requires a + b == c + d
    ensures (r + a) + b == (r + c) + d
  {
    assert (r + a) + b == r + (a + b);
  }

  lemma Moved<T>(q: multiset<T>, q': multiset<T>, row: multiset<T>, row': multiset<T>, xs: multiset<T>)
    requires q' + row == q + row' && row' == row + xs
    ensures q' == q + xs
  {
    forall x ensures q'[x] == (q + xs)[x] {
      assert (q' + row)[x] == (q + row')[x];
    }
  }

  lemma {:induction false} BagUpdate<T>(rows: seq<seq<T>>, i: nat, row: seq<T>)
    requires i < |rows|
    ensures Bag(rows[i := row]) + multiset(rows[i]) == Bag(rows) + multiset(row)
  {
    var rows' := rows[i := row];
    if i == 0 {
      assert rows'[1..] == rows[1..];
      assert Bag(rows') == multiset(row) + Bag(rows[1..]);
    } else {
      BagUpdate(rows[1..], i - 1, row);
      assert rows'[1..] == rows[1..][i - 1 := row];
      AddFirst(multiset(rows[0]), Bag(rows'[1..]), multiset(rows[i]), Bag(rows[1..]), multiset(row));
    }
  }

  /** If the contents e of three bags changes by what moves between one row and the others, it stays
      their sum. */
  lemma Balance<T>(e: multiset<T>, q: multiset<T>, h: multiset<T>, d: multiset<T>,
                   e': multiset<T>, q': multiset<T>, h': multiset<T>, d': multiset<T>,
                   row: multiset<T>, row': multiset<T>)
    requires e == q + h + d && h' + row == h + row' && e' + q + row + d == e + q' + row' + d'
    ensures e' == q' + h' + d'
  {
    forall x ensures e'[x] == (q' + h' + d')[x] {
      assert (e' + q + row + d)[x] == (e + q' + row' + d')[x];
      assert (h' + row)[x] == (h + row')[x];
      assert e[x] == (q + h + d)[x];
    }
  }

  lemma {:induction false} BagEmpty<T>(rows: seq<seq<T>>)
    requires forall i :: 0 <= i < |rows| ==> rows[i] == []
    ensures Bag(rows) == multiset{}
  {
    if rows != [] {
      assert forall i :: 0 <= i < |rows[1..]| ==> rows[1..][i] == rows[i + 1];
      BagEmpty(rows[1..]);
    }
  }

  lemma SplitBag<T>(s: seq<T>, n: nat)
    requires n <= |s|
    ensures multiset(s) == multiset(s[..n]) + multiset(s[n..])
  {
    assert s == s[..n] + s[n..];
  }

  /** The same with two bags. */
  lemma BalancePair<T>(e: multiset<T>, h: multiset<T>, d: multiset<T>,
                       e': multiset<T>, h': multiset<T>, d': multiset<T>,
                       row: multiset<T>, row': multiset<T>)
    requires e == d + h && h' + row == h + row' && e' + d + row == e + d' + row'
    ensures e' == d' + h'
  {
    forall x ensures e'[x] == (d' + h')[x] {
      assert (e' + d + row)[x] == (e + d' + row')[x];
      assert (h' + row)[x] == (h + row')[x];
      assert e[x] == (d + h)[x];
    }
  }
}
