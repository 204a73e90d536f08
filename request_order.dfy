/**
 * The order of lock requests: the lock compares the children of its lock
 * node by the number `Long.parseLong` reads from their names, and sorts the
 * listing with that comparator. The holder of the lock is the request that
 * comes first, and each waiter watches the request just before its own.
 */
module RequestOrder {
  import opened Decimal
  import opened LockNodes

  /** The number `Long.parseLong` reads from a request name. */
  function Number(name: RequestName): nat {
    ParseDigits(name)
  }

  /** `SEQUENTIAL_NODE_COMPARATOR`: the two names' numbers, compared as `Long.compareTo` does. */
  function Compare(first: RequestName, second: RequestName): (c: int)
    ensures c == -1 || c == 0 || c == 1
    ensures c < 0 <==> Number(first) < Number(second)
    ensures c > 0 <==> Number(second) < Number(first)
  {
    var a, b := Number(first), Number(second);
    if a < b then -1 else if a == b then 0 else 1
  }

  /** No request is placed after one the comparator puts after it. */
  predicate Ordered(s: seq<RequestName>) {
    forall i, j :: 0 <= i < j < |s| ==> Number(s[i]) <= Number(s[j])
  }

  /** An ordered listing stays ordered when a request no lower than its last is appended. */
  lemma AppendOrdered(s: seq<RequestName>, x: RequestName)
    requires Ordered(s) && (s != [] ==> Number(s[|s| - 1]) <= Number(x))
    ensures Ordered(s + [x])
  {
    var r := s + [x];
    forall i, j | 0 <= i < j < |r|
      ensures Number(r[i]) <= Number(r[j])
    {
      if j == |s| && i < |s| - 1 {
        assert Number(s[i]) <= Number(s[|s| - 1]);
      }
    }
  }

  /** Puts `x` into an ordered listing, after every request that does not compare above it. */
  function Insert(x: RequestName, s: seq<RequestName>): (r: seq<RequestName>)
    requires Ordered(s)
    ensures Ordered(r) && multiset(r) == multiset(s) + multiset{x}
    ensures |r| == |s| + 1 && (r[|s|] == x || (s != [] && r[|s|] == s[|s| - 1]))
  {
    if s == [] then [x]
    else if Compare(s[|s| - 1], x) <= 0 then
      AppendOrdered(s, x);
      s + [x]
    else
      var init, last := s[..|s| - 1], s[|s| - 1];
      assert s == init + [last];
      var front := Insert(x, init);
      assert Number(front[|front| - 1]) <= Number(last);
      AppendOrdered(front, last);
      front + [last]
  }

  /** `Collections.sort(requests, SEQUENTIAL_NODE_COMPARATOR)`. */
  function SortRequests(s: seq<RequestName>): (r: seq<RequestName>)
    ensures Ordered(r) && multiset(r) == multiset(s)
  {
    if s == [] then []
    else
      var init := s[..|s| - 1];
      assert s == init + [s[|s| - 1]];
      Insert(s[|s| - 1], SortRequests(init))
  }

  /** `List.indexOf`: the first position of `x`, or -1. */
  function IndexOf(s: seq<RequestName>, x: string): (i: int)
    ensures -1 <= i < |s|
    ensures i == -1 <==> x !in s
    ensures 0 <= i ==> s[i] == x && forall j :: 0 <= j < i ==> s[j] != x
  {
    if s == [] then -1
    else if s[0] == x then 0
    else
      var i := IndexOf(s[1..], x);
      if i < 0 then -1 else i + 1
  }

  /** The sorted listing holds exactly the listed requests. */
  lemma SortKeepsRequests(s: seq<RequestName>, x: string)
    ensures x in SortRequests(s) <==> x in s
  {
    var r := SortRequests(s);
    if x in r {
      var y: RequestName := r[IndexOf(r, x)];
      assert y in multiset(s);
    }
    if x in s {
      var y: RequestName := s[IndexOf(s, x)];
      assert y in multiset(r);
    }
  }

  /** The first request after sorting has the smallest number of the listing. */
  lemma SortedFirstIsLeast(s: seq<RequestName>)
    requires s != []
    ensures SortRequests(s) != []
    ensures forall c :: c in s ==> Number(SortRequests(s)[0]) <= Number(c)
  {
    var r := SortRequests(s);
    assert |r| == |multiset(r)| == |multiset(s)| == |s|;
    forall c | c in s
      ensures Number(r[0]) <= Number(c)
    {
      SortKeepsRequests(s, c);
      var k := IndexOf(r, c);
      if k > 0 {
        assert Compare(r[0], r[k]) <= 0;
      }
    }
  }

  /**
   * The request a waiter watches, just before its own in the sorted listing,
   * is the closest below it: no listed request has a number strictly between
   * the two.
   */
  lemma PredecessorIsImmediate(s: seq<RequestName>, k: int)
    requires 0 < k < |SortRequests(s)|
    ensures var r := SortRequests(s);
      && Number(r[k - 1]) <= Number(r[k])
      && forall c :: c in s ==> !(Number(r[k - 1]) < Number(c) < Number(r[k]))
  {
    var r := SortRequests(s);
    OrderedAt(r, k - 1, k);
    forall c | c in s
      ensures !(Number(r[k - 1]) < Number(c) < Number(r[k]))
    {
      SortKeepsRequests(s, c);
      var j := IndexOf(r, c);
      if j < k {
        OrderedAt(r, j, k - 1);
      } else {
        OrderedAt(r, k, j);
      }
    }
  }

  lemma OrderedAt(s: seq<RequestName>, i: int, j: int)
    requires Ordered(s) && 0 <= i <= j < |s|
    ensures Number(s[i]) <= Number(s[j])
  {
  }

  /** Names are ordered by number, not as text: "9" sorts before "10". */
  lemma NumbersNotText()
    ensures SortRequests(["10", "9"]) == ["9", "10"]
  {
    ParseDigitsOfDigits(9);
    ParseDigitsOfDigits(10);
    var s: seq<RequestName> := ["10", "9"];
    assert s[..1] == ["10"];
    assert SortRequests(["10"]) == ["10"] by {
      var one: seq<RequestName> := ["10"];
      assert one[..0] == [];
    }
    assert Compare("10", "9") == 1;
  }
}
