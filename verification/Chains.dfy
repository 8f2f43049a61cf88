/** The order in which a traversal with the lock released meets the nodes of a list:
    session numbers for nodes, links that unlinked nodes have kept. */
module Chains {
  import opened Common

  predicate Distinct(xs: seq<nat>) {
    forall i, j :: 0 <= i < j < |xs| ==> xs[i] != xs[j]
  }

  /** The sequence without the members of a set. */
  function Without(xs: seq<nat>, gone: set<nat>): seq<nat> {
    if xs == [] then [] else (if xs[0] in gone then [] else [xs[0]]) + Without(xs[1..], gone)
  }

  /** What is behind the first x. */
  function Behind(xs: seq<nat>, x: nat): seq<nat> {
    if xs == [] then [] else if xs[0] == x then xs[1..] else Behind(xs[1..], x)
  }

  lemma {:induction false} WithoutConcat(a: seq<nat>, b: seq<nat>, gone: set<nat>)
    ensures Without(a + b, gone) == Without(a, gone) + Without(b, gone)
  {
    if a == [] {
      assert a + b == b;
    } else {
      assert (a + b)[1..] == a[1..] + b;
      WithoutConcat(a[1..], b, gone);
    }
  }

  lemma {:induction false} WithoutTwice(a: seq<nat>, gone: set<nat>, x: nat)
    ensures Without(Without(a, gone), {x}) == Without(a, gone + {x})
  {
    if a != [] {
      WithoutTwice(a[1..], gone, x);
      WithoutConcat(if a[0] in gone then [] else [a[0]], Without(a[1..], gone), {x});
    }
  }

  lemma {:induction false} WithoutAbsent(a: seq<nat>, gone: set<nat>)
    requires forall x :: x in gone ==> x !in a
    ensures Without(a, gone) == a
  {
    if a != [] {
      WithoutAbsent(a[1..], gone);
    }
  }

  lemma {:induction false} WithoutMembers(a: seq<nat>, gone: set<nat>)
    ensures forall x :: x in Without(a, gone) <==> x in a && x !in gone
    ensures Distinct(a) ==> Distinct(Without(a, gone))
  {
    if a != [] {
      WithoutMembers(a[1..], gone);
    }
  }

  /** Dropping the one occurrence of x. */
  lemma {:induction false} WithoutAt(a: seq<nat>, i: nat)
    requires Distinct(a) && i < |a|
    ensures Without(a, {a[i]}) == a[..i] + a[i + 1..]
  {
    if i == 0 {
      WithoutAbsent(a[1..], {a[0]});
      assert Without(a, {a[0]}) == Without(a[1..], {a[0]});
    } else {
      WithoutAt(a[1..], i - 1);
      assert a[1..][i - 1] == a[i] && a[1..][..i - 1] == a[1..i] && a[1..][i..] == a[i + 1..];
      assert [a[0]] + a[1..i] == a[..i];
    }
  }

  lemma {:induction false} BehindWithout(a: seq<nat>, c: nat, x: nat)
    requires c != x
    ensures Behind(Without(a, {x}), c) == Without(Behind(a, c), {x})
  {
    if a != [] {
      BehindWithout(a[1..], c, x);
      if a[0] != x {
        assert ([a[0]] + Without(a[1..], {x}))[1..] == Without(a[1..], {x});
      } else {
        assert Without(a, {x}) == Without(a[1..], {x});
      }
    }
  }

  lemma {:induction false} BehindNext(a: seq<nat>, c: nat)
    requires Distinct(a) && Behind(a, c) != []
    ensures Behind(a, Behind(a, c)[0]) == Behind(a, c)[1..] && Behind(a, c)[0] in a
  {
    if a[0] == c {
      var d := a[1];
      assert a[0] != d;
    } else {
      BehindNext(a[1..], c);
      var d := Behind(a, c)[0];
      var k :| 0 <= k < |a[1..]| && a[1..][k] == d;
      assert a[k + 1] == d && a[0] != d;
    }
  }

  lemma SkipAhead(seen: seq<nat>, rest: seq<nat>, start: seq<nat>, skipped: set<nat>, x: nat)
    requires seen + rest == Without(start, skipped) && Distinct(seen + rest) && x in rest
    ensures seen + Without(rest, {x}) == Without(start, skipped + {x})
  {
    var k :| 0 <= k < |rest| && rest[k] == x;
    assert (seen + rest)[|seen| + k] == x;
    assert forall i :: 0 <= i < |seen| ==> (seen + rest)[i] == seen[i];
    hide Without;
    WithoutAbsent(seen, {x});
    WithoutConcat(seen, rest, {x});
    WithoutTwice(start, skipped, x);
  }

  /** Newer sessions are nearer to the head of the list. */
  predicate Descending(listed: seq<nat>) {
    forall i, j :: 0 <= i < j < |listed| ==> listed[i] > listed[j]
  }

  /** Where the link of a node leads: to the next node of the list if the node is
      listed, else to where it led when the node was unlinked. */
  function Succ(listed: seq<nat>, links: map<nat, Option<nat>>, c: nat): Option<nat> {
    if c in listed then
      if Behind(listed, c) == [] then None else Some(Behind(listed, c)[0])
    else if c in links then links[c] else None
  }

  /** The nodes met by following links from c. Links lead to older sessions. */
  function Chain(listed: seq<nat>, links: map<nat, Option<nat>>, c: nat): seq<nat>
    decreases c
  {
    match Succ(listed, links, c)
    case None => []
    case Some(y) => if y < c then [y] + Chain(listed, links, y) else []
  }

  /** Every link leads to an older node, listed or unlinked. */
  ghost predicate Shape(listed: seq<nat>, links: map<nat, Option<nat>>) {
    && Descending(listed)
    && (forall k :: k in links ==> k !in listed)
    && (forall k :: k in links && links[k].Some? ==> links[k].value < k && OnRecord(listed, links, links[k].value))
  }

  predicate OnRecord(listed: seq<nat>, links: map<nat, Option<nat>>, c: nat) {
    c in listed || c in links
  }

  lemma DescendingDistinct(listed: seq<nat>)
    requires Descending(listed)
    ensures Distinct(listed)
  {
  }

  lemma {:induction false} BehindMembers(listed: seq<nat>, c: nat)
    requires Descending(listed) && c in listed
    ensures forall y :: y in Behind(listed, c) ==> y in listed && y < c
    ensures Descending(Behind(listed, c))
  {
    if listed[0] != c {
      assert c in listed[1..];
      BehindMembers(listed[1..], c);
    }
  }

  lemma SuccOlder(listed: seq<nat>, links: map<nat, Option<nat>>, c: nat)
    requires Shape(listed, links)
    ensures var y := Succ(listed, links, c);
            y.Some? ==> y.value < c && OnRecord(listed, links, y.value)
  {
    if c in listed {
      BehindMembers(listed, c);
      var rest := Behind(listed, c);
      assert rest != [] ==> rest[0] in rest;
    }
    hide Behind;
  }

  /** From a listed node the links lead through the rest of the list. */
  lemma {:induction false} ChainListed(listed: seq<nat>, links: map<nat, Option<nat>>, c: nat)
    requires Descending(listed) && c in listed
    ensures Chain(listed, links, c) == Behind(listed, c)
    decreases c
  {
    BehindMembers(listed, c);
    if Behind(listed, c) != [] {
      DescendingDistinct(listed);
      BehindNext(listed, c);
      hide Descending, Distinct;
      ChainListed(listed, links, Behind(listed, c)[0]);
    }
  }

  /** A node put in front changes no chain. */
  lemma {:induction false} ChainAdd(e: nat, listed: seq<nat>, links: map<nat, Option<nat>>, c: nat)
    requires Shape(listed, links) && e !in links && c < e
    ensures Chain([e] + listed, links, c) == Chain(listed, links, c)
    decreases c
  {
    assert ([e] + listed)[1..] == listed;
    SuccOlder(listed, links, c);
    assert Succ([e] + listed, links, c) == Succ(listed, links, c);
    hide Shape, Behind;
    match Succ(listed, links, c)
    case None =>
    case Some(y) => ChainAdd(e, listed, links, y);
  }

  lemma NewestInFront(e: nat, listed: seq<nat>)
    requires Descending(listed) && forall y :: y in listed ==> y < e
    ensures Descending([e] + listed)
  {
    var more := [e] + listed;
    forall i, j | 0 <= i < j < |more| ensures more[i] > more[j] {
      assert more[j] == listed[j - 1] && listed[j - 1] in listed;
      assert i > 0 ==> more[i] == listed[i - 1];
    }
  }

  lemma ShapeAdd(e: nat, listed: seq<nat>, links: map<nat, Option<nat>>)
    requires Shape(listed, links) && e !in links && forall y :: y in listed ==> y < e
    ensures Shape([e] + listed, links)
  {
    NewestInFront(e, listed);
    assert forall y :: y in [e] + listed <==> y == e || y in listed;
    hide Descending;
  }

  /** The links after x has been unlinked: x keeps its own. */
  function Unlinking(listed: seq<nat>, links: map<nat, Option<nat>>, x: nat): map<nat, Option<nat>> {
    links[x := Succ(listed, links, x)]
  }

  lemma {:induction false} WithoutDescends(listed: seq<nat>, x: nat)
    requires Descending(listed)
    ensures Descending(Without(listed, {x}))
  {
    if listed != [] {
      WithoutDescends(listed[1..], x);
      WithoutMembers(listed[1..], {x});
      HeadNewest(listed);
      WithoutHead(listed, x);
      hide Without, Descending;
      var rest := Without(listed[1..], {x});
      if listed[0] == x {
        assert [] + rest == rest;
      } else {
        NewestInFront(listed[0], rest);
      }
    }
  }

  lemma HeadNewest(listed: seq<nat>)
    requires Descending(listed) && listed != []
    ensures forall y :: y in listed[1..] ==> y < listed[0]
  {
    forall y | y in listed[1..] ensures y < listed[0] {
      var j :| 0 <= j < |listed[1..]| && listed[1..][j] == y;
      assert listed[j + 1] == y;
    }
  }

  lemma WithoutHead(listed: seq<nat>, x: nat)
    requires listed != []
    ensures Without(listed, {x}) == (if listed[0] == x then [] else [listed[0]]) + Without(listed[1..], {x})
  {
  }

  lemma ShapeUnlink(listed: seq<nat>, links: map<nat, Option<nat>>, x: nat)
    requires Shape(listed, links) && x in listed
    ensures Shape(Without(listed, {x}), Unlinking(listed, links, x))
  {
    WithoutMembers(listed, {x});
    WithoutDescends(listed, x);
    SuccOlder(listed, links, x);
    hide Without, Succ, Descending;
  }

  /** Unlinking a node: a traversal that is at a listed node will no longer meet it; one
      that is at an unlinked node meets it exactly if the links it follows still lead
      there. Nothing else about its way changes. */
  lemma {:induction false} ChainUnlink(listed: seq<nat>, links: map<nat, Option<nat>>, x: nat, c: nat)
    requires Shape(listed, links) && x in listed && OnRecord(listed, links, c)
    ensures var was, now := Chain(listed, links, c), Chain(Without(listed, {x}), Unlinking(listed, links, x), c);
            now == was || (now == Without(was, {x}) && x !in now)
    ensures c in listed && c != x ==>
              Chain(Without(listed, {x}), Unlinking(listed, links, x), c) == Without(Chain(listed, links, c), {x})
    decreases c
  {
    var less, kept := Without(listed, {x}), Unlinking(listed, links, x);
    WithoutMembers(listed, {x});
    WithoutDescends(listed, x);
    if c in listed && c != x {
      ChainListed(listed, links, c);
      ChainListed(less, kept, c);
      BehindWithout(listed, c, x);
      WithoutMembers(Behind(listed, c), {x});
    } else {
      SuccOlder(listed, links, c);
      assert Succ(less, kept, c) == Succ(listed, links, c);
      if Succ(listed, links, c).Some? {
        ChainUnlinkOn(listed, links, x, c, Succ(listed, links, c).value);
      }
    }
  }

  lemma ChainUnlinkOn(listed: seq<nat>, links: map<nat, Option<nat>>, x: nat, c: nat, y: nat)
    requires Shape(listed, links) && x in listed && OnRecord(listed, links, c) && (c !in listed || c == x)
    requires Succ(listed, links, c) == Some(y) && y < c && OnRecord(listed, links, y)
    requires Succ(Without(listed, {x}), Unlinking(listed, links, x), c) == Some(y)
    ensures var was, now := Chain(listed, links, c), Chain(Without(listed, {x}), Unlinking(listed, links, x), c);
            now == was || (now == Without(was, {x}) && x !in now)
    decreases c, 0
  {
    ChainUnlink(listed, links, x, y);
    ChainOlder(listed, links, y);
    var way := Chain(listed, links, y);
    if y == x {
      WithoutAbsent(way, {x});
    } else {
      assert ([y] + way)[1..] == way;
      assert Without([y] + way, {x}) == [y] + Without(way, {x});
    }
    hide Shape, Succ, Without, Unlinking;
  }

  lemma {:induction false} ChainOlder(listed: seq<nat>, links: map<nat, Option<nat>>, c: nat)
    ensures forall y :: y in Chain(listed, links, c) ==> y < c
    decreases c
  {
    hide Succ;
    match Succ(listed, links, c) {
      case None =>
      case Some(y) => if y < c { ChainOlder(listed, links, y); }
    }
  }
}
