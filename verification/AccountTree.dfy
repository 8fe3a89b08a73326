/** The accounts beneath the configured ones: a worklist over child links that also
    ends, and finds exactly what is beneath, when the links go round in circles. */
module AccountTree {
  import opened Basics
  import opened LedgerTables
  import opened Ledger

  /** An account and its parent, as the query returns them. */
  datatype AccountRow = AccountRow(id: nat, parent: Option<nat>)

  predicate ChildOf(rows: seq<AccountRow>, child: nat, parent: nat) {
    AccountRow(child, Some(parent)) in rows
  }

  /** Beneath a root, so many links down. */
  ghost predicate BeneathAt(rows: seq<AccountRow>, roots: seq<nat>, account: nat, depth: nat)
    decreases depth
  {
    if depth == 0 then account in roots
    else exists parent: nat :: ChildOf(rows, account, parent) && BeneathAt(rows, roots, parent, depth - 1)
  }

  ghost predicate Beneath(rows: seq<AccountRow>, roots: seq<nat>, account: nat) {
    exists depth: nat :: BeneathAt(rows, roots, account, depth)
  }

  lemma ChildIsBeneath(rows: seq<AccountRow>, roots: seq<nat>, parent: nat, child: nat)
    requires Beneath(rows, roots, parent) && ChildOf(rows, child, parent)
    ensures Beneath(rows, roots, child)
  {
    var depth: nat :| BeneathAt(rows, roots, parent, depth);
    assert BeneathAt(rows, roots, child, depth + 1);
  }

  ghost predicate ClosedUnderChildren(rows: seq<AccountRow>, found: set<nat>) {
    forall child: nat, parent: nat :: parent in found && ChildOf(rows, child, parent) ==> child in found
  }

  lemma {:induction false} ClosedHoldsAll(rows: seq<AccountRow>, roots: seq<nat>, found: set<nat>, account: nat, depth: nat)
    requires ClosedUnderChildren(rows, found) && (forall r :: r in roots ==> r in found) && BeneathAt(rows, roots, account, depth)
    ensures account in found
    decreases depth
  {
    if depth > 0 {
      var parent: nat :| ChildOf(rows, account, parent) && BeneathAt(rows, roots, parent, depth - 1);
      ClosedHoldsAll(rows, roots, found, parent, depth - 1);
    }
  }

  // ------------------------------------------------------------- the worklist

  type Children = map<Option<nat>, seq<nat>>

  function ChildrenIn(children: Children, parent: nat): seq<nat> {
    if Some(parent) in children then children[Some(parent)] else []
  }

  /** The dictionary of children, filled row by row. */
  method GroupByParent(rows: seq<AccountRow>) returns (children: Children)
    ensures forall child: nat, parent: nat :: child in ChildrenIn(children, parent) <==> ChildOf(rows, child, parent)
  {
    children := map[];
    for i := 0 to |rows|
      invariant forall child: nat, parent: nat :: child in ChildrenIn(children, parent) <==> ChildOf(rows[..i], child, parent)
    {
      var row := rows[i];
      assert rows[..i + 1] == rows[..i] + [row];
      ghost var was := children;
      children := children[row.parent := (if row.parent in children then children[row.parent] else []) + [row.id]];
      forall child: nat, parent: nat ensures child in ChildrenIn(children, parent) <==> ChildOf(rows[..i + 1], child, parent) {
        assert ChildrenIn(children, parent) == ChildrenIn(was, parent) + if row.parent == Some(parent) then [row.id] else [];
        assert ChildOf(rows[..i + 1], child, parent) <==> ChildOf(rows[..i], child, parent) || row == AccountRow(child, Some(parent));
      }
    }
    assert rows[..|rows|] == rows;
  }

  function Ids(rows: seq<AccountRow>): set<nat> {
    set r | r in rows :: r.id
  }

  /** Where the loop stands: all found is beneath a root, and what was found and is
      not waiting has had its children taken in, but for the rest of one account's. */
  ghost predicate Progress(rows: seq<AccountRow>, roots: seq<nat>, found: set<nat>, queue: seq<nat>, current: Option<nat>, rest: seq<nat>) {
    && (forall r :: r in roots ==> r in found)
    && (forall a :: a in found ==> Beneath(rows, roots, a))
    && (forall a :: a in queue ==> a in found)
    && (forall child: nat, parent: nat :: parent in found && parent !in queue && ChildOf(rows, child, parent) ==>
          child in found || (Some(parent) == current && child in rest))
  }

  lemma Starts(rows: seq<AccountRow>, roots: seq<nat>, found: set<nat>)
    requires forall r :: r in found <==> r in roots
    ensures Progress(rows, roots, found, roots, None, [])
  {
    forall r | r in roots ensures Beneath(rows, roots, r) {
      assert BeneathAt(rows, roots, r, 0);
    }
  }

  /** Taking an account off the queue leaves its children to be taken in. */
  lemma Popped(rows: seq<AccountRow>, roots: seq<nat>, found: set<nat>, queue: seq<nat>, parent: nat, children: seq<nat>)
    requires Progress(rows, roots, found, queue + [parent], None, [])
    requires forall child :: child in children <==> ChildOf(rows, child, parent)
    ensures Progress(rows, roots, found, queue, Some(parent), children) && parent in found
  {
    assert parent in queue + [parent];
    forall a | a in queue ensures a in found {
      assert a in queue + [parent];
    }
    forall child: nat, p: nat | p in found && p !in queue && ChildOf(rows, child, p) ensures child in found || (p == parent && child in children) {
      assert p in queue + [parent] ==> p == parent;
    }
  }

  lemma Finished(rows: seq<AccountRow>, roots: seq<nat>, found: set<nat>)
    requires Progress(rows, roots, found, [], None, [])
    ensures forall a: nat :: a in found <==> Beneath(rows, roots, a)
  {
    forall a: nat | Beneath(rows, roots, a) ensures a in found {
      var depth: nat :| BeneathAt(rows, roots, a, depth);
      ClosedHoldsAll(rows, roots, found, a, depth);
    }
  }

  lemma FewerLeft(rows: seq<AccountRow>, was: set<nat>, found: set<nat>)
    requires was <= found && forall a :: a in found && a !in was ==> a in Ids(rows)
    ensures found == was || |Ids(rows) - found| < |Ids(rows) - was|
  {
    if x :| x in found && x !in was {
      assert x in Ids(rows) - was && x !in Ids(rows) - found;
      SmallerSet(Ids(rows) - found, Ids(rows) - was);
    }
  }

  /** `configured_subtree_ids`: exactly the roots and everything beneath them, for any
      links between the accounts, circular ones included. */
  method Subtree(rows: seq<AccountRow>, roots: seq<nat>) returns (found: set<nat>)
    ensures forall a: nat :: a in found <==> Beneath(rows, roots, a)
  {
    var queue := roots;
    found := set r | r in roots;
    Starts(rows, roots, found);
    if roots == [] {
      Finished(rows, roots, found);
      return;
    }
    var children := GroupByParent(rows);
    while queue != []
      invariant Progress(rows, roots, found, queue, None, [])
      decreases |Ids(rows) - found|, |queue|
    {
      var parent := queue[|queue| - 1];
      ghost var was := found;
      assert queue == queue[..|queue| - 1] + [parent];
      queue := queue[..|queue| - 1];
      Popped(rows, roots, found, queue, parent, ChildrenIn(children, parent));
      found, queue := TakeChildren(rows, roots, found, queue, parent, ChildrenIn(children, parent));
      FewerLeft(rows, was, found);
    }
    Finished(rows, roots, found);
  }

  lemma SmallerSet(a: set<nat>, b: set<nat>)
    requires a < b
    ensures |a| < |b|
  {
    assert b == a + (b - a);
    assert |b - a| > 0;
  }

  /** The inner loop: an account's children that were not found yet are, and wait. */
  method TakeChildren(rows: seq<AccountRow>, roots: seq<nat>, found: set<nat>, queue: seq<nat>, parent: nat, children: seq<nat>)
    returns (found': set<nat>, queue': seq<nat>)
    requires Progress(rows, roots, found, queue, Some(parent), children) && parent in found
    requires forall child :: child in children <==> ChildOf(rows, child, parent)
    ensures Progress(rows, roots, found', queue', None, [])
    ensures found <= found' && (forall a :: a in found' && a !in found ==> a in Ids(rows))
    ensures found' == found ==> queue' == queue
  {
    found', queue' := found, queue;
    for j := 0 to |children|
      invariant Progress(rows, roots, found', queue', Some(parent), children[j..])
      invariant found <= found' && (forall a :: a in found' && a !in found ==> a in Ids(rows))
      invariant found' == found ==> queue' == queue
    {
      var child := children[j];
      assert children[j..] == [child] + children[j + 1..];
      assert child in children;
      if child !in found' {
        ChildIsBeneath(rows, roots, parent, child);
        assert AccountRow(child, Some(parent)) in rows;
        found' := found' + {child};
        queue' := queue' + [child];
      }
    }
  }

  // -------------------------------------------------------- circles do happen

  /** Re-parenting only refuses an account as its own parent: two accounts can be made
      each other's parent, one call after the other. */
  lemma CirclesAreAllowed(b: Books, x: nat, y: nat)
    requires x in b.accounts && y in b.accounts && x != y
    ensures var once := UpdateAccount(b, x, Some(Some(y)), None);
            && once.Success?
            && var twice := UpdateAccount(once.value, y, Some(Some(x)), None);
            && twice.Success? && twice.value.accounts[x].parent == Some(y) && twice.value.accounts[y].parent == Some(x)
    ensures UpdateAccount(b, x, Some(Some(x)), None) == Failure(BadRequest)
  {
  }
}
