/** TOML documents as finite trees, and the three tree edits the document layer
    is built from: look up, insert and remove-with-pruning
    (crates/spotuify-config/src/document.rs). */
module ConfigTree {
  import opened Wrappers

  datatype Scalar = Text(text: string) | Flag(flag: bool) | Integer(number: int) | Decimal(amount: real)

  datatype Node = Leaf(value: Scalar) | Branch(entries: Table)

  type Table = map<string, Node>

  /** A dotted path, already split at its dots. */
  type Path = seq<string>

  datatype EditError = BlankPath | CrossesValue(segment: string)

  function ItemAt(table: Table, path: Path): (r: Option<Node>)
    decreases |path|
  {
    if path == [] || path[0] !in table then None
    else if |path| == 1 then Some(table[path[0]])
    else match table[path[0]]
      case Leaf(_) => None
      case Branch(entries) => ItemAt(entries, path[1..])
  }

  /** The scalar a path holds, if it holds one. */
  function ScalarAt(table: Table, path: Path): (r: Option<Scalar>)
  {
    match ItemAt(table, path)
    case Some(Leaf(value)) => Some(value)
    case _ => None
  }

  function SetItem(table: Table, path: Path, item: Node): (r: Result<Table, EditError>)
    decreases |path|
  {
    if path == [] then Err(BlankPath)
    else if |path| == 1 then Ok(table[path[0] := item])
    else
      var child := if path[0] in table then table[path[0]] else Branch(map[]);
      match child
      case Leaf(_) => Err(CrossesValue(path[0]))
      case Branch(entries) =>
        var updated :- SetItem(entries, path[1..], item);
        Ok(table[path[0] := Branch(updated)])
  }

  /** Removes the item at `path`; a table left empty on the way down goes too. */
  function RemoveItem(table: Table, path: Path): (r: Table)
    decreases |path|
  {
    if path == [] || path[0] !in table then table
    else if |path| == 1 then table - {path[0]}
    else match table[path[0]]
      case Leaf(_) => table
      case Branch(entries) =>
        var rest := RemoveItem(entries, path[1..]);
        if rest == map[] then table - {path[0]} else table[path[0] := Branch(rest)]
  }

  /** Two paths of which neither leads through the other. */
  predicate Unrelated(p: Path, q: Path)
  {
    !(p <= q) && !(q <= p)
  }

  lemma UnrelatedTails(p: Path, q: Path)
    requires |p| > 0 && |q| > 0 && p[0] == q[0]
    ensures p <= q <==> p[1..] <= q[1..]
  {
    assert p == [p[0]] + p[1..] && q == [q[0]] + q[1..];
  }

  // ---- Laws ----

  /** An insertion succeeds exactly when no proper prefix of the path is a value. */
  lemma {:induction false} SetSucceedsIff(table: Table, path: Path, item: Node)
    ensures SetItem(table, path, item).Ok? <==>
      path != [] && forall n :: 0 < n < |path| ==> ScalarAt(table, path[..n]) == None
    decreases |path|
  {
    if |path| > 1 {
      var child := if path[0] in table then table[path[0]] else Branch(map[]);
      assert path[..1] == [path[0]];
      if child.Branch? {
        SetSucceedsIff(child.entries, path[1..], item);
        forall n | 1 < n < |path|
          ensures ScalarAt(table, path[..n]) == ScalarAt(child.entries, path[1..][..n - 1])
        {
          assert path[..n][1..] == path[1..][..n - 1];
        }
        forall m | 0 < m < |path[1..]|
          ensures ScalarAt(child.entries, path[1..][..m]) == ScalarAt(table, path[..m + 1])
        {
          assert path[..m + 1][1..] == path[1..][..m];
        }
      }
    }
  }

  /** What was inserted is what is read back. */
  lemma {:induction false} SetThenGet(table: Table, path: Path, item: Node)
    requires SetItem(table, path, item).Ok?
    ensures ItemAt(SetItem(table, path, item).value, path) == Some(item)
    decreases |path|
  {
    if |path| > 1 {
      var child := if path[0] in table then table[path[0]] else Branch(map[]);
      SetThenGet(child.entries, path[1..], item);
    }
  }

  /** An insertion changes no item that is neither on its way nor under it, and
      no scalar anywhere else at all. */
  lemma {:induction false} SetFrame(table: Table, path: Path, item: Node, other: Path)
    requires SetItem(table, path, item).Ok? && !(path <= other)
    ensures ScalarAt(SetItem(table, path, item).value, other) == ScalarAt(table, other)
    ensures !(other <= path) ==> ItemAt(SetItem(table, path, item).value, other) == ItemAt(table, other)
    decreases |path|
  {
    if other != [] && path[0] == other[0] {
      UnrelatedTails(path, other);
      UnrelatedTails(other, path);
      var child := if path[0] in table then table[path[0]] else Branch(map[]);
      if |other| > 1 {
        SetFrame(child.entries, path[1..], item, other[1..]);
      }
    }
  }

  /** The item at `path` inside a node; the empty path is the node itself. */
  function ItemIn(node: Node, path: Path): (r: Option<Node>)
  {
    if path == [] then Some(node) else if node.Leaf? then None else ItemAt(node.entries, path)
  }

  /** Under an inserted item lies what the item holds there, and nothing older. */
  lemma {:induction false} SetThenGetUnder(table: Table, path: Path, item: Node, rest: Path)
    requires SetItem(table, path, item).Ok?
    ensures ItemAt(SetItem(table, path, item).value, path + rest) == ItemIn(item, rest)
    decreases |path|
  {
    assert (path + rest)[0] == path[0] && (path + rest)[1..] == path[1..] + rest;
    if |path| > 1 {
      var child := if path[0] in table then table[path[0]] else Branch(map[]);
      SetThenGetUnder(child.entries, path[1..], item, rest);
    } else {
      assert path + rest == [path[0]] + rest && path[1..] + rest == rest;
    }
  }

  function EntriesIn(item: Option<Node>): (r: Table)
  {
    match item
    case Some(Branch(entries)) => entries
    case _ => map[]
  }

  /** Above an inserted item lies the table that was there, with the item put in. */
  lemma {:induction false} SetThenGetAbove(table: Table, path: Path, item: Node, n: nat)
    requires SetItem(table, path, item).Ok? && 0 < n < |path|
    ensures var inner := SetItem(EntriesIn(ItemAt(table, path[..n])), path[n..], item);
      inner.Ok? && ItemAt(SetItem(table, path, item).value, path[..n]) == Some(Branch(inner.value))
    decreases |path|
  {
    var child := if path[0] in table then table[path[0]] else Branch(map[]);
    if n == 1 {
      assert path[..1] == [path[0]];
    } else {
      SetThenGetAbove(child.entries, path[1..], item, n - 1);
      assert path[..n][1..] == path[1..][..n - 1] && path[1..][n - 1..] == path[n..];
    }
  }

  lemma {:induction false} RemoveThenGet(table: Table, path: Path)
    requires path != []
    ensures ItemAt(RemoveItem(table, path), path) == None
    decreases |path|
  {
    if |path| > 1 && path[0] in table && table[path[0]].Branch? {
      RemoveThenGet(table[path[0]].entries, path[1..]);
    }
  }

  /** A removal leaves no empty table on its way. */
  lemma {:induction false} RemovePrunes(table: Table, path: Path, n: nat)
    requires 0 < n < |path|
    ensures ItemAt(RemoveItem(table, path), path[..n]) != Some(Branch(map[]))
    decreases |path|
  {
    assert path[..n][0] == path[0];
    if path[0] in table && table[path[0]].Branch? {
      if n > 1 {
        RemovePrunes(table[path[0]].entries, path[1..], n - 1);
        assert path[..n][1..] == path[1..][..n - 1];
      }
    }
  }

  /** A removal changes no scalar that is not at or under the removed path. */
  lemma {:induction false} RemoveFrame(table: Table, path: Path, other: Path)
    requires !(path <= other)
    ensures ScalarAt(RemoveItem(table, path), other) == ScalarAt(table, other)
    decreases |path|
  {
    if path != [] && other != [] && path[0] == other[0] && path[0] in table && |path| > 1 && table[path[0]].Branch? {
      UnrelatedTails(path, other);
      if |other| > 1 {
        RemoveFrame(table[path[0]].entries, path[1..], other[1..]);
      }
    }
  }

  /** Pruning takes only empty tables, so it never hides an item of another path
      unless that item is itself an empty table. */
  lemma {:induction false} RemoveNeverAdds(table: Table, path: Path, other: Path)
    requires ItemAt(table, other) == None
    ensures ItemAt(RemoveItem(table, path), other) == None
    decreases |path|
  {
    if path != [] && other != [] && path[0] == other[0] && path[0] in table && |path| > 1
       && table[path[0]].Branch? && |other| > 1 {
      RemoveNeverAdds(table[path[0]].entries, path[1..], other[1..]);
    }
  }
}
