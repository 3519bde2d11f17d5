/**
 * The cell-to-argument table of a code object: for every cell variable,
 * the index of the parameter it aliases, or -1.
 */
module CellArgs {
  import opened Wrappers
  import opened Bytecode
  import opened IndexSets

  /**
   * The number of parameter slots that a cell variable may alias. As in the
   * code, the positional-only count is not part of the sum.
   */
  function TotalArgs(argCount: nat, kwonlyargCount: nat, flags: CodeFlags): nat {
    argCount + kwonlyargCount
      + (if flags.hasVarargs then 1 else 0)
      + (if flags.hasVarkeywords then 1 else 0)
  }

  /** The local-variable names that are parameters: the first `totalArgs` of them. */
  function Params(varnames: seq<string>, totalArgs: nat): (p: seq<string>)
    ensures |p| == if totalArgs < |varnames| then totalArgs else |varnames|
    ensures p == varnames[..|p|]
  {
    if totalArgs < |varnames| then varnames[..totalArgs] else varnames
  }

  /**
   * The table entry of one cell variable: its index among the local
   * variables when that index is a parameter slot, and -1 otherwise.
   */
  function CellArg(varnames: seq<string>, totalArgs: nat, cellvar: string): (r: int)
    ensures r == -1 <==> cellvar !in Params(varnames, totalArgs)
    ensures r != -1 ==> 0 <= r < totalArgs && r < |varnames| && varnames[r] == cellvar
  {
    match IndexOf(varnames, cellvar)
    case Some(i) =>
      if i < totalArgs then
        assert cellvar in Params(varnames, totalArgs) by {
          assert Params(varnames, totalArgs)[i] == cellvar;
        }
        i
      else
        assert cellvar !in Params(varnames, totalArgs) by {
          assert Params(varnames, totalArgs) == varnames[..i][..|Params(varnames, totalArgs)|];
        }
        -1
    case None => -1
  }

  /**
   * `cell2arg`: no table when there are no cell variables or when none of
   * them is a parameter; otherwise the table of every cell variable's entry.
   */
  function Cell2Arg(
    cellvarCache: seq<string>,
    varnameCache: seq<string>,
    argCount: nat,
    kwonlyargCount: nat,
    flags: CodeFlags): (r: Option<seq<int>>)
    ensures cellvarCache == [] ==> r == None
    ensures r.None? <==>
      forall i :: 0 <= i < |cellvarCache| ==>
        cellvarCache[i] !in Params(varnameCache, TotalArgs(argCount, kwonlyargCount, flags))
    ensures r.Some? ==> |r.value| == |cellvarCache|
    ensures r.Some? ==> forall i :: 0 <= i < |cellvarCache| ==>
      (r.value[i] == -1 <==>
        cellvarCache[i] !in Params(varnameCache, TotalArgs(argCount, kwonlyargCount, flags)))
    ensures r.Some? ==> forall i :: 0 <= i < |cellvarCache| && r.value[i] != -1 ==>
      0 <= r.value[i] < TotalArgs(argCount, kwonlyargCount, flags) && r.value[i] < |varnameCache|
      && varnameCache[r.value[i]] == cellvarCache[i]
  {
    if cellvarCache == [] then None
    else
      var totalArgs := TotalArgs(argCount, kwonlyargCount, flags);
      var table := seq(|cellvarCache|, i requires 0 <= i < |cellvarCache| =>
        CellArg(varnameCache, totalArgs, cellvarCache[i]));
      var foundCellarg := exists i :: 0 <= i < |table| && table[i] != -1;
      if foundCellarg then Some(table)
      else
        assert forall i :: 0 <= i < |cellvarCache| ==>
          CellArg(varnameCache, totalArgs, cellvarCache[i]) == -1 by {
          forall i | 0 <= i < |cellvarCache|
            ensures CellArg(varnameCache, totalArgs, cellvarCache[i]) == -1
          {
            assert table[i] == CellArg(varnameCache, totalArgs, cellvarCache[i]);
          }
        }
        None
  }

  /**
   * With locals [a, b], two positional parameters and cells [b, c], b is
   * parameter 1 and c is no parameter; without cells, or when no cell is a
   * parameter, there is no table.
   */
  lemma Cell2ArgExamples()
    ensures Cell2Arg(["b", "c"], ["a", "b"], 2, 0, CodeFlags(false, false, 0)) == Some([1, -1])
    ensures Cell2Arg([], ["a", "b"], 2, 0, CodeFlags(false, false, 0)) == None
    ensures Cell2Arg(["c"], ["a", "b"], 2, 0, CodeFlags(false, false, 0)) == None
  {
    var r := Cell2Arg(["b", "c"], ["a", "b"], 2, 0, CodeFlags(false, false, 0));
    assert "b" in Params(["a", "b"], 2) by {
      assert Params(["a", "b"], 2)[1] == "b";
    }
    assert IndexOf(["a", "b"], "b") == Some(1);
    assert CellArg(["a", "b"], 2, "b") == 1;
    var cells := ["b", "c"];
    assert cells[0] in Params(["a", "b"], TotalArgs(2, 0, CodeFlags(false, false, 0)));
    assert r.Some?;
    assert r.value[0] == 1;
    assert r.value[1] == -1;
    assert r.value == [1, -1];
  }
}
