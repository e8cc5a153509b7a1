/**
 * The first generation of the layer rules, in
 * src/imports_info/queries/internal_imports/layers.rs: the same three
 * nested loops as the layered architecture contract, with deep imports
 * always forbidden. Its two sibling loops that skip an item paired with
 * itself are the loop `Layers.PushDistinctPairs` models. That file declares its own `Layer` and
 * `ForbiddenImport`, field for field those of the contract, so the model
 * shares them.
 */
module LegacyLayers {
  import opened Contracts
  import opened Layers

  /**
   * `get_forbidden_imports` of the first generation: exactly the rules the
   * contract's generator makes when deep imports are not allowed, and as
   * many of them.
   */
  method GetForbiddenImports(layers: seq<Layer>) returns (r: seq<ForbiddenImport>)
    ensures |r| == RuleCount(layers, false, |layers|)
    ensures forall f :: f in r <==> IsForbidden(layers, false, f)
  {
    r := [];
    for idx := 0 to |layers|
      invariant |r| == RuleCount(layers, false, idx)
      invariant forall f :: f in r <==> exists i :: 0 <= i < idx && RuleOf(layers, false, i, f)
    {
      var r0 := r;
      r := PushUpward(r, layers, idx);
      if idx >= 2 {
        r := PushDownward(r, layers, idx);
      }
      if layers[idx].siblingsIndependent {
        r := PushSideways(r, layers, idx);
      }
      assert forall f :: f in r <==> f in r0 || RuleOf(layers, false, idx, f);
    }
  }
}
