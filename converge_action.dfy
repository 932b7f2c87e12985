/**
 * The merge rule of the legacy "Converge" operation (`order_outputs`): the
 * values of the named inputs, in the declared order, gathered into one list
 * stored under the first declared output property, next to `'result': 1`.
 */
module ConvergeAction {
  import opened Wrappers
  import opened WorkflowValues

  /** The exceptions `order_outputs` can raise. */
  datatype MergeError =
    | KeyError(key: string)   // an ordered input property has no value
    | IndexError              // no output property is declared

  /**
   * The list comprehension over `input_property_order`: every name looked up
   * in `inputs`, left to right, stopping at the first missing one.
   */
  function MergedList(inputs: map<string, Value>, order: seq<string>): (r: Result<seq<Value>, MergeError>)
    ensures r.Success? <==> forall j :: 0 <= j < |order| ==> order[j] in inputs
    ensures r.Success? ==> |r.value| == |order| && forall j :: 0 <= j < |order| ==> r.value[j] == inputs[order[j]]
    ensures r.Failure? ==> exists k :: 0 <= k < |order| && FirstMissing(inputs, order, k) && r.error == KeyError(order[k])
  {
    if order == [] then Success([])
    else if order[0] !in inputs then
      assert FirstMissing(inputs, order, 0);
      Failure(KeyError(order[0]))
    else
      match MergedList(inputs, order[1..])
      case Failure(e) =>
        var k :| 0 <= k < |order| - 1 && FirstMissing(inputs, order[1..], k) && e == KeyError(order[1..][k]);
        assert FirstMissing(inputs, order, k + 1);
        Failure(e)
      case Success(rest) =>
        assert forall j :: 1 <= j < |order| ==> order[j] == order[1..][j - 1];
        Success([inputs[order[0]]] + rest)
  }

  /** `order[k]` is the first name of `order` that `inputs` lacks. */
  predicate FirstMissing(inputs: map<string, Value>, order: seq<string>, k: nat)
  {
    k < |order| && order[k] !in inputs && forall j :: 0 <= j < k ==> order[j] in inputs
  }

  /**
   * `order_outputs(inputs, input_property_order, output_properties)`: the list
   * is built first, so a missing input wins over a missing output property.
   */
  function OrderOutputs(inputs: map<string, Value>, order: seq<string>, outputs: seq<string>): (r: Result<map<string, Value>, MergeError>)
    ensures r.Success? <==> (forall j :: 0 <= j < |order| ==> order[j] in inputs) && |outputs| > 0
    ensures r.Failure? && r.error.KeyError? ==> exists k :: 0 <= k < |order| && FirstMissing(inputs, order, k) && r.error.key == order[k]
    ensures r.Failure? && r.error.IndexError? ==> outputs == [] && forall j :: 0 <= j < |order| ==> order[j] in inputs
    ensures r.Success? ==> r.value.Keys == {outputs[0], "result"} && r.value["result"] == Int(1)
  {
    match MergedList(inputs, order)
    case Failure(e) => Failure(e)
    case Success(list) =>
      if |outputs| == 0 then Failure(IndexError)
      else Success(map[outputs[0] := List(list), "result" := Int(1)])
  }

  /**
   * Under the first output property the result holds the inputs in declared
   * order, unless that property is itself `result`, which the literal entry
   * overwrites.
   */
  lemma OrderOutputsList(inputs: map<string, Value>, order: seq<string>, outputs: seq<string>)
    requires OrderOutputs(inputs, order, outputs).Success?
    ensures var r := OrderOutputs(inputs, order, outputs).value;
      outputs[0] != "result" ==>
        && r[outputs[0]].List?
        && |r[outputs[0]].items| == |order|
        && forall j :: 0 <= j < |order| ==> r[outputs[0]].items[j] == inputs[order[j]]
  {
  }

  /** When the first output property is `result`, the whole result is `{'result': 1}`. */
  lemma ResultNameCollides(inputs: map<string, Value>, order: seq<string>, outputs: seq<string>)
    requires OrderOutputs(inputs, order, outputs).Success? && outputs[0] == "result"
    ensures OrderOutputs(inputs, order, outputs).value == map["result" := Int(1)]
  {
    var r := OrderOutputs(inputs, order, outputs).value;
    assert r.Keys == {"result"};
  }

  /** Every declared output property but the first is dropped (unless it repeats the first or is `result`). */
  lemma LaterOutputsDropped(inputs: map<string, Value>, order: seq<string>, outputs: seq<string>, j: nat)
    requires OrderOutputs(inputs, order, outputs).Success?
    requires 0 < j < |outputs| && outputs[j] != outputs[0] && outputs[j] != "result"
    ensures outputs[j] !in OrderOutputs(inputs, order, outputs).value
  {
  }

  /**
   * The result depends on `inputs` only through the values of the ordered
   * names: two input maps that agree there (whatever else they hold, and in
   * whatever order a dictionary would list them) give the same result.
   */
  lemma {:induction false} MergeIgnoresOtherInputs(a: map<string, Value>, b: map<string, Value>, order: seq<string>)
    requires forall j :: 0 <= j < |order| ==> (order[j] in a <==> order[j] in b)
    requires forall j :: 0 <= j < |order| && order[j] in a ==> a[order[j]] == b[order[j]]
    ensures MergedList(a, order) == MergedList(b, order)
  {
    if order != [] && order[0] in a {
      MergeIgnoresOtherInputs(a, b, order[1..]);
    }
  }

  /** The same for the whole result. */
  lemma OrderOutputsIgnoresOtherInputs(a: map<string, Value>, b: map<string, Value>, order: seq<string>, outputs: seq<string>)
    requires forall j :: 0 <= j < |order| ==> (order[j] in a <==> order[j] in b)
    requires forall j :: 0 <= j < |order| && order[j] in a ==> a[order[j]] == b[order[j]]
    ensures OrderOutputs(a, order, outputs) == OrderOutputs(b, order, outputs)
  {
    MergeIgnoresOtherInputs(a, b, order);
  }
}
