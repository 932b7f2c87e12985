/**
 * Writing an operation's outputs into the variables of its net
 * (`store_variable` and `store_outputs`): one variable per output, then one
 * variable listing the output names.
 */
module Store {
  import opened Wrappers
  import opened WorkflowValues

  /**
   * The variable-name builders `output_variable_name(operation_id, name,
   * parallel_idx)` and `op_outputs_variable_name(operation_id, parallel_idx)`,
   * whose definitions are not part of this model.
   */
  datatype KeyBuilders = KeyBuilders(output: (nat, string, nat) -> string, outputsList: (nat, nat) -> string)

  /**
   * What the storage rules rely on from the builders: different output names
   * of one operation and parallel index get different variables, and none of
   * them is the outputs-list variable.
   */
  ghost predicate Separated(kb: KeyBuilders)
  {
    && (forall o, n1, n2, i :: kb.output(o, n1, i) == kb.output(o, n2, i) ==> n1 == n2)
    && (forall o, n, i :: kb.output(o, n, i) != kb.outputsList(o, i))
  }

  predicate Distinct(s: seq<string>)
  {
    forall i, j :: 0 <= i < j < |s| ==> s[i] != s[j]
  }

  /** `order` lists every key of `data` exactly once: an iteration order of the dictionary. */
  ghost predicate IsListing(order: seq<string>, data: map<string, Value>)
  {
    Distinct(order) && forall k :: k in order <==> k in data
  }

  /** The value of the outputs-list variable: the output names in iteration order. */
  function KeyList(order: seq<string>): (r: Value)
    ensures r.List? && |r.items| == |order| && forall j :: 0 <= j < |order| ==> r.items[j] == Str(order[j])
  {
    List(seq(|order|, j requires 0 <= j < |order| => Str(order[j])))
  }

  /** The variables after `store_variable` has been called for the names of `order`, in that order. */
  function WriteOutputs(vars: map<string, Value>, kb: KeyBuilders, operationId: nat, parallelIdx: nat,
                        data: map<string, Value>, order: seq<string>): map<string, Value>
    requires forall k :: k in order ==> k in data
  {
    if order == [] then vars
    else
      var k := order[|order| - 1];
      WriteOutputs(vars, kb, operationId, parallelIdx, data, order[..|order| - 1])[kb.output(operationId, k, parallelIdx) := data[k]]
  }

  /** The variables after a non-empty `store_outputs` that visited the outputs in `order`. */
  function Stored(vars: map<string, Value>, kb: KeyBuilders, operationId: nat, parallelIdx: nat,
                  data: map<string, Value>, order: seq<string>): map<string, Value>
    requires forall k :: k in order ==> k in data
  {
    WriteOutputs(vars, kb, operationId, parallelIdx, data, order)[kb.outputsList(operationId, parallelIdx) := KeyList(order)]
  }

  /**
   * Writing the outputs of `order` sets each of their variables to its value
   * (the builders keep names apart) and leaves every other variable as it was.
   */
  lemma {:induction false} WriteOutputsEffect(vars: map<string, Value>, kb: KeyBuilders, operationId: nat, parallelIdx: nat,
                                              data: map<string, Value>, order: seq<string>)
    requires Separated(kb) && forall k :: k in order ==> k in data
    ensures var w := WriteOutputs(vars, kb, operationId, parallelIdx, data, order);
      && (forall k :: k in order ==> kb.output(operationId, k, parallelIdx) in w && w[kb.output(operationId, k, parallelIdx)] == data[k])
      && (forall x :: (forall k :: k in order ==> x != kb.output(operationId, k, parallelIdx)) ==>
            (x in w <==> x in vars) && (x in vars ==> w[x] == vars[x]))
  {
    if order != [] {
      var init := order[..|order| - 1];
      assert forall k :: k in init ==> k in order;
      WriteOutputsEffect(vars, kb, operationId, parallelIdx, data, init);
      assert forall k :: k in order ==> k in init || k == order[|order| - 1];
    }
  }

  /** Every output is readable at its variable after `store_outputs`. */
  lemma StoredReadable(vars: map<string, Value>, kb: KeyBuilders, operationId: nat, parallelIdx: nat,
                       data: map<string, Value>, order: seq<string>)
    requires Separated(kb) && IsListing(order, data)
    ensures var s := Stored(vars, kb, operationId, parallelIdx, data, order);
      forall k :: k in data ==> kb.output(operationId, k, parallelIdx) in s && s[kb.output(operationId, k, parallelIdx)] == data[k]
  {
    WriteOutputsEffect(vars, kb, operationId, parallelIdx, data, order);
  }

  /** The outputs-list variable holds exactly the output names, each once. */
  lemma StoredKeyList(vars: map<string, Value>, kb: KeyBuilders, operationId: nat, parallelIdx: nat,
                      data: map<string, Value>, order: seq<string>)
    requires IsListing(order, data)
    ensures var l := Stored(vars, kb, operationId, parallelIdx, data, order)[kb.outputsList(operationId, parallelIdx)];
      && l.List? && |l.items| == |data|
      && (forall v :: v in l.items <==> v.Str? && v.s in data)
  {
    var l := KeyList(order);
    assert forall v: Value :: v in l.items ==> exists j :: 0 <= j < |order| && v == Str(order[j]);
    assert forall v: Value :: v.Str? && v.s in order ==> exists j :: 0 <= j < |order| && v == l.items[j];
    ListingSize(order, data.Keys);
  }

  /** A sequence without repetitions that lists exactly `keys` is as long as `keys` is large. */
  lemma {:induction false} ListingSize(order: seq<string>, keys: set<string>)
    requires Distinct(order) && forall k :: k in order <==> k in keys
    ensures |order| == |keys|
  {
    if order == [] {
      assert keys == {};
    } else {
      var k := order[|order| - 1];
      var init := order[..|order| - 1];
      assert forall x :: x in init <==> x in keys - {k};
      ListingSize(init, keys - {k});
    }
  }

  /** Variables other than the outputs' and the outputs-list's are untouched. */
  lemma StoredFrame(vars: map<string, Value>, kb: KeyBuilders, operationId: nat, parallelIdx: nat,
                    data: map<string, Value>, order: seq<string>, x: string)
    requires Separated(kb) && IsListing(order, data)
    requires x != kb.outputsList(operationId, parallelIdx)
    requires forall k :: k in data ==> x != kb.output(operationId, k, parallelIdx)
    ensures var s := Stored(vars, kb, operationId, parallelIdx, data, order);
      (x in s <==> x in vars) && (x in vars ==> s[x] == vars[x])
  {
    WriteOutputsEffect(vars, kb, operationId, parallelIdx, data, order);
  }

  /**
   * The output variables do not depend on the order in which the dictionary
   * is visited: any two iteration orders write the same values.
   */
  lemma WriteOrderIrrelevant(vars: map<string, Value>, kb: KeyBuilders, operationId: nat, parallelIdx: nat,
                             data: map<string, Value>, order1: seq<string>, order2: seq<string>)
    requires Separated(kb) && IsListing(order1, data) && IsListing(order2, data)
    ensures WriteOutputs(vars, kb, operationId, parallelIdx, data, order1) == WriteOutputs(vars, kb, operationId, parallelIdx, data, order2)
  {
    WriteOutputsEffect(vars, kb, operationId, parallelIdx, data, order1);
    WriteOutputsEffect(vars, kb, operationId, parallelIdx, data, order2);
    var w1 := WriteOutputs(vars, kb, operationId, parallelIdx, data, order1);
    var w2 := WriteOutputs(vars, kb, operationId, parallelIdx, data, order2);
    forall x | x in w1 || x in w2
      ensures x in w1 && x in w2 && w1[x] == w2[x]
    {
      if k :| k in data && x == kb.output(operationId, k, parallelIdx) {
        assert k in order1 && k in order2;
      }
    }
  }

  /** The variables of one net; `set_variable` replaces one of them. */
  class Net {
    var variables: map<string, Value>

    constructor (variables: map<string, Value>)
      ensures this.variables == variables
    {
      this.variables := variables;
    }

    method SetVariable(key: string, value: Value)
      modifies this
      ensures variables == old(variables)[key := value]
    {
      variables := variables[key := value];
    }
  }

  /** `store_variable`: exactly the output's variable is set. */
  method StoreVariable(net: Net, kb: KeyBuilders, operationId: nat, parallelIdx: nat, name: string, value: Value)
    modifies net
    ensures net.variables == old(net.variables)[kb.output(operationId, name, parallelIdx) := value]
  {
    var key := kb.output(operationId, name, parallelIdx);
    net.SetVariable(key, value);
  }

  /**
   * `store_outputs`: nothing for missing or empty data; otherwise every output
   * in the dictionary's iteration order (returned as `order`), then the list
   * of output names.
   */
  method StoreOutputs(wfData: Option<map<string, Value>>, net: Net, kb: KeyBuilders, operationId: nat, parallelIdx: nat)
    returns (order: seq<string>)
    modifies net
    ensures wfData.None? || wfData.value == map[] ==> net.variables == old(net.variables) && order == []
    ensures wfData.Some? && wfData.value != map[] ==>
      && IsListing(order, wfData.value)
      && net.variables == Stored(old(net.variables), kb, operationId, parallelIdx, wfData.value, order)
  {
    order := [];
    if wfData.None? || wfData.value == map[] {
      return;
    }
    var data := wfData.value;
    var rest := data.Keys;
    while rest != {}
      invariant Distinct(order) && forall k :: k in data <==> k in order || k in rest
      invariant forall k :: k in order ==> k !in rest
      invariant net.variables == WriteOutputs(old(net.variables), kb, operationId, parallelIdx, data, order)
      decreases rest
    {
      var k :| k in rest;
      StoreVariable(net, kb, operationId, parallelIdx, k, data[k]);
      ghost var before := order;
      order := order + [k];
      rest := rest - {k};
      assert order[..|order| - 1] == before;
    }
    net.SetVariable(kb.outputsList(operationId, parallelIdx), KeyList(order));
  }
}
