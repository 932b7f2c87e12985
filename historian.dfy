/**
 * The historian's update guard (`WorkflowHistorianServiceInterface.update`):
 * updates for negative plan ids are dropped, every other update is
 * published as one message to the configured exchange and routing key. The
 * broker is represented by the sequence of publications it has received.
 */
module Historian {

  /** The keyword arguments `update` names itself; the extra ones can never repeat them. */
  const NamedFields: set<string> := {"net_key", "operation_id", "color", "name", "workflow_plan_id"}

  /** One call of `update`: the named arguments and the extra keyword arguments. */
  datatype UpdateCall = UpdateCall(
    netKey: string,
    operationId: nat,
    color: int,
    name: string,
    workflowPlanId: int,
    extra: map<string, string>)

  /** An `UpdateMessage`. */
  datatype UpdateMessage = UpdateMessage(
    netKey: string,
    operationId: nat,
    color: int,
    name: string,
    workflowPlanId: int,
    extra: map<string, string>)

  /** One `broker.publish(exchange, routing_key, message)`. */
  datatype Publication = Publication(exchange: string, routingKey: string, message: UpdateMessage)

  /** What `update` returns: an already-fired deferred, or the pending publication at `position` in the outbox. */
  datatype Reply = Ignored | Published(position: nat)

  /** The publications one call makes. */
  function Sent(exchange: string, routingKey: string, u: UpdateCall): (r: seq<Publication>)
    ensures |r| <= 1
    ensures r == [] <==> u.workflowPlanId < 0
    ensures r != [] ==>
      && r[0].exchange == exchange && r[0].routingKey == routingKey
      && r[0].message.netKey == u.netKey && r[0].message.operationId == u.operationId
      && r[0].message.color == u.color && r[0].message.name == u.name
      && r[0].message.workflowPlanId == u.workflowPlanId && r[0].message.extra == u.extra
  {
    if u.workflowPlanId < 0 then []
    else [Publication(exchange, routingKey, UpdateMessage(u.netKey, u.operationId, u.color, u.name, u.workflowPlanId, u.extra))]
  }

  /** The publications a series of calls makes, in call order. */
  function History(exchange: string, routingKey: string, calls: seq<UpdateCall>): seq<Publication>
  {
    if calls == [] then []
    else History(exchange, routingKey, calls[..|calls| - 1]) + Sent(exchange, routingKey, calls[|calls| - 1])
  }

  /** The calls whose plan id is not negative, in order. */
  function Kept(calls: seq<UpdateCall>): (r: seq<UpdateCall>)
    ensures |r| <= |calls|
  {
    if calls == [] then []
    else Kept(calls[..|calls| - 1]) + (if calls[|calls| - 1].workflowPlanId < 0 then [] else [calls[|calls| - 1]])
  }

  /**
   * Over any series of calls, the broker receives exactly one message per
   * call with a non-negative plan id, in call order, each carrying that
   * call's fields and addressed to the configured exchange and routing key.
   */
  lemma {:induction false} HistoryIsKept(exchange: string, routingKey: string, calls: seq<UpdateCall>)
    ensures var h := History(exchange, routingKey, calls);
      var k := Kept(calls);
      && |h| == |k|
      && forall i :: 0 <= i < |h| ==>
           && h[i].exchange == exchange && h[i].routingKey == routingKey
           && h[i].message == UpdateMessage(k[i].netKey, k[i].operationId, k[i].color, k[i].name, k[i].workflowPlanId, k[i].extra)
  {
    if calls != [] {
      HistoryIsKept(exchange, routingKey, calls[..|calls| - 1]);
    }
  }

  /** No message of a series of calls carries a negative plan id. */
  lemma {:induction false} NoNegativePlan(exchange: string, routingKey: string, calls: seq<UpdateCall>)
    ensures forall p :: p in History(exchange, routingKey, calls) ==> p.message.workflowPlanId >= 0
  {
    if calls != [] {
      NoNegativePlan(exchange, routingKey, calls[..|calls| - 1]);
    }
  }

  class HistorianService {
    const exchange: string
    const routingKey: string
    /** Everything published to the broker so far. */
    var outbox: seq<Publication>

    constructor (exchange: string, routingKey: string)
      ensures this.exchange == exchange && this.routingKey == routingKey && outbox == []
    {
      this.exchange := exchange;
      this.routingKey := routingKey;
      outbox := [];
    }

    /**
     * `update`: for a negative plan id nothing is published and an
     * already-successful reply comes back; otherwise one message goes out
     * and earlier publications are untouched.
     */
    method Update(netKey: string, operationId: nat, color: int, name: string, workflowPlanId: int, extra: map<string, string>)
      returns (reply: Reply)
      requires forall k :: k in extra ==> k !in NamedFields
      modifies this`outbox
      ensures outbox == old(outbox) + Sent(exchange, routingKey, UpdateCall(netKey, operationId, color, name, workflowPlanId, extra))
      ensures reply.Ignored? <==> workflowPlanId < 0
      ensures reply.Published? ==> reply.position == |old(outbox)|
    {
      if workflowPlanId < 0 {
        return Ignored;
      }
      var message := UpdateMessage(netKey, operationId, color, name, workflowPlanId, extra);
      reply := Publish(message);
    }

    /** `broker.publish(self.exchange, self.routing_key, message)`. */
    method Publish(message: UpdateMessage) returns (reply: Reply)
      modifies this`outbox
      ensures outbox == old(outbox) + [Publication(exchange, routingKey, message)]
      ensures reply == Published(|old(outbox)|)
    {
      reply := Published(|outbox|);
      outbox := outbox + [Publication(exchange, routingKey, message)];
    }
  }
}
