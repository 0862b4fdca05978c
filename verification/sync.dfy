/**
 * Properties that relate several calls: what the handlers write back when the
 * CRM echoes ids, how a second sync turns into updates, and what a failed
 * lead upsert leaves behind. The milestone handlers, `insurantAfterInsert`
 * and `backCallAfterInsert` with a found order ensure `SyncedPair` of the
 * upserts they send, so these lemmas are stated over that shared contract
 * and hold of any of them.
 */
module Sync {
  import opened Wrappers
  import opened Json
  import opened Entities
  import opened Fields
  import opened Gateway
  import opened Handlers

  /**
   * The answer of a CRM that accepts every login (setting `session`) and
   * assigns `leadId` to every lead upsert and `contactId` to every contact
   * upsert; a request it cannot decode fails.
   */
  function EchoReply(session: string, leadId: Json, contactId: Json, req: Request): Reply {
    match req
    case AuthRequest(_, _) => Reply(true, Null, Some(session))
    case SetRequest(_, env, _) =>
      match Unwrap(env)
      case Some(s) => Reply(true, EchoResponse(s.objType, s.op, if s.objType == Lead then leadId else contactId), None)
      case None => Reply(false, Null, None)
  }

  function EchoingCrm(session: string, leadId: Json, contactId: Json): Net {
    (k: nat, req: Request) => EchoReply(session, leadId, contactId, req)
  }

  /** Every exchange of `u` got the echoing CRM's answer. */
  predicate Echoed(u: seq<Exchange>, session: string, leadId: Json, contactId: Json) {
    forall i :: 0 <= i < |u| ==> u[i].reply == EchoReply(session, leadId, contactId, u[i].request)
  }

  /** The upserts a component sent while talking to the echoing CRM got its answers. */
  lemma EchoingCrmEchoes(a: Amo, a': Amo, session: string, leadId: Json, contactId: Json)
    requires a.log <= a'.log && Answered(a'.log, EchoingCrm(session, leadId, contactId), |a.log|)
    ensures Echoed(IssuedSince(a, a'), session, leadId, contactId)
  {
    var u := IssuedSince(a, a');
    forall i | 0 <= i < |u|
      ensures u[i].reply == EchoReply(session, leadId, contactId, u[i].request)
    {
      var j := UpsertsIn(a'.log[|a.log|..], u[i]);
      assert a'.log[|a.log| + j] == u[i];
    }
  }

  /** A sound upsert answered by the echoing CRM returns the id it assigns to its type. */
  lemma EchoedUpsert(session: string, leadId: Json, contactId: Json, x: Exchange)
    requires Sound(x) && x.reply == EchoReply(session, leadId, contactId, x.request)
    ensures Returned(x) == (if Issued(x).objType == Lead then leadId else contactId)
  {

  }

  /**
   * When the CRM assigns ids, a lead-then-contact sync links the contact to
   * the new lead id and stores both new ids on the order.
   */
  lemma EchoedIdsWrittenBack(order: Order, u: seq<Exchange>, order': Order, session: string, leadId: Json, contactId: Json)
    requires SyncedPair(order, u, order') && Echoed(u, session, leadId, contactId)
    ensures order'.amoLeadId == leadId && order'.amoContactId == contactId
    ensures LinkedTo(Issued(u[1]), leadId)
  {

  }

  /**
   * A first sync of a fresh order creates both objects; once the ids it
   * returned are truthy, the next sync updates both, addressing them by the
   * ids the first sync returned.
   */
  lemma SecondSyncUpdates(order: Order, u: seq<Exchange>, order': Order, u': seq<Exchange>, order'': Order)
    requires !Truthy(order.amoLeadId) && !Truthy(order.amoContactId)
    requires SyncedPair(order, u, order') && Truthy(Returned(u[0])) && Truthy(Returned(u[1]))
    requires SyncedPair(order', u', order'')
    ensures Issued(u[0]).op == Add && "id" !in Issued(u[0]).payload
    ensures Issued(u[1]).op == Add && "id" !in Issued(u[1]).payload
    ensures Issued(u'[0]).op == Update && Has(Issued(u'[0]).payload, "id", Returned(u[0]))
    ensures Issued(u'[1]).op == Update && Has(Issued(u'[1]).payload, "id", Returned(u[1]))
  {
  }

  /**
   * A lead upsert the CRM rejects returns false: the contact is still sent,
   * linked to `[false]`, and false is stored as the lead id.
   */
  lemma FailedLeadUpsertStoresFalse(order: Order, u: seq<Exchange>, order': Order)
    requires SyncedPair(order, u, order') && !u[0].reply.isOk
    ensures order'.amoLeadId == Bool(false)
    ensures LinkedTo(Issued(u[1]), Bool(false))
  {

  }

  /** After a rejected lead upsert the next sync creates the lead again, without an `id`. */
  lemma FailedLeadUpsertIsRecreated(order: Order, u: seq<Exchange>, order': Order, u': seq<Exchange>, order'': Order)
    requires SyncedPair(order, u, order') && !u[0].reply.isOk
    requires SyncedPair(order', u', order'')
    ensures Issued(u'[0]).op == Add && "id" !in Issued(u'[0]).payload
  {

  }

  /**
   * `orderBeforePaid` after a rejected lead upsert: the stored false is not
   * null, so it sends an update addressed to the id false.
   */
  lemma BeforePaidAfterFailedSync(cfg: Config, a: Amo, net: Net, order: Order, u: seq<Exchange>, order': Order, now: int)
    requires SyncedPair(order, u, order') && !u[0].reply.isOk
    requires order'.policy.auto.Some?
    ensures var p := OrderBeforePaid(cfg, a, net, order', now);
      && p.Success?
      && Issued(IssuedSince(a, p.value.amo)[0]).op == Update
      && Has(Issued(IssuedSince(a, p.value.amo)[0]).payload, "id", Bool(false))
  {

  }

  /**
   * A field name missing from the registry does not stop the build: the entry
   * is still sent, with a null id.
   */
  lemma MissingFieldHasNullId(registry: map<string, int>, name: string, value: Json, enum: Json)
    requires name !in registry
    ensures ReadCustomField(AddCustomField(registry, name, value, enum)).Some?
    ensures ReadCustomField(AddCustomField(registry, name, value, enum)).value.id == Null
  {
  }
}
