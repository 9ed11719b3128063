/** What is on record for a creator are this creator's offers, so access through it was paid for. */
module OnRecord {
  import opened Wrappers
  import opened MembershipContract
  import opened Chain
  import opened Ledger
  import opened Registry
  import opened Tables
  import opened RegistryRuns
  import opened MembershipAccess
  import opened PaidAccess
  import Protocol
  import ProtocolProofs

  /**
   Offers and memberships are prepared by the gateway: an offer's covenant id is
   one it created for this creator on this platform's terms
   (GatewayProofs.OfferStartsFamily), and a membership is of such a covenant.
   */
  ghost predicate FromGateway(s: Protocol.Shared, platform: Key) {
    forall id :: id in s.issued && (s.issued[id].item.Offer? || s.issued[id].item.Membership?) ==>
      IsOffer(s.issued[id].item.covenantId, s.issued[id].item.creator, platform)
  }

  /** What the service knows of a creator's covenants are rows of the registry. */
  ghost predicate KnownFrom(known: Known, r: Registry, creator: Key) {
    forall i :: 0 <= i < |CovenantIds(known)| ==>
      var id := CovenantIds(known)[i];
      || (id in r.history && r.history[id].creator == creator)
      || (creator in r.current && r.current[creator].covenantId == id)
  }

  /** A receipt that names a covenant is a recorded purchase or was written back for a known covenant. */
  ghost predicate ReceiptFrom(r: Receipt, t: Tables, known: Known) {
    r.covenantId.Some? ==>
      || r.covenantId.value in CovenantIds(known)
      || exists row :: row in t.purchases && row.item == Membership(r.creator, r.covenantId.value)
  }

  lemma {:induction false} StartedIsOffer(s: Protocol.Shared, creator: Key, id: CovenantId, platform: Key)
    requires FromGateway(s, platform) && Happened(s, Started(creator, id))
    ensures IsOffer(id, creator, platform)
  {
    var rec :| rec in s.issued && s.issued[rec].template in s.accepted && Shows(s.issued[rec].item, Started(creator, id));
  }

  lemma {:induction false} BoughtIsOffer(s: Protocol.Shared, row: Purchase, creator: Key, id: CovenantId, platform: Key)
    requires FromGateway(s, platform) && ProtocolProofs.GoodPurchase(s, row) && row.item == Membership(creator, id)
    ensures IsOffer(id, creator, platform)
  {
    var rec :| rec in s.issued && s.issued[rec].item == row.item && s.issued[rec].buyer == row.buyer
               && s.issued[rec].template == row.transactionId;
  }

  /** In every interleaving, all covenants on record and on receipts are the creator's offers. */
  lemma {:induction false} OnRecordAreOffers(
    run: seq<Protocol.System>, n: nat, receipts: seq<Receipt>, known: Known, buyer: Key, creator: Key, platform: Key)
    requires Protocol.IsRun(run) && n < |run| && FromGateway(run[n].shared, platform)
    requires KnownFrom(known, run[n].shared.tables.registry, creator)
    requires forall i :: 0 <= i < |receipts| ==> ReceiptFrom(receipts[i], run[n].shared.tables, known)
    ensures OffersOnly(known, receipts, buyer, creator, platform)
  {
    var s := run[n].shared;
    RegistryFollowsChain(run, n);
    ProtocolProofs.PurchasesAreReal(run, n);
    forall i | 0 <= i < |CovenantIds(known)|
      ensures IsOffer(CovenantIds(known)[i], creator, platform)
    {
      StartedIsOffer(s, creator, CovenantIds(known)[i], platform);
    }
    forall i | 0 <= i < |receipts|
      ensures ReceiptOffered(receipts[i], buyer, creator, platform)
    {
      var r := receipts[i];
      if r.creator == creator && r.covenantId.Some? && r.covenantId.value !in CovenantIds(known) {
        var row :| row in s.tables.purchases && row.item == Membership(r.creator, r.covenantId.value);
        BoughtIsOffer(s, row, creator, r.covenantId.value, platform);
      }
    }
  }

  /**
   In every interleaving, access to a creator through the registry and the
   recorded receipts means payment exactly when the registry has a covenant of
   this creator to look under.
   */
  lemma {:induction false} RecordedAccessIsPaid(
    run: seq<Protocol.System>, n: nat, contract: Contract, hasAddress: Key -> bool, receipts: seq<Receipt>, known: Known,
    buyer: Key, creator: Key, platform: Key, earlier: Key)
    requires Protocol.IsRun(run) && n < |run| && FromGateway(run[n].shared, platform)
    requires KnownFrom(known, run[n].shared.tables.registry, creator)
    requires forall i :: 0 <= i < |receipts| ==> ReceiptFrom(receipts[i], run[n].shared.tables, known)
    requires hasAddress(earlier) && earlier != platform
    ensures AccessIsPaid(contract, hasAddress, receipts, known, buyer, creator, platform) <==> CovenantIds(known) != []
  {
    OnRecordAreOffers(run, n, receipts, known, buyer, creator, platform);
    AccessIsPaidExactlyWhenOnRecord(contract, hasAddress, receipts, known, buyer, creator, platform, earlier);
  }
}
