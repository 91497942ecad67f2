/** `migrate` of the invoice contract (contracts/invoice_nft/src/lib.rs): one pass over the
    stored invoices that re-encodes records of schema v1 in schema v2. */
module Migration {
  import opened Outcomes
  import opened Validation
  import opened Records

  /** Schema v1: the record before `metadata_hash` and `notes` existed. */
  datatype InvoiceV1 = InvoiceV1(
    id: Id,
    sme: Address,
    terms: InvoiceTerms,
    currency: Symbol,
    riskTier: RiskTier,
    status: InvoiceStatus,
    createdAt: nat,
    fundedAt: Option<nat>,
    repaidAt: Option<nat>)

  /** A storage slot as it is encoded. */
  datatype Stored = V1(record: InvoiceV1) | V2(invoice: Invoice)

  /** An absent `version` reads as 0; a fresh deployment stores 1. */
  datatype Store = Store(admin: Address, version: u32, nextId: Id, slots: map<Id, Stored>)

  function Upgraded(record: InvoiceV1): Invoice {
    Invoice(record.id, record.sme, record.terms, record.currency, [], record.riskTier, record.status,
            record.createdAt, record.fundedAt, record.repaidAt, None)
  }

  /** The v1 record an invoice stands for, dropping the fields v1 did not have. */
  function Downgraded(invoice: Invoice): InvoiceV1 {
    InvoiceV1(invoice.id, invoice.sme, invoice.terms, invoice.currency, invoice.riskTier, invoice.status,
              invoice.createdAt, invoice.fundedAt, invoice.repaidAt)
  }

  ghost predicate IsLive(s: Store, id: Id) {
    1 <= id < s.nextId && id in s.slots
  }

  /** Every allocated record is still encoded as v1. */
  ghost predicate AllV1(s: Store) {
    forall id | IsLive(s, id) :: s.slots[id].V1?
  }

  /** The slots once ids below `bound` have been rewritten. */
  ghost function Rewritten(s: Store, bound: Id): map<Id, Stored> {
    map id | id in s.slots ::
      if IsLive(s, id) && id < bound && s.slots[id].V1? then V2(Upgraded(s.slots[id].record)) else s.slots[id]
  }

  /** Storage after the call: a v2 record cannot be read as v1, and trips the host. */
  ghost function Migrate(s: Store, caller: Address): Result<Store> {
    if caller != s.admin then Err(NotAdmin)
    else if s.version >= 2 then Ok(s)
    else if !AllV1(s) then Err(HostTrap)
    else Ok(s.(version := 2, slots := Rewritten(s, s.nextId)))
  }

  class InvoiceStore {
    var admin: Address
    var version: u32
    var nextId: Id
    var slots: map<Id, Stored>

    constructor (s: Store)
      ensures Contents() == s
    {
      admin, version, nextId, slots := s.admin, s.version, s.nextId, s.slots;
    }

    function Contents(): Store
      reads this
    {
      Store(admin, version, nextId, slots)
    }

    method MigrateAll(caller: Address) returns (r: Status)
      modifies this
      ensures r == StatusOf(Migrate(old(Contents()), caller))
      ensures Contents() == Commit(old(Contents()), Migrate(old(Contents()), caller))
    {
      if caller != admin { return Failed(NotAdmin); }
      var currentVersion := version;
      var savedVersion, savedSlots := version, slots;
      if currentVersion < 1 {
        version := 1;
      }
      if currentVersion < 2 {
        var id: Id := 1;
        while id < nextId
          invariant 1 <= id && (id <= nextId || nextId == 0)
          invariant admin == old(admin) && nextId == old(nextId)
          invariant forall i: Id | IsLive(old(Contents()), i) && i < id :: savedSlots[i].V1?
          invariant slots == Rewritten(old(Contents()), id)
        {
          if id in slots {
            var slot := slots[id];
            if slot.V2? {
              version, slots := savedVersion, savedSlots;
              return Failed(HostTrap);
            }
            slots := slots[id := V2(Upgraded(slot.record))];
          }
          id := id + 1;
        }
        version := 2;
      }
      return Done;
    }
  }

  /** Reading back what the upgrade keeps gives the old record. */
  lemma UpgradeKeepsEverything(record: InvoiceV1)
    ensures Downgraded(Upgraded(record)) == record
    ensures Upgraded(record).metadataHash == [] && Upgraded(record).notes == None
  {
  }

  /** A migration that commits below version 2 leaves every live record in v2, with its v1
      fields unchanged, an empty hash and no notes; it creates, drops and touches no other. */
  lemma MigratedRecords(s: Store, caller: Address)
    requires Migrate(s, caller).Ok? && s.version < 2
    ensures var t := Migrate(s, caller).value;
            && t.version == 2 && t.slots.Keys == s.slots.Keys && t.nextId == s.nextId
            && (forall id | IsLive(s, id) ::
                  && s.slots[id].V1? && t.slots[id].V2?
                  && Downgraded(t.slots[id].invoice) == s.slots[id].record
                  && t.slots[id].invoice.metadataHash == [] && t.slots[id].invoice.notes == None)
            && (forall id | id in s.slots && !IsLive(s, id) :: t.slots[id] == s.slots[id])
  {
  }

  /** A second call changes nothing, whatever was minted in between. */
  lemma MigrateOnce(s: Store, caller: Address, later: Store)
    requires Migrate(s, caller).Ok?
    requires later.admin == caller && later.version == Migrate(s, caller).value.version
    ensures Migrate(later, caller) == Ok(later)
  {
  }

  /** The call goes through exactly for the admin, and when the store is past version 1 or
      holds no record in v2 yet. */
  lemma MigrateSucceedsExactly(s: Store, caller: Address)
    ensures Migrate(s, caller).Ok? <==>
      caller == s.admin && (s.version >= 2 || !exists id :: IsLive(s, id) && s.slots[id].V2?)
  {
    if !AllV1(s) {
      var id: Id :| IsLive(s, id) && !s.slots[id].V1?;
    }
  }

  /** A store under the current code: a fresh deployment starts at version 1 and mints v2
      records, which the comment in the source says the migration would skip. It traps on
      them, so after the first mint the migration fails. */
  lemma FreshDeploymentCannotMigrate(s: Store, invoice: Invoice)
    requires s.version == 1 && s.nextId >= 1 && s.nextId !in s.slots
    ensures var minted := s.(nextId := s.nextId + 1, slots := s.slots[s.nextId := V2(invoice)]);
            Migrate(minted, s.admin) == Err(HostTrap)
  {
    var minted := s.(nextId := s.nextId + 1, slots := s.slots[s.nextId := V2(invoice)]);
    assert IsLive(minted, s.nextId) && minted.slots[s.nextId].V2?;
  }
}
