/** The invoice records and their lifecycle (contracts/invoice_nft/src/lib.rs). */
module InvoiceNft {
  import opened Outcomes
  import opened Validation
  import opened Records

  const MAX_DEBTOR_HASH_LEN: nat := 64
  const MAX_IPFS_CID_LEN: nat := 128

  // ── Specification on the storage value ─────────────────────────────────────

  ghost function MintCheck(env: Env, terms: InvoiceTerms): Result<()> {
    if env.paused then Err(ProtocolPaused)
    else if terms.amount <= 0 then Err(InvalidAmount)
    else if terms.dueDate <= env.now then Err(InvalidDueDate)
    else if terms.riskScore > 100 then Err(InvalidRiskScore)
    else if terms.debtorHash == [] then Err(EmptyBytes)
    else if |terms.debtorHash| > MAX_DEBTOR_HASH_LEN then Err(FieldTooLong)
    else if terms.ipfsCid == [] then Err(EmptyString)
    else if |terms.ipfsCid| > MAX_IPFS_CID_LEN then Err(FieldTooLong)
    else Ok(())
  }

  /** A registered limit bounds the outstanding exposure including the new invoice. */
  ghost function LimitCheck(env: Env, s: NftStore, sme: Address, amount: i128): Result<()> {
    if env.CreditLimit(sme) <= 0 then Ok(()) else
    var exposure :- Fit(s.Outstanding(sme) + amount);
    if exposure > env.CreditLimit(sme) then Err(CreditLimitExceeded) else Ok(())
  }

  ghost function Mint(env: Env, s: NftStore, sme: Address, terms: InvoiceTerms, currency: Symbol, notes: Option<string>)
    : Result<NftStore>
  {
    var _ :- MintCheck(env, terms);
    var _ :- LimitCheck(env, s, sme, terms.amount);
    if s.nextId >= U64_MAX then Err(ArithmeticOverflow) else
    var invoice := Invoice(s.nextId, sme, terms, currency, [], TierFromScore(terms.riskScore),
                           Created, env.now, None, None, notes);
    Ok(s.(invoices := s.invoices[s.nextId := invoice], nextId := s.nextId + 1))
  }

  ghost function Amend(env: Env, s: NftStore, sme: Address, id: Id, terms: InvoiceTerms): Result<NftStore> {
    if env.paused then Err(ProtocolPaused)
    else if terms.amount <= 0 then Err(InvalidAmount)
    else if terms.dueDate <= env.now then Err(InvalidDueDate)
    else if terms.riskScore > 100 then Err(InvalidRiskScore)
    else if terms.debtorHash == [] then Err(EmptyBytes)
    else if terms.ipfsCid == [] then Err(EmptyString)
    else if id !in s.invoices then Err(InvoiceNotFound)
    else if s.invoices[id].status != Created then Err(InvalidInvoiceStatus)
    else if s.invoices[id].sme != sme then Err(NotInvoiceOwner)
    else Ok(s.(invoices := s.invoices[id := s.invoices[id].(terms := terms,
        riskTier := TierFromScore(terms.riskScore))]))
  }

  ghost function Withdraw(env: Env, s: NftStore, sme: Address, id: Id): Result<NftStore> {
    if env.paused then Err(ProtocolPaused)
    else if id !in s.invoices then Err(InvoiceNotFound)
    else if s.invoices[id].status != Created then Err(InvalidInvoiceStatus)
    else if s.invoices[id].sme != sme then Err(NotInvoiceOwner)
    else Ok(s.(invoices := s.invoices - {id}).Released(s.invoices[id]))
  }

  ghost function SetListed(cfg: Config, env: Env, s: NftStore, caller: Address, id: Id): Result<NftStore> {
    if caller != cfg.marketplace then Err(Unauthorized)
    else if env.paused then Err(ProtocolPaused)
    else if id !in s.invoices then Err(InvoiceNotFound)
    else if s.invoices[id].status != Created then Err(InvalidInvoiceStatus)
    else Ok(s.(invoices := s.invoices[id := s.invoices[id].(status := Listed)]))
  }

  ghost function SetFunded(cfg: Config, env: Env, s: NftStore, caller: Address, id: Id): Result<NftStore> {
    if caller != cfg.pool then Err(Unauthorized)
    else if env.paused then Err(ProtocolPaused)
    else if id !in s.invoices then Err(InvoiceNotFound)
    else if s.invoices[id].status != Listed then Err(InvalidInvoiceStatus)
    else Ok(s.(invoices := s.invoices[id := s.invoices[id].(status := Funded, fundedAt := Some(env.now))]))
  }

  ghost function SetRepaid(cfg: Config, env: Env, s: NftStore, caller: Address, id: Id): Result<NftStore> {
    if caller != cfg.pool then Err(Unauthorized)
    else if env.paused then Err(ProtocolPaused)
    else if id !in s.invoices then Err(InvoiceNotFound)
    else if s.invoices[id].status != Funded then Err(InvalidInvoiceStatus)
    else Ok(s.(invoices := s.invoices[id := s.invoices[id].(status := Repaid, repaidAt := Some(env.now))])
            .Released(s.invoices[id]))
  }

  ghost function SetDefaulted(cfg: Config, env: Env, s: NftStore, caller: Address, id: Id): Result<NftStore> {
    if caller != cfg.admin then Err(NotAdmin)
    else if id !in s.invoices then Err(InvoiceNotFound)
    else if s.invoices[id].status != Funded || env.now <= s.invoices[id].terms.dueDate then Err(InvalidInvoiceStatus)
    else Ok(s.(invoices := s.invoices[id := s.invoices[id].(status := Defaulted)]).Released(s.invoices[id]))
  }

  ghost function SetFrozen(cfg: Config, s: NftStore, caller: Address, id: Id, freeze: bool): Result<NftStore> {
    if caller != cfg.admin then Err(NotAdmin)
    else if id !in s.invoices then Err(InvoiceNotFound)
    else Ok(s.(frozen := if freeze then s.frozen + {id} else s.frozen - {id}))
  }

  // ── The contract ───────────────────────────────────────────────────────────

  class InvoiceNft {
    const cfg: Config
    var nextId: Id
    var invoices: map<Id, Invoice>
    var frozen: set<Id>
    var exposure: map<Address, i128>

    constructor (cfg: Config)
      ensures this.cfg == cfg && Store() == NftStore(1, map[], {}, map[])
    {
      this.cfg := cfg;
      nextId, invoices, frozen, exposure := 1, map[], {}, map[];
    }

    function Store(): NftStore
      reads this
    {
      NftStore(nextId, invoices, frozen, exposure)
    }

    method Restore(saved: NftStore)
      modifies this
      ensures Store() == saved
    {
      nextId, invoices, frozen, exposure := saved.nextId, saved.invoices, saved.frozen, saved.exposure;
    }

    method MintInvoice(env: Env, sme: Address, terms: InvoiceTerms, currency: Symbol, notes: Option<string>)
      returns (r: Status, id: Id)
      modifies this
      ensures r == StatusOf(Mint(env, old(Store()), sme, terms, currency, notes))
      ensures Store() == Commit(old(Store()), Mint(env, old(Store()), sme, terms, currency, notes))
      ensures r.Done? ==> id == old(nextId)
    {
      id := nextId;
      if env.paused { return Failed(ProtocolPaused), id; }
      if terms.amount <= 0 { return Failed(InvalidAmount), id; }
      if terms.dueDate <= env.now { return Failed(InvalidDueDate), id; }
      if terms.riskScore > 100 { return Failed(InvalidRiskScore), id; }
      if terms.debtorHash == [] { return Failed(EmptyBytes), id; }
      if |terms.debtorHash| > MAX_DEBTOR_HASH_LEN { return Failed(FieldTooLong), id; }
      if terms.ipfsCid == [] { return Failed(EmptyString), id; }
      if |terms.ipfsCid| > MAX_IPFS_CID_LEN { return Failed(FieldTooLong), id; }
      if env.CreditLimit(sme) > 0 {
        var total := Fit(Store().Outstanding(sme) + terms.amount);
        if total.Err? { return Failed(total.error), id; }
        if total.value > env.CreditLimit(sme) { return Failed(CreditLimitExceeded), id; }
      }
      var saved := Store();
      var tier := TierFromScore(terms.riskScore);
      invoices := invoices[id := Invoice(id, sme, terms, currency, [], tier, Created, env.now, None, None, notes)];
      if id >= U64_MAX {
        Restore(saved);
        return Failed(ArithmeticOverflow), id;
      }
      nextId := id + 1;
      r := Done;
    }

    method AmendInvoice(env: Env, sme: Address, id: Id, terms: InvoiceTerms) returns (r: Status)
      modifies this
      ensures r == StatusOf(Amend(env, old(Store()), sme, id, terms))
      ensures Store() == Commit(old(Store()), Amend(env, old(Store()), sme, id, terms))
    {
      if env.paused { return Failed(ProtocolPaused); }
      if terms.amount <= 0 { return Failed(InvalidAmount); }
      if terms.dueDate <= env.now { return Failed(InvalidDueDate); }
      if terms.riskScore > 100 { return Failed(InvalidRiskScore); }
      if terms.debtorHash == [] { return Failed(EmptyBytes); }
      if terms.ipfsCid == [] { return Failed(EmptyString); }
      if id !in invoices { return Failed(InvoiceNotFound); }
      var invoice := invoices[id];
      if invoice.status != Created { return Failed(InvalidInvoiceStatus); }
      if invoice.sme != sme { return Failed(NotInvoiceOwner); }
      invoice := invoice.(terms := terms);
      invoice := invoice.(riskTier := TierFromScore(terms.riskScore));
      invoices := invoices[id := invoice];
      return Done;
    }

    method WithdrawInvoice(env: Env, sme: Address, id: Id) returns (r: Status)
      modifies this
      ensures r == StatusOf(Withdraw(env, old(Store()), sme, id))
      ensures Store() == Commit(old(Store()), Withdraw(env, old(Store()), sme, id))
    {
      if env.paused { return Failed(ProtocolPaused); }
      if id !in invoices { return Failed(InvoiceNotFound); }
      if invoices[id].status != Created { return Failed(InvalidInvoiceStatus); }
      var invoice := invoices[id];
      if invoice.sme != sme { return Failed(NotInvoiceOwner); }
      invoices := invoices - {id};
      ReleaseExposure(invoice);
      return Done;
    }

    /** Gives back the exposure of an invoice that was withdrawn, repaid or defaulted. */
    method ReleaseExposure(invoice: Invoice)
      modifies this`exposure
      ensures Store() == old(Store()).Released(invoice)
    {
      var prev: i128 := if invoice.sme in exposure then exposure[invoice.sme] else 0;
      exposure := exposure[invoice.sme := Saturate(prev - invoice.terms.amount)];
    }

    method MarkListed(env: Env, caller: Address, id: Id) returns (r: Status)
      modifies this
      ensures r == StatusOf(SetListed(cfg, env, old(Store()), caller, id))
      ensures Store() == Commit(old(Store()), SetListed(cfg, env, old(Store()), caller, id))
    {
      if caller != cfg.marketplace { return Failed(Unauthorized); }
      if env.paused { return Failed(ProtocolPaused); }
      if id !in invoices { return Failed(InvoiceNotFound); }
      var invoice := invoices[id];
      if invoice.status != Created { return Failed(InvalidInvoiceStatus); }
      invoices := invoices[id := invoice.(status := Listed)];
      return Done;
    }

    method MarkFunded(env: Env, caller: Address, id: Id) returns (r: Status)
      modifies this
      ensures r == StatusOf(SetFunded(cfg, env, old(Store()), caller, id))
      ensures Store() == Commit(old(Store()), SetFunded(cfg, env, old(Store()), caller, id))
    {
      if caller != cfg.pool { return Failed(Unauthorized); }
      if env.paused { return Failed(ProtocolPaused); }
      if id !in invoices { return Failed(InvoiceNotFound); }
      var invoice := invoices[id];
      if invoice.status != Listed { return Failed(InvalidInvoiceStatus); }
      invoice := invoice.(status := Funded);
      invoice := invoice.(fundedAt := Some(env.now));
      invoices := invoices[id := invoice];
      return Done;
    }

    method MarkRepaid(env: Env, caller: Address, id: Id) returns (r: Status)
      modifies this
      ensures r == StatusOf(SetRepaid(cfg, env, old(Store()), caller, id))
      ensures Store() == Commit(old(Store()), SetRepaid(cfg, env, old(Store()), caller, id))
    {
      if caller != cfg.pool { return Failed(Unauthorized); }
      if env.paused { return Failed(ProtocolPaused); }
      if id !in invoices { return Failed(InvoiceNotFound); }
      var invoice := invoices[id];
      if invoice.status != Funded { return Failed(InvalidInvoiceStatus); }
      invoice := invoice.(status := Repaid);
      invoice := invoice.(repaidAt := Some(env.now));
      invoices := invoices[id := invoice];
      ReleaseExposure(invoice);
      return Done;
    }

    method MarkDefaulted(env: Env, caller: Address, id: Id) returns (r: Status)
      modifies this
      ensures r == StatusOf(SetDefaulted(cfg, env, old(Store()), caller, id))
      ensures Store() == Commit(old(Store()), SetDefaulted(cfg, env, old(Store()), caller, id))
    {
      if caller != cfg.admin { return Failed(NotAdmin); }
      if id !in invoices { return Failed(InvoiceNotFound); }
      var invoice := invoices[id];
      if invoice.status != Funded { return Failed(InvalidInvoiceStatus); }
      if env.now <= invoice.terms.dueDate { return Failed(InvalidInvoiceStatus); }
      invoices := invoices[id := invoice.(status := Defaulted)];
      ReleaseExposure(invoice);
      return Done;
    }

    method SetFreeze(caller: Address, id: Id, freeze: bool) returns (r: Status)
      modifies this
      ensures r == StatusOf(SetFrozen(cfg, old(Store()), caller, id, freeze))
      ensures Store() == Commit(old(Store()), SetFrozen(cfg, old(Store()), caller, id, freeze))
    {
      if caller != cfg.admin { return Failed(NotAdmin); }
      if id !in invoices { return Failed(InvoiceNotFound); }
      frozen := if freeze then frozen + {id} else frozen - {id};
      return Done;
    }
  }
}
