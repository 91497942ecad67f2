/** The secondary market over whole runs: what a position sells for, and what is sold. */
module Sales {
  import opened Records
  import opened Protocol
  import opened Effects
  import Pools = PoolSpec

  // ── The offer that stands ──────────────────────────────────────────────────

  ghost predicate Lists(cfg: Config, env: Env, w: World, a: Action, id: Id, seller: Address) {
    a.ListForSale? && a.id == id && a.seller == seller && Commits(cfg, env, w, a)
  }

  ghost predicate Buys(cfg: Config, env: Env, w: World, a: Action, id: Id, seller: Address) {
    a.BuyPosition? && a.id == id && a.seller == seller && Commits(cfg, env, w, a)
  }

  /** Call `k` offered the seller's position for `price`, and no later call of the run offered
      it again or bought it. */
  ghost predicate OfferedAt(cfg: Config, w0: World, run: Run, k: nat, id: Id, seller: Address, token: Address,
                            price: int)
  {
    && k < |run| && Lists(cfg, run[k].env, Before(cfg, w0, run, k), run[k].action, id, seller)
    && run[k].action.token == token && run[k].action.price == price
    && forall j | k < j < |run| ::
         && !Lists(cfg, run[j].env, Before(cfg, w0, run, j), run[j].action, id, seller)
         && !Buys(cfg, run[j].env, Before(cfg, w0, run, j), run[j].action, id, seller)
  }

  lemma OfferStays(cfg: Config, w0: World, run: Run, last: Call, k: nat, id: Id, seller: Address, token: Address,
                   price: int)
    requires OfferedAt(cfg, w0, run, k, id, seller, token, price)
    requires !Lists(cfg, last.env, After(cfg, w0, run), last.action, id, seller)
    requires !Buys(cfg, last.env, After(cfg, w0, run), last.action, id, seller)
    ensures OfferedAt(cfg, w0, run + [last], k, id, seller, token, price)
  {
    var longer := run + [last];
    forall j | k <= j <= |run|
      ensures Before(cfg, w0, longer, j) == Before(cfg, w0, run, j)
      ensures longer[j] == if j < |run| then run[j] else last
    {
      assert longer[..j] == run[..j];
    }
    assert run[..|run|] == run;
  }

  /** One call: an offer appears by being listed, as it is listed, and goes by being bought. */
  lemma OfferStep(cfg: Config, env: Env, w: World, a: Action, id: Id, seller: Address)
    ensures var before, after := w.core.pool.saleOffers, Step(cfg, env, w, a).core.pool.saleOffers;
            if Lists(cfg, env, w, a, id, seller) then
              && (id, seller) !in before && (id, seller) in after
              && after[(id, seller)] == SaleOffer(seller, id, a.token, a.price)
            else if Buys(cfg, env, w, a, id, seller) then (id, seller) !in after
            else if (id, seller) in before then (id, seller) in after && after[(id, seller)] == before[(id, seller)]
            else (id, seller) !in after
  {
    if Commits(cfg, env, w, a) && !a.ListForSale? && !a.BuyPosition? {
      HasEffect(cfg, env, w, a);
      OffersOtherwise(cfg, env, w, Step(cfg, env, w, a), a);
    }
  }

  lemma OffersOtherwise(cfg: Config, env: Env, w: World, w': World, a: Action)
    requires Effect(cfg, env, w, w', a) && !a.ListForSale? && !a.BuyPosition?
    ensures w'.core.pool.saleOffers == w.core.pool.saleOffers
  {
    if IsPool(a) { PoolOffersOtherwise(cfg, env, w.core, w'.core, a); }
  }

  lemma PoolOffersOtherwise(cfg: Config, env: Env, c: Core, c': Core, a: Action)
    requires IsPool(a) && PoolEffect(cfg, env, c, c', a) && !a.ListForSale? && !a.BuyPosition?
    ensures c'.pool.saleOffers == c.pool.saleOffers
  {
  }

  /** An offer on record is the seller's latest one, neither replaced nor bought since. */
  lemma {:induction false} OffersAreListed(cfg: Config, w0: World, run: Run, id: Id, seller: Address)
    requires Initial(w0) && (id, seller) in After(cfg, w0, run).core.pool.saleOffers
    ensures var offer := After(cfg, w0, run).core.pool.saleOffers[(id, seller)];
            exists k :: OfferedAt(cfg, w0, run, k, id, seller, offer.token, offer.price)
  {
    var last, earlier := run[|run| - 1], run[..|run| - 1];
    var before := After(cfg, w0, earlier);
    assert run == earlier + [last];
    OfferStep(cfg, last.env, before, last.action, id, seller);
    var offer := After(cfg, w0, run).core.pool.saleOffers[(id, seller)];
    if Lists(cfg, last.env, before, last.action, id, seller) {
      assert OfferedAt(cfg, w0, run, |run| - 1, id, seller, offer.token, offer.price);
    } else {
      OffersAreListed(cfg, w0, earlier, id, seller);
      var k: nat :| OfferedAt(cfg, w0, earlier, k, id, seller, offer.token, offer.price);
      OfferStays(cfg, w0, earlier, last, k, id, seller, offer.token, offer.price);
    }
  }

  // ── A purchase ─────────────────────────────────────────────────────────────

  lemma PurchaseMoves(cfg: Config, env: Env, w: World, buyer: Address, id: Id, seller: Address)
    requires Commits(cfg, env, w, BuyPosition(buyer, id, seller))
    ensures (id, seller) in w.core.pool.saleOffers && seller in w.core.pool.PositionsOf(id)
    ensures var w', offer := Step(cfg, env, w, BuyPosition(buyer, id, seller)), w.core.pool.saleOffers[(id, seller)];
            var ps, ps' := w.core.pool.PositionsOf(id), w'.core.pool.PositionsOf(id);
            && Moved(w.core.tokens, w'.core.tokens, offer.token, buyer, seller, offer.price)
            && (id, seller) !in w'.core.pool.saleOffers
            && buyer in ps' && ps'[buyer] == ps[seller].(investor := buyer, invoiceId := id)
            && (buyer != seller ==> seller !in ps')
            && (forall h | h != buyer && h != seller :: (h in ps' <==> h in ps) && (h in ps ==> ps'[h] == ps[h]))
  {
    HasEffect(cfg, env, w, BuyPosition(buyer, id, seller));
    OfferStep(cfg, env, w, BuyPosition(buyer, id, seller), id, seller);
  }

  /** After any run, a purchase that goes through pays the seller, out of the buyer's balance
      and nobody else's, exactly what the seller's latest offer asked, in the token it asked
      for, and no earlier purchase used that offer. The buyer gets the seller's contribution
      and share, the offer is gone, and everybody else keeps what they had. */
  lemma SalesPayTheAskedPrice(cfg: Config, w0: World, run: Run, env: Env, buyer: Address, id: Id, seller: Address)
    requires Initial(w0) && Commits(cfg, env, After(cfg, w0, run), BuyPosition(buyer, id, seller))
    ensures var w := After(cfg, w0, run);
            var w', ps := Step(cfg, env, w, BuyPosition(buyer, id, seller)), w.core.pool.PositionsOf(id);
            && (exists k, token, price ::
                  && OfferedAt(cfg, w0, run, k, id, seller, token, price)
                  && Moved(w.core.tokens, w'.core.tokens, token, buyer, seller, price))
            && (id, seller) !in w'.core.pool.saleOffers
            && seller in ps && buyer in w'.core.pool.PositionsOf(id)
            && w'.core.pool.PositionsOf(id)[buyer] == ps[seller].(investor := buyer, invoiceId := id)
            && (buyer != seller ==> seller !in w'.core.pool.PositionsOf(id))
  {
    var w := After(cfg, w0, run);
    PurchaseMoves(cfg, env, w, buyer, id, seller);
    OffersAreListed(cfg, w0, run, id, seller);
    var offer := w.core.pool.saleOffers[(id, seller)];
    var k: nat :| OfferedAt(cfg, w0, run, k, id, seller, offer.token, offer.price);
  }

  /** A recording gives its investor the whole position it names, with nothing claimed. */
  lemma RecordedPosition(cfg: Config, env: Env, w: World, a: Action)
    requires a.RecordPosition? && Commits(cfg, env, w, a)
    ensures var ps, ps' := w.core.pool.PositionsOf(a.id), Step(cfg, env, w, a).core.pool.PositionsOf(a.id);
            && a.total > 0 && a.investor in ps'
            && ps'[a.investor].contributed == a.contributed
            && ps'[a.investor].shareBps == a.contributed * 10_000 / a.total
            && ps'[a.investor].investor == a.investor && ps'[a.investor].invoiceId == a.id
            && ps'[a.investor].yieldClaimed == 0
            && (forall h | h != a.investor :: (h in ps' <==> h in ps) && (h in ps ==> ps'[h] == ps[h]))
  {
    Pools.ShareInRange(a.contributed, a.total);
  }
}
