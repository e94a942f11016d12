/*
 * The auction operations of the product-auction contract. A seller runs
 * at most one auction per product; bidders outbid each other until the
 * end time, and finalizing takes one unit off the product's stock and
 * removes the auction. No funds move: the contract records the highest
 * bid only.
 */
module ProductAuction {
  import opened Common

  /** An auction and its product are both stored under (seller, product id). */
  type AuctionKey = (Address, nat)

  datatype Auction = Auction(productId: nat, highestBid: nat, highestBidder: Option<Address>,
                             reservePrice: nat, endTime: nat, seller: Address)

  /** The product fields finalizing reads and writes. */
  datatype Product = Product(name: string, stock: nat)

  datatype AuctionError =
    | AuctionAlreadyExists
    | AuctionNotFound
    | InvalidBidder
    | AuctionEnded
    | BidTooLow
    | TooLateToExtend
    | InvalidAuctionEndTime
    | AuctionNotYetEnded
    | NoBidsPlaced
    | ProductNotFound
    | OutOfStock

  /** Extensions are refused within ten minutes of the end. */
  const MIN_EXTENSION_TIME: nat := 600

  /** A stored auction: with no bidder the highest bid is still 0; a
      highest bidder is never the seller and bid at least the reserve price
      and more than 0. */
  predicate AuctionValid(a: Auction)
  {
    && (a.highestBidder.None? ==> a.highestBid == 0)
    && (a.highestBidder.Some? ==>
          a.highestBidder.value != a.seller && a.highestBid > 0 && a.highestBid >= a.reservePrice)
  }

  predicate EntryValid(k: AuctionKey, auctions: map<AuctionKey, Auction>)
  {
    k in auctions ==> AuctionValid(auctions[k]) && auctions[k].seller == k.0 && auctions[k].productId == k.1
  }

  function Lookup<K, V>(m: map<K, V>, k: K): Option<V>
  {
    if k in m then Some(m[k]) else None
  }

  /** The auction create_auction stores: no bid yet. Neither the reserve
      price nor the end time is checked. */
  function NewAuction(k: AuctionKey, reservePrice: nat, endTime: nat): (a: Auction)
    ensures AuctionValid(a) && a.highestBidder.None? && a.highestBid == 0
    ensures a.seller == k.0 && a.productId == k.1 && a.reservePrice == reservePrice && a.endTime == endTime
  {
    Auction(k.1, 0, None, reservePrice, endTime, k.0)
  }

  /** place_bid's checks, in order: the auction exists, the bidder is not
      the seller, the end time has not passed, and the bid beats the
      highest bid and reaches the reserve price. */
  function BidCheck(auction: Option<Auction>, bidder: Address, amount: nat, now: nat): (e: Option<AuctionError>)
    ensures e.None? <==>
      && auction.Some? && bidder != auction.value.seller && now <= auction.value.endTime
      && amount > auction.value.highestBid && amount >= auction.value.reservePrice
    ensures (auction.Some? && bidder != auction.value.seller && now <= auction.value.endTime &&
             amount <= auction.value.highestBid) ==> e == Some(BidTooLow)
    ensures auction.Some? && bidder == auction.value.seller ==> e == Some(InvalidBidder)
  {
    if auction.None? then Some(AuctionNotFound)
    else if bidder == auction.value.seller then Some(InvalidBidder)
    else if auction.value.endTime < now then Some(AuctionEnded)
    else if amount <= auction.value.highestBid || amount < auction.value.reservePrice then Some(BidTooLow)
    else None
  }

  /** The auction after an accepted bid. */
  function WithBid(a: Auction, bidder: Address, amount: nat): Auction
  {
    a.(highestBid := amount, highestBidder := Some(bidder))
  }

  /** An accepted bid keeps the auction valid and strictly raises the
      highest bid; the same amount bid again is then too low. */
  lemma AcceptedBidRaises(a: Auction, bidder: Address, amount: nat, now: nat, other: Address)
    requires AuctionValid(a)
    requires BidCheck(Some(a), bidder, amount, now).None?
    ensures AuctionValid(WithBid(a, bidder, amount))
    ensures WithBid(a, bidder, amount).highestBid > a.highestBid
    ensures other != a.seller ==> BidCheck(Some(WithBid(a, bidder, amount)), other, amount, now) == Some(BidTooLow)
  {
  }

  /** extend_auction's checks, in order: the auction exists and has not
      ended, more than ten minutes remain, and the new end is later. */
  function ExtendCheck(auction: Option<Auction>, newEndTime: nat, now: nat): (e: Option<AuctionError>)
    ensures e.None? <==>
      auction.Some? && now + MIN_EXTENSION_TIME < auction.value.endTime < newEndTime
    ensures (auction.Some? && now <= auction.value.endTime <= now + MIN_EXTENSION_TIME) ==>
      e == Some(TooLateToExtend)
  {
    if auction.None? then Some(AuctionNotFound)
    else if auction.value.endTime < now then Some(AuctionEnded)
    else if auction.value.endTime - now <= MIN_EXTENSION_TIME then Some(TooLateToExtend)
    else if newEndTime <= auction.value.endTime then Some(InvalidAuctionEndTime)
    else None
  }

  /** An extension only moves the end later, so an auction open for bids
      before it stays open after it. */
  lemma ExtensionKeepsBidsOpen(a: Auction, newEndTime: nat, now: nat, later: nat, bidder: Address, amount: nat)
    requires ExtendCheck(Some(a), newEndTime, now).None?
    requires BidCheck(Some(a), bidder, amount, later).None?
    ensures BidCheck(Some(a.(endTime := newEndTime)), bidder, amount, later).None?
    ensures a.(endTime := newEndTime).endTime > a.endTime
  {
  }

  /** finalize_auction's checks, in order: the auction exists and its end
      time has been reached, it has a winner, and the product exists with
      stock left. */
  function FinalizeCheck(auction: Option<Auction>, product: Option<Product>, now: nat): (e: Option<AuctionError>)
    ensures e.None? <==>
      auction.Some? && auction.value.endTime <= now && auction.value.highestBidder.Some? &&
      product.Some? && product.value.stock > 0
    ensures auction.Some? && now < auction.value.endTime ==> e == Some(AuctionNotYetEnded)
    ensures (auction.Some? && auction.value.endTime <= now && auction.value.highestBidder.None?) ==>
      e == Some(NoBidsPlaced)
  {
    if auction.None? then Some(AuctionNotFound)
    else if auction.value.endTime > now then Some(AuctionNotYetEnded)
    else if auction.value.highestBidder.None? then Some(NoBidsPlaced)
    else if product.None? then Some(ProductNotFound)
    else if product.value.stock == 0 then Some(OutOfStock)
    else None
  }

  /** A finalized auction has a winner other than the seller whose bid
      reached the reserve price. */
  lemma FinalizedWinnerMetReserve(a: Auction, product: Option<Product>, now: nat)
    requires AuctionValid(a) && FinalizeCheck(Some(a), product, now).None?
    ensures a.highestBidder.Some? && a.highestBidder.value != a.seller
    ensures a.highestBid >= a.reservePrice && a.highestBid > 0
  {
  }

  /** At the end time itself both a bid and finalizing are accepted: bids
      are refused only once the end time has passed, and finalizing is
      allowed as soon as it is reached. */
  lemma BidAndFinalizeBothOpenAtEnd(a: Auction, p: Product, bidder: Address, amount: nat)
    requires AuctionValid(a) && a.highestBidder.Some? && p.stock > 0
    requires bidder != a.seller && amount > a.highestBid
    ensures BidCheck(Some(a), bidder, amount, a.endTime).None?
    ensures FinalizeCheck(Some(a), Some(p), a.endTime).None?
  {
  }

  class AuctionHouse {
    var auctions: map<AuctionKey, Auction>
    var products: map<AuctionKey, Product>

    ghost predicate Valid()
      reads this`auctions
    {
      forall k :: EntryValid(k, auctions)
    }

    /** The products are created by the product operations, outside this
        model. */
    constructor (initialProducts: map<AuctionKey, Product>)
      ensures auctions == map[] && products == initialProducts
      ensures Valid()
    {
      auctions := map[];
      products := initialProducts;
    }

    /** `create_auction`: refused if the seller already auctions the
        product; otherwise a new auction with no bid is stored. */
    method CreateAuction(seller: Address, reservePrice: nat, endTime: nat, productId: nat)
      returns (r: Result<(), AuctionError>)
      requires Valid()
      modifies this`auctions
      ensures Valid()
      ensures (seller, productId) in old(auctions) ==> r == Err(AuctionAlreadyExists) && auctions == old(auctions)
      ensures (seller, productId) !in old(auctions) ==>
        r == Ok(()) && auctions == old(auctions)[(seller, productId) := NewAuction((seller, productId), reservePrice, endTime)]
    {
      if (seller, productId) in auctions {
        return Err(AuctionAlreadyExists);
      }
      auctions := auctions[(seller, productId) := NewAuction((seller, productId), reservePrice, endTime)];
      forall k ensures EntryValid(k, auctions) {
        if k != (seller, productId) {
          assert EntryValid(k, old(auctions));
        }
      }
      return Ok(());
    }

    /** `place_bid`: an accepted bid becomes the highest bid. */
    method PlaceBid(productId: nat, amount: nat, bidder: Address, seller: Address, now: nat)
      returns (r: Result<bool, AuctionError>)
      requires Valid()
      modifies this`auctions
      ensures Valid()
      ensures var e := BidCheck(Lookup(old(auctions), (seller, productId)), bidder, amount, now);
        && (e.Some? ==> r == Err(e.value) && auctions == old(auctions))
        && (e.None? ==>
              r == Ok(true) &&
              auctions == old(auctions)[(seller, productId) := WithBid(old(auctions)[(seller, productId)], bidder, amount)])
    {
      var e := BidCheck(Lookup(auctions, (seller, productId)), bidder, amount, now);
      if e.Some? {
        return Err(e.value);
      }
      var a := auctions[(seller, productId)];
      assert EntryValid((seller, productId), auctions);
      AcceptedBidRaises(a, bidder, amount, now, bidder);
      auctions := auctions[(seller, productId) := WithBid(a, bidder, amount)];
      forall k ensures EntryValid(k, auctions) {
        if k != (seller, productId) {
          assert EntryValid(k, old(auctions));
        }
      }
      return Ok(true);
    }

    /** `extend_auction`: the end time moves to the new, later one. */
    method ExtendAuction(seller: Address, productId: nat, newEndTime: nat, now: nat)
      returns (r: Result<(), AuctionError>)
      requires Valid()
      modifies this`auctions
      ensures Valid()
      ensures var e := ExtendCheck(Lookup(old(auctions), (seller, productId)), newEndTime, now);
        && (e.Some? ==> r == Err(e.value) && auctions == old(auctions))
        && (e.None? ==>
              r == Ok(()) &&
              auctions == old(auctions)[(seller, productId) := old(auctions)[(seller, productId)].(endTime := newEndTime)])
    {
      var e := ExtendCheck(Lookup(auctions, (seller, productId)), newEndTime, now);
      if e.Some? {
        return Err(e.value);
      }
      var a := auctions[(seller, productId)];
      assert EntryValid((seller, productId), auctions);
      auctions := auctions[(seller, productId) := a.(endTime := newEndTime)];
      forall k ensures EntryValid(k, auctions) {
        if k != (seller, productId) {
          assert EntryValid(k, old(auctions));
        }
      }
      return Ok(());
    }

    /** `finalize_auction`: one unit of the product is taken off its stock
        and the auction is removed, so it cannot be finalized twice and the
        seller may auction the product again. */
    method FinalizeAuction(seller: Address, productId: nat, now: nat) returns (r: Result<(), AuctionError>)
      requires Valid()
      modifies this`auctions, this`products
      ensures Valid()
      ensures var e := FinalizeCheck(Lookup(old(auctions), (seller, productId)), Lookup(old(products), (seller, productId)), now);
        && (e.Some? ==> r == Err(e.value) && auctions == old(auctions) && products == old(products))
        && (e.None? ==>
              var p := old(products)[(seller, productId)];
              && r == Ok(())
              && products == old(products)[(seller, productId) := p.(stock := p.stock - 1)]
              && auctions == old(auctions) - {(seller, productId)})
      ensures r.Ok? ==> FinalizeCheck(Lookup(auctions, (seller, productId)), Lookup(products, (seller, productId)), now)
                        == Some(AuctionNotFound)
    {
      var e := FinalizeCheck(Lookup(auctions, (seller, productId)), Lookup(products, (seller, productId)), now);
      if e.Some? {
        return Err(e.value);
      }
      var p := products[(seller, productId)];
      products := products[(seller, productId) := p.(stock := p.stock - 1)];
      auctions := auctions - {(seller, productId)};
      forall k ensures EntryValid(k, auctions) {
        assert EntryValid(k, old(auctions));
      }
      return Ok(());
    }
  }
}
