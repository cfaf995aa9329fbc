/** `OrdersService.create` on its in-memory maps: listings, orders and the idempotency map. */
module OrdersService {
  import opened Prelude
  import Ascii
  import Cache = IdempotencyMap

  datatype Listing = Listing(title: string, active: bool, sellerId: string, quantity: int)

  datatype Line = Line(listingId: string, quantity: int)

  datatype Product = Product(id: string, name: string, priceCents: int, active: bool)

  datatype Resolved = Resolved(line: Line, product: Product, sellerId: string)

  datatype CreateError =
    | Forbidden
    | KeyConflict
    | ListingNotFound(position: nat)
    | MixedSeller(position: nat)
    | UnknownBuyer
    | CheckoutFailed
    | OrderNotReadable

  datatype ApiItem = ApiItem(listingId: string, quantity: int, priceCents: int)

  datatype ApiOrder = ApiOrder(orderId: nat, buyer: string, seller: string, items: seq<ApiItem>, totalCents: int)

  /** How the checkout answers; a replay has been read again, which may fail. */
  datatype CheckoutAnswer =
    | First(orderId: nat, totalCents: int, unitPrices: seq<int>)
    | Replayed(orderId: nat, readable: bool)
    | Conflicting
    | Failing

  datatype Created = Created(orderId: nat, replay: bool)

  /** The product rows, in the order in which the query finds them. */
  type Catalog = seq<Product>

  /** name ILIKE pattern: a percent sign stands for any text, an underscore for any character. */
  predicate Like(pattern: string, name: string)
    decreases |pattern|, |name|
  {
    if pattern == "" then name == ""
    else if pattern[0] == '%' then Like(pattern[1..], name) || (name != "" && Like(pattern, name[1..]))
    else if name == "" then false
    else if pattern[0] == '_' then Like(pattern[1..], name[1..])
    else if pattern[0] == '\\' then
      && |pattern| > 1 && Ascii.LowerChar(pattern[1]) == Ascii.LowerChar(name[0])
      && Like(pattern[2..], name[1..])
    else Ascii.LowerChar(pattern[0]) == Ascii.LowerChar(name[0]) && Like(pattern[1..], name[1..])
  }

  /** A title without the pattern's special characters matches the same text, in upper or lower case, and no other. */
  lemma {:induction false} PlainTitleMatchesItself(title: string, name: string)
    requires forall i :: 0 <= i < |title| ==> title[i] != '%' && title[i] != '_' && title[i] != '\\'
    ensures Like(title, name) <==> Ascii.Lower(title) == Ascii.Lower(name)
  {
    if title == "" {
      assert Ascii.Lower(title) == Ascii.Lower(name) ==> |name| == |Ascii.Lower(name)| == 0;
    } else if name == "" {
      assert |Ascii.Lower(title)| > 0;
    } else {
      PlainTitleMatchesItself(title[1..], name[1..]);
      assert Ascii.Lower(title) == [Ascii.LowerChar(title[0])] + Ascii.Lower(title[1..]);
      assert Ascii.Lower(name) == [Ascii.LowerChar(name[0])] + Ascii.Lower(name[1..]);
      assert Ascii.Lower(title)[1..] == Ascii.Lower(title[1..]) && Ascii.Lower(name)[1..] == Ascii.Lower(name[1..]);
    }
  }

  /** The first active product whose name matches. */
  function FindProduct(catalog: Catalog, title: string): (found: Option<Product>)
    ensures found.Some? ==> found.value in catalog && found.value.active && Like(title, found.value.name)
    ensures found.None? ==> forall p :: p in catalog && p.active ==> !Like(title, p.name)
  {
    if catalog == [] then None
    else if catalog[0].active && Like(title, catalog[0].name) then Some(catalog[0])
    else FindProduct(catalog[1..], title)
  }

  predicate Listed(listings: map<string, Listing>, line: Line)
  {
    line.listingId in listings && listings[line.listingId].active
  }

  /** The checks of one item, in their order, given the seller of the first one. */
  function Refusal(listings: map<string, Listing>, catalog: Catalog, body: seq<Line>, i: nat): Option<CreateError>
    requires i < |body| && Listed(listings, body[0])
  {
    if !Listed(listings, body[i]) then Some(ListingNotFound(i))
    else if listings[body[i].listingId].sellerId != listings[body[0].listingId].sellerId then Some(MixedSeller(i))
    else if FindProduct(catalog, listings[body[i].listingId].title).None? then Some(ListingNotFound(i))
    else None
  }

  /** `resolved` are the items of `body`, each with its listing's seller and product, all of one seller. */
  ghost predicate Resolves(listings: map<string, Listing>, catalog: Catalog, body: seq<Line>, resolved: seq<Resolved>)
  {
    && |resolved| == |body|
    && forall i :: 0 <= i < |body| ==>
         && Listed(listings, body[i])
         && FindProduct(catalog, listings[body[i].listingId].title).Some?
         && resolved[i] == Resolved(body[i], FindProduct(catalog, listings[body[i].listingId].title).value,
                                    listings[body[i].listingId].sellerId)
         && resolved[i].sellerId == resolved[0].sellerId
  }

  /** The first item that is refused, and why. */
  ghost predicate FirstRefused(listings: map<string, Listing>, catalog: Catalog, body: seq<Line>, e: CreateError)
  {
    if body != [] && !Listed(listings, body[0]) then e == ListingNotFound(0)
    else exists i: nat :: i < |body| && Refusal(listings, catalog, body, i) == Some(e)
                          && forall k: nat :: k < i ==> Refusal(listings, catalog, body, k).None?
  }

  /** How much of a listing the lines ask for. */
  function Asked(body: seq<Line>, listingId: string): int
  {
    if body == [] then 0
    else
      var n := |body| - 1;
      Asked(body[..n], listingId) + if body[n].listingId == listingId then body[n].quantity else 0
  }

  function Lowered(quantity: int, amount: int): int
  {
    if quantity - amount > 0 then quantity - amount else 0
  }

  /** Listings after an order: quantities lowered by what was asked, clamped at zero, everything else as it was. */
  ghost predicate Sold(before: map<string, Listing>, after: map<string, Listing>, body: seq<Line>)
  {
    && after.Keys == before.Keys
    && forall id :: id in before ==>
         after[id] == if exists i :: 0 <= i < |body| && body[i].listingId == id
                      then before[id].(quantity := Lowered(before[id].quantity, Asked(body, id))) else before[id]
  }

  lemma {:induction false} AskedNonNegative(body: seq<Line>, listingId: string)
    requires forall i :: 0 <= i < |body| ==> body[i].quantity >= 0
    ensures Asked(body, listingId) >= 0
    ensures (forall i :: 0 <= i < |body| ==> body[i].listingId != listingId) ==> Asked(body, listingId) == 0
  {
    if body != [] {
      AskedNonNegative(body[..|body| - 1], listingId);
    }
  }

  /** Lowering step by step, clamped each time, is lowering by the sum, clamped once. */
  lemma SoldSnoc(before: map<string, Listing>, mid: map<string, Listing>, body: seq<Line>, line: Line)
    requires Sold(before, mid, body) && line.quantity >= 0
    requires forall i :: 0 <= i < |body| ==> body[i].quantity >= 0
    ensures Sold(before, if line.listingId in mid
                         then mid[line.listingId := mid[line.listingId].(
                                quantity := Lowered(mid[line.listingId].quantity, line.quantity))]
                         else mid, body + [line])
  {
    var more := body + [line];
    assert more[..|body|] == body;
    forall id | id in before
      ensures (exists i :: 0 <= i < |more| && more[i].listingId == id)
          <==> (exists i :: 0 <= i < |body| && body[i].listingId == id) || line.listingId == id
      ensures Asked(body, id) >= 0
      ensures (forall i :: 0 <= i < |body| ==> body[i].listingId != id) ==> Asked(body, id) == 0
    {
      AskedNonNegative(body, id);
      assert more[|body|] == line;
      assert forall i :: 0 <= i < |body| ==> more[i] == body[i];
    }
  }

  function ApiItems(resolved: seq<Resolved>, unitPrices: seq<int>): seq<ApiItem>
  {
    seq(|resolved|, i requires 0 <= i < |resolved| =>
      ApiItem(resolved[i].line.listingId, resolved[i].line.quantity,
              if i < |unitPrices| then unitPrices[i] else resolved[i].product.priceCents))
  }

  class Orders {
    var listings: map<string, Listing>
    var orders: map<nat, ApiOrder>
    var idempotencyStore: Cache.Memory

    constructor (listings: map<string, Listing>)
      ensures this.listings == listings && orders == map[] && idempotencyStore == map[]
    {
      this.listings, orders, idempotencyStore := listings, map[], map[];
    }

    /** The loop over the items: all of them resolved, or the first one that is refused. */
    method ResolveItems(catalog: Catalog, body: seq<Line>) returns (r: Result<seq<Resolved>, CreateError>)
      ensures match r
              case Ok(resolved) => Resolves(listings, catalog, body, resolved)
              case Err(e) => FirstRefused(listings, catalog, body, e)
    {
      var resolved: seq<Resolved> := [];
      var sellerId: Option<string> := None;
      for i := 0 to |body|
        invariant Resolves(listings, catalog, body[..i], resolved)
        invariant sellerId == if i == 0 then None else Some(listings[body[0].listingId].sellerId)
        invariant i > 0 ==> Listed(listings, body[0])
        invariant forall k: nat :: k < i ==> Refusal(listings, catalog, body, k).None?
      {
        var line := body[i];
        if line.listingId !in listings || !listings[line.listingId].active {
          assert i > 0 ==> Refusal(listings, catalog, body, i) == Some(ListingNotFound(i));
          return Err(ListingNotFound(i));
        }
        var listing := listings[line.listingId];
        if sellerId.None? {
          sellerId := Some(listing.sellerId);
        } else if sellerId.value != listing.sellerId {
          assert Refusal(listings, catalog, body, i) == Some(MixedSeller(i));
          return Err(MixedSeller(i));
        }
        var product := FindProduct(catalog, listing.title);
        if product.None? {
          assert Refusal(listings, catalog, body, i) == Some(ListingNotFound(i));
          return Err(ListingNotFound(i));
        }
        resolved := resolved + [Resolved(line, product.value, listing.sellerId)];
        assert body[..i + 1] == body[..i] + [line];
      }
      assert body[..|body|] == body;
      r := Ok(resolved);
    }

    method LowerListings(body: seq<Line>)
      requires forall i :: 0 <= i < |body| ==> body[i].quantity >= 0
      modifies this`listings
      ensures Sold(old(listings), listings, body)
    {
      for i := 0 to |body|
        invariant Sold(old(listings), listings, body[..i])
      {
        var line := body[i];
        SoldSnoc(old(listings), listings, body[..i], line);
        assert body[..i + 1] == body[..i] + [line];
        if line.listingId in listings {
          var listing := listings[line.listingId];
          listings := listings[line.listingId := listing.(quantity := Lowered(listing.quantity, line.quantity))];
        }
      }
      assert body[..|body|] == body;
    }

    /**
     `create`. An entry of the idempotency map answers at once. An error leaves all three maps as they were; a first
     order lowers the listings, and both kinds of success enter the request and its order into the map, so that the
     same request again is a replay. A checkout that succeeds has checked the quantities.
     */
    method Create(role: string, request: Cache.Order, catalog: Catalog, body: seq<Line>, buyers: map<string, string>,
                  answer: CheckoutAnswer)
      returns (r: Result<Created, CreateError>)
      requires answer.First? ==> body != [] && forall i :: 0 <= i < |body| ==> body[i].quantity >= 1
      modifies this
      ensures r.Err? ==> listings == old(listings) && orders == old(orders) && idempotencyStore == old(idempotencyStore)
      ensures r.Ok? ==> Cache.Cached(idempotencyStore, request) == Some(Cache.Replay(r.value.orderId))
      ensures r == Err(Forbidden) <==> role != "buyer"
      ensures role == "buyer" ==>
              match Cache.Cached(old(idempotencyStore), request)
              case Some(Replay(orderId)) =>
                r == Ok(Created(orderId, true)) && listings == old(listings) && orders == old(orders)
                && idempotencyStore == old(idempotencyStore)
              case Some(_) => r == Err(KeyConflict)
              case None =>
                match r
                case Err(KeyConflict) => answer.Conflicting?
                case Err(UnknownBuyer) => request.user !in buyers
                case Err(CheckoutFailed) => answer.Failing?
                case Err(OrderNotReadable) => answer.Replayed? && !answer.readable
                case Err(e) => FirstRefused(old(listings), catalog, body, e)
                case Ok(Created(orderId, replay)) =>
                  && request.user in buyers
                  && idempotencyStore == Entered(old(idempotencyStore), request, orderId)
                  && if replay then
                       answer == Replayed(orderId, true) && listings == old(listings) && orders == old(orders)
                     else
                       && answer.First? && answer.orderId == orderId
                       && Sold(old(listings), listings, body)
                       && orderId in orders && orders == old(orders)[orderId := orders[orderId]]
                       && IsOrderOf(orders[orderId], old(listings), body, request.user, answer)
    {
      if role != "buyer" {
        return Err(Forbidden);
      }
      var hit := Cache.Cached(idempotencyStore, request);
      if hit.Some? {
        return if hit.value.Replay? then Ok(Created(hit.value.orderId, true)) else Err(KeyConflict);
      }
      var resolution := ResolveItems(catalog, body);
      if resolution.Err? {
        return Err(resolution.error);
      }
      var resolved := resolution.value;
      if request.user !in buyers {
        return Err(UnknownBuyer);
      }
      match answer
      case Conflicting => return Err(KeyConflict);
      case Failing => return Err(CheckoutFailed);
      case Replayed(orderId, readable) =>
        if !readable {
          return Err(OrderNotReadable);
        }
        idempotencyStore := Entered(idempotencyStore, request, orderId);
        return Ok(Created(orderId, true));
      case First(orderId, totalCents, unitPrices) =>
        LowerListings(body);
        var order := ApiOrder(orderId, request.user, resolved[0].sellerId, ApiItems(resolved, unitPrices), totalCents);
        orders := orders[orderId := order];
        EnteredAnswers(idempotencyStore, request, orderId, request.hash);
        idempotencyStore := Entered(idempotencyStore, request, orderId);
        return Ok(Created(orderId, false));
    }
  }

  function Entered(memory: Cache.Memory, request: Cache.Order, orderId: nat): Cache.Memory
  {
    memory[Cache.CacheKey(request.user, request.key) := Cache.Entry(request.hash, orderId, request)]
  }

  /** The new order: the requested items in request order, at the prices the checkout took, from their one seller. */
  ghost predicate IsOrderOf(order: ApiOrder, listings: map<string, Listing>, body: seq<Line>, user: string,
                            answer: CheckoutAnswer)
    requires answer.First?
  {
    && order.orderId == answer.orderId && order.buyer == user && order.totalCents == answer.totalCents
    && |order.items| == |body|
    && forall i: nat :: i < |body| ==>
         && order.items[i].listingId == body[i].listingId && order.items[i].quantity == body[i].quantity
         && (i < |answer.unitPrices| ==> order.items[i].priceCents == answer.unitPrices[i])
         && body[i].listingId in listings && listings[body[i].listingId].sellerId == order.seller
  }

  /** After a success, the same request again is a replay of the same order, and another body is a conflict. */
  lemma EnteredAnswers(memory: Cache.Memory, request: Cache.Order, orderId: nat, hash: string)
    ensures Cache.Cached(Entered(memory, request, orderId), request.(hash := hash)) ==
            Some(if hash == request.hash then Cache.Replay(orderId) else Cache.Conflict)
  {
  }
}
