// The deals card on the home screen (app/components/home/ProShopDealsCard.tsx):
// the hovered deal, the quick actions it reveals, and the like toggle.
module ProShopDealsCard {
  import opened Js
  import opened LikeSet

  /** A deal; an absent `isHot` is falsy and is `false` here. Prices are left out. */
  datatype Deal = Deal(id: string, title: string, discountPercentage: int, expiresIn: string, category: string, isHot: bool)

  const SampleDeals: seq<Deal> := [
    Deal("1", "TaylorMade Stealth 2 Plus Driver", 17, "2 days", "Drivers", true),
    Deal("2", "Titleist Pro V1 Golf Balls", 20, "3 days", "Balls", false),
    Deal("3", "Callaway JAWS Raw Wedge", 15, "5 days", "Wedges", true),
    Deal("4", "FootJoy Pro|SL Golf Shoes", 24, "4 days", "Footwear", false)
  ]

  /** The card's state: the liked deal ids and the deal under the pointer. */
  class DealsCard {
    var likedDeals: StringSet
    var hoveredDeal: Option<string>

    constructor ()
      ensures likedDeals.elems == {} && hoveredDeal == None
    {
      likedDeals := new StringSet.Empty();
      hoveredDeal := None;
    }

    /** The like and share buttons render only on the hovered deal. */
    predicate ShowsActions(id: string)
      reads this
    {
      hoveredDeal == Some(id)
    }

    method HoverStart(id: string)
      modifies this
      ensures hoveredDeal == Some(id) && likedDeals == old(likedDeals)
    {
      hoveredDeal := Some(id);
    }

    method HoverEnd()
      modifies this
      ensures hoveredDeal == None && likedDeals == old(likedDeals)
    {
      hoveredDeal := None;
    }

    /** `handleLike(id)` from the heart among the hovered deal's actions. */
    method HandleLike(id: string)
      requires ShowsActions(id)
      modifies this
      ensures fresh(likedDeals)
      ensures likedDeals.elems == Toggled(old(likedDeals.elems), id)
      ensures old(likedDeals).elems == old(likedDeals.elems)
      ensures hoveredDeal == old(hoveredDeal)
    {
      likedDeals := ToggledCopy(likedDeals, id);
    }
  }
}
