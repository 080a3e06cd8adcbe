// The like toggles of the home-screen cards keep a JS `Set<string>` of liked
// ids and replace it on every tap with a toggled copy
// (app/components/home/FriendsFeedCard.tsx, app/components/home/ProShopDealsCard.tsx).
module LikeSet {

  /** A JS `Set` of strings: an object whose contents `add` and `delete` change in place. */
  class StringSet {
    var elems: set<string>

    constructor Empty()
      ensures elems == {}
    {
      elems := {};
    }

    /** `new Set(other)`: a fresh set with the same members. */
    constructor Copy(other: StringSet)
      ensures elems == other.elems
    {
      elems := other.elems;
    }

    function Has(x: string): bool
      reads this
    {
      x in elems
    }

    method Add(x: string)
      modifies this
      ensures elems == old(elems) + {x}
    {
      elems := elems + {x};
    }

    method Delete(x: string)
      modifies this
      ensures elems == old(elems) - {x}
    {
      elems := elems - {x};
    }
  }

  /** The members after one tap on the like button of `id`. */
  function Toggled(s: set<string>, id: string): set<string> {
    if id in s then s - {id} else s + {id}
  }

  /** A tap flips whether `id` is liked and leaves every other id as it was. */
  lemma ToggleFlips(s: set<string>, id: string, other: string)
    ensures id in Toggled(s, id) <==> id !in s
    ensures other != id ==> (other in Toggled(s, id) <==> other in s)
  {
  }

  /** Two taps on the same button give back the same members. */
  lemma ToggleTwice(s: set<string>, id: string)
    ensures Toggled(Toggled(s, id), id) == s
  {
  }

  /** Taps on different buttons commute. */
  lemma TogglesCommute(s: set<string>, a: string, b: string)
    ensures Toggled(Toggled(s, a), b) == Toggled(Toggled(s, b), a)
  {
  }

  /**
   * The state updater of `handleLike`: copy the previous set, then delete
   * `id` if it is there and add it otherwise. The previous set is not touched.
   */
  method ToggledCopy(prev: StringSet, id: string) returns (next: StringSet)
    ensures fresh(next)
    ensures next.elems == Toggled(prev.elems, id)
    ensures prev.elems == old(prev.elems)
  {
    next := new StringSet.Copy(prev);
    if next.Has(id) {
      next.Delete(id);
    } else {
      next.Add(id);
    }
  }
}
