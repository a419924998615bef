/**
 * Likes on replicas (src/hooks/useLikes.ts): a record from physicist id to a
 * flag, toggled with a toast. A key never written reads as `undefined`,
 * which is falsy.
 */
module Likes {

  /** The toast a toggle shows. */
  datatype Toast = Toast(title: string, description: string, variant: string)

  /** `!!likes[id]`. */
  predicate LikedIn(likes: map<string, bool>, id: string) {
    id in likes && likes[id]
  }

  /** `{ ...prev, [id]: !prev[id] }`. */
  function Toggled(likes: map<string, bool>, id: string): (r: map<string, bool>)
    ensures LikedIn(r, id) == !LikedIn(likes, id)
    ensures r.Keys == likes.Keys + {id}
    ensures forall k :: k in likes && k != id ==> r[k] == likes[k]
  {
    likes[id := !LikedIn(likes, id)]
  }

  /** The toast for a toggle of a replica that was, or was not, liked before. */
  function ToggleToast(wasLiked: bool): Toast {
    if wasLiked then
      Toast("Replica Unliked", "You've removed your like from this physicist replica", "destructive")
    else
      Toast("Replica Liked", "You've liked this physicist replica", "default")
  }

  /** Toggling twice gives back the same likes, as `isLiked` reads them. */
  lemma ToggleTwiceRestores(likes: map<string, bool>, id: string, other: string)
    ensures LikedIn(Toggled(Toggled(likes, id), id), other) == LikedIn(likes, other)
  {
  }

  /** A like on one replica is never touched by toggling another. */
  lemma ToggleIsLocal(likes: map<string, bool>, id: string, other: string)
    requires other != id
    ensures LikedIn(Toggled(likes, id), other) == LikedIn(likes, other)
  {
  }

  class LikesHook {
    var likedPhysicists: map<string, bool>

    constructor ()
      ensures likedPhysicists == map[]
      ensures forall id :: !IsLiked(id)
    {
      likedPhysicists := map[];
    }

    function IsLiked(id: string): bool
      reads this
    {
      LikedIn(likedPhysicists, id)
    }

    /**
     * `toggleLike`: flips the flag, shows the toast chosen by the old flag,
     * and returns the new one.
     */
    method ToggleLike(id: string) returns (nowLiked: bool, toast: Toast)
      modifies this
      ensures likedPhysicists == Toggled(old(likedPhysicists), id)
      ensures nowLiked == IsLiked(id) && nowLiked == !old(IsLiked(id))
      ensures toast == ToggleToast(old(IsLiked(id)))
      ensures toast.variant == "destructive" <==> !nowLiked
    {
      var isCurrentlyLiked := LikedIn(likedPhysicists, id);
      toast := ToggleToast(isCurrentlyLiked);
      nowLiked := !isCurrentlyLiked;
      likedPhysicists := likedPhysicists[id := !isCurrentlyLiked];
    }
  }
}
