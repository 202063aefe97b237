/**
 * The follow-list update of `toggleFollow`: `followedIncidents` is a list,
 * not a set, so "unfollow" is `List - id` (first occurrence) and "follow"
 * is `List + id` (append at the end).
 */
module Follows {
  import opened Lists

  /** The new `followedIncidents` list after toggling `id`. */
  function Toggled(follows: seq<string>, id: string): (r: seq<string>)
    ensures id !in follows ==> r == follows + [id]
    ensures id in follows ==> |r| == |follows| - 1
  {
    if id in follows then RemoveFirst(follows, id) else follows + [id]
  }

  /** Unfollowing removes precisely the first occurrence of the id. */
  lemma ToggledRemovesFirstOccurrence(follows: seq<string>, id: string, i: nat)
    requires i < |follows| && follows[i] == id
    requires forall j | 0 <= j < i :: follows[j] != id
    ensures Toggled(follows, id) == follows[..i] + follows[i + 1..]
  {
    RemoveFirstAt(follows, id, i);
  }

  /** Toggling changes the count of `id` by one and leaves every other id's count alone. */
  lemma ToggledMultiset(follows: seq<string>, id: string)
    ensures multiset(Toggled(follows, id)) ==
      if id in follows then multiset(follows) - multiset{id} else multiset(follows) + multiset{id}
  {
    if id in follows {
      RemoveFirstMultiset(follows, id);
    }
  }

  /** Following and then unfollowing an id restores the original list exactly. */
  lemma ToggledTwiceRestores(follows: seq<string>, id: string)
    requires id !in follows
    ensures Toggled(Toggled(follows, id), id) == follows
  {
    RemoveFirstOfAppended(follows, id);
  }

  /**
   * Toggling an id that occurs at most once twice does not change which ids
   * are followed, nor how often: an unfollow-then-follow only moves the id to
   * the end of the list. (With two copies, both toggles unfollow.)
   */
  lemma ToggledTwiceSameMultiset(follows: seq<string>, id: string)
    requires multiset(follows)[id] <= 1
    ensures multiset(Toggled(Toggled(follows, id), id)) == multiset(follows)
  {
    var once := Toggled(follows, id);
    ToggledMultiset(follows, id);
    ToggledMultiset(once, id);
    if id in follows {
      assert multiset(once)[id] == 0;
    } else {
      assert id in once;
    }
  }

  /** Every toggle changes the list, whatever the id, the empty id included. */
  lemma ToggledChanges(follows: seq<string>, id: string)
    ensures Toggled(follows, id) != follows
  {
  }

  /** Pressing "Geri" with an empty follow list makes the user follow the empty id; pressing it again undoes that. */
  lemma BackTogglesEmptyId()
    ensures Toggled([], "") == [""]
    ensures Toggled([""], "") == []
  {
  }

  /**
   * On a list without duplicates (every list built by toggling from empty),
   * toggling behaves as the symmetric difference with `{id}` and keeps the
   * list free of duplicates.
   */
  lemma ToggledAsSet(follows: seq<string>, id: string)
    requires NoDuplicates(follows)
    ensures NoDuplicates(Toggled(follows, id))
    ensures forall y :: y in Toggled(follows, id) <==>
      if id in follows then y in follows && y != id else y in follows || y == id
  {
    if id in follows {
      RemoveFirstNoDuplicates(follows, id);
    } else {
      AppendNoDuplicates(follows, id);
    }
  }
}
