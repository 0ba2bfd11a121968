/**
 * The in-memory cat store (service/CatService.kt): a mutable list of cats
 * with lookup, snapshot, delete and add. The list operations are first
 * specified as functions on `seq<Cat>`; the class below is proved against them.
 */
module Service {
  import opened Wrappers
  import opened Model

  /** No cat in `s` has id `id`. */
  predicate Fresh(s: seq<Cat>, id: Uuid)
  {
    forall i :: 0 <= i < |s| ==> s[i].id != id
  }

  /** No two cats in `s` share an id. */
  predicate UniqueIds(s: seq<Cat>)
  {
    forall i, j :: 0 <= i < j < |s| ==> s[i].id != s[j].id
  }

  /** The position of the first cat in `s` whose id is `id`, or `|s|` when there is none. */
  function FirstIndex(s: seq<Cat>, id: Uuid): (k: nat)
    ensures k <= |s|
    ensures k < |s| ==> s[k].id == id
    ensures forall j :: 0 <= j < k ==> s[j].id != id
  {
    if |s| == 0 then 0
    else if s[0].id == id then 0
    else 1 + FirstIndex(s[1..], id)
  }

  /** `cats.find { it.id == id }`: the first cat with that id, or absence. */
  function Find(s: seq<Cat>, id: Uuid): (r: Option<Cat>)
    ensures r.None? <==> Fresh(s, id)
    ensures r.Some? ==> exists i :: 0 <= i < |s| && s[i] == r.value && s[i].id == id &&
                                     forall j :: 0 <= j < i ==> s[j].id != id
  {
    var k := FirstIndex(s, id);
    if k < |s| then Some(s[k]) else None
  }

  /** `indexOf(x)`: the position of the first element equal to `x`, or `|s|` when there is none. */
  function IndexOf(s: seq<Cat>, x: Cat): (k: nat)
    ensures k <= |s|
    ensures k < |s| <==> x in s
    ensures k < |s| ==> s[k] == x
    ensures forall j :: 0 <= j < k ==> s[j] != x
  {
    if |s| == 0 then 0
    else if s[0] == x then 0
    else 1 + IndexOf(s[1..], x)
  }

  /**
   * `MutableList.remove(element)`: drops the first element structurally
   * equal to `x`, keeping the others in order, and leaves the list alone
   * when there is none.
   */
  function RemoveFirst(s: seq<Cat>, x: Cat): (r: seq<Cat>)
    ensures x !in s ==> r == s
    ensures x in s ==> r == s[..IndexOf(s, x)] + s[IndexOf(s, x) + 1..]
  {
    if |s| == 0 then s
    else if s[0] == x then s[1..]
    else
      var t := s[1..];
      assert s == [s[0]] + t;
      if x in t then
        ConsWithoutPosition(s[0], t, IndexOf(t, x));
        [s[0]] + RemoveFirst(t, x)
      else
        [s[0]] + RemoveFirst(t, x)
  }

  /** Dropping position `k` of a tail is dropping position `k + 1` of the whole list. */
  lemma ConsWithoutPosition(h: Cat, t: seq<Cat>, k: nat)
    requires k < |t|
    ensures [h] + (t[..k] + t[k + 1..]) == ([h] + t)[..k + 1] + ([h] + t)[k + 2..]
  {
    var s := [h] + t;
    assert s[..k + 1] == [h] + t[..k];
    assert s[k + 2..] == t[k + 1..];
  }

  /** `remove` drops exactly one copy of the element when present, so the length falls by one. */
  lemma RemoveFirstDropsOneCopy(s: seq<Cat>, x: Cat)
    requires x in s
    ensures |RemoveFirst(s, x)| == |s| - 1
    ensures multiset(RemoveFirst(s, x)) + multiset{x} == multiset(s)
  {
    MultisetWithoutPosition(s, IndexOf(s, x));
  }

  lemma MultisetWithoutPosition(s: seq<Cat>, k: nat)
    requires k < |s|
    ensures multiset(s[..k] + s[k + 1..]) + multiset{s[k]} == multiset(s)
  {
    assert s == s[..k] + [s[k]] + s[k + 1..];
  }

  /** The list after `deleteCat(id)`: the found cat removed, or the list untouched. */
  function AfterDelete(s: seq<Cat>, id: Uuid): (r: seq<Cat>)
    ensures Fresh(s, id) ==> r == s
    ensures !Fresh(s, id) ==> |r| == |s| - 1
  {
    match Find(s, id)
    case None => s
    case Some(c) => RemoveFirst(s, c)
  }

  /**
   * `remove` of the found cat removes exactly the found position: no earlier
   * element is equal to it, because every earlier element has another id.
   */
  lemma RemoveFirstAtFound(s: seq<Cat>, id: Uuid)
    requires FirstIndex(s, id) < |s|
    ensures RemoveFirst(s, s[FirstIndex(s, id)]) == s[..FirstIndex(s, id)] + s[FirstIndex(s, id) + 1..]
  {
    var k := FirstIndex(s, id);
    assert forall j :: 0 <= j < k ==> s[j] != s[k];
  }

  /**
   * deleteCat: with no match the list is unchanged; with a match exactly the
   * first matching position is removed and the others keep their order.
   */
  lemma {:induction false} DeleteRemovesFound(s: seq<Cat>, id: Uuid)
    ensures Find(s, id).None? ==> AfterDelete(s, id) == s
    ensures Find(s, id).Some? ==>
      var k := FirstIndex(s, id);
      && k < |s| && s[k] == Find(s, id).value
      && AfterDelete(s, id) == s[..k] + s[k + 1..]
      && |AfterDelete(s, id)| == |s| - 1
  {
    if FirstIndex(s, id) < |s| {
      RemoveFirstAtFound(s, id);
    }
  }

  /** Appending never hides an earlier match; the appended cat is found only when nothing before it matches. */
  lemma FindAppend(s: seq<Cat>, c: Cat, id: Uuid)
    ensures Find(s + [c], id) ==
      if Find(s, id).Some? then Find(s, id)
      else if c.id == id then Some(c)
      else None
  {
    var t := s + [c];
    assert forall j :: 0 <= j < |s| ==> t[j] == s[j];
    assert t[|s|] == c;
  }

  /** A cat added under a fresh id is what a lookup of that id returns. */
  lemma AddedIsFound(s: seq<Cat>, c: Cat)
    requires Fresh(s, c.id)
    ensures Find(s + [c], c.id) == Some(c)
  {
    FindAppend(s, c, c.id);
  }

  /** Adding a cat under a fresh id leaves every other lookup as it was. */
  lemma AddKeepsOtherLookups(s: seq<Cat>, c: Cat, other: Uuid)
    requires other != c.id
    ensures Find(s + [c], other) == Find(s, other)
  {
    FindAppend(s, c, other);
  }

  /** Deleting the id of a cat just added under a fresh id gives that cat back and restores the list. */
  lemma AddThenDeleteRestores(s: seq<Cat>, c: Cat)
    requires Fresh(s, c.id)
    ensures Find(s + [c], c.id) == Some(c)
    ensures AfterDelete(s + [c], c.id) == s
  {
    var t := s + [c];
    AddedIsFound(s, c);
    DeleteRemovesFound(t, c.id);
    assert FirstIndex(t, c.id) == |s|;
    assert t[..|s|] == s;
  }

  /** The list without position `k`: earlier positions stay, later ones move down by one. */
  lemma WithoutPosition(s: seq<Cat>, k: nat, r: seq<Cat>)
    requires k < |s| && r == s[..k] + s[k + 1..]
    ensures |r| == |s| - 1
    ensures forall i :: 0 <= i < k ==> r[i] == s[i]
    ensures forall i :: k <= i < |r| ==> r[i] == s[i + 1]
  {
  }

  /** Removing a position whose cat does not carry `other` leaves the lookup of `other` unchanged. */
  lemma FindSkipsRemoved(s: seq<Cat>, k: nat, other: Uuid)
    requires k < |s| && s[k].id != other
    ensures Find(s[..k] + s[k + 1..], other) == Find(s, other)
  {
    var r := s[..k] + s[k + 1..];
    WithoutPosition(s, k, r);
    var m := FirstIndex(s, other);
    if m < k {
      assert r[m] == s[m];
      assert forall j :: 0 <= j < m ==> r[j].id != other;
      assert FirstIndex(r, other) == m;
    } else if m < |s| {
      assert r[m - 1] == s[m];
      assert forall j :: 0 <= j < m - 1 ==> r[j].id != other by {
        forall j | 0 <= j < m - 1 ensures r[j].id != other {
          if j < k { assert r[j] == s[j]; } else { assert r[j] == s[j + 1]; }
        }
      }
      assert FirstIndex(r, other) == m - 1;
    } else {
      assert Fresh(r, other) by {
        forall j | 0 <= j < |r| ensures r[j].id != other {
          if j < k { assert r[j] == s[j]; } else { assert r[j] == s[j + 1]; }
        }
      }
    }
  }

  /** With unique ids, removing the position that carries `id` leaves no cat with `id`. */
  lemma FreshWithoutPosition(s: seq<Cat>, k: nat, id: Uuid)
    requires UniqueIds(s) && k < |s| && s[k].id == id
    ensures Fresh(s[..k] + s[k + 1..], id)
  {
    var r := s[..k] + s[k + 1..];
    WithoutPosition(s, k, r);
    forall i | 0 <= i < |r| ensures r[i].id != id {
      if i < k { assert r[i] == s[i]; } else { assert r[i] == s[i + 1]; }
    }
  }

  /** Removing a position keeps ids unique. */
  lemma UniqueWithoutPosition(s: seq<Cat>, k: nat)
    requires UniqueIds(s) && k < |s|
    ensures UniqueIds(s[..k] + s[k + 1..])
  {
    var r := s[..k] + s[k + 1..];
    WithoutPosition(s, k, r);
    forall i, j | 0 <= i < j < |r| ensures r[i].id != r[j].id {
      var i' := if i < k then i else i + 1;
      var j' := if j < k then j else j + 1;
      assert r[i] == s[i'] && r[j] == s[j'];
    }
  }

  /** Deleting one id leaves the lookup of every other id unchanged. */
  lemma DeleteKeepsOtherLookups(s: seq<Cat>, id: Uuid, other: Uuid)
    requires other != id
    ensures Find(AfterDelete(s, id), other) == Find(s, other)
  {
    DeleteRemovesFound(s, id);
    var k := FirstIndex(s, id);
    if k < |s| {
      FindSkipsRemoved(s, k, other);
    }
  }

  /** With unique ids, a deleted id is no longer present afterwards. */
  lemma DeleteRemovesUniqueId(s: seq<Cat>, id: Uuid)
    requires UniqueIds(s)
    ensures Fresh(AfterDelete(s, id), id)
  {
    DeleteRemovesFound(s, id);
    var k := FirstIndex(s, id);
    if k < |s| {
      FreshWithoutPosition(s, k, id);
    }
  }

  /** Adding under a fresh id keeps ids unique. */
  lemma AddFreshKeepsUnique(s: seq<Cat>, c: Cat)
    requires UniqueIds(s) && Fresh(s, c.id)
    ensures UniqueIds(s + [c])
  {
  }

  /** Deleting keeps ids unique. */
  lemma DeleteKeepsUnique(s: seq<Cat>, id: Uuid)
    requires UniqueIds(s)
    ensures UniqueIds(AfterDelete(s, id))
  {
    DeleteRemovesFound(s, id);
    var k := FirstIndex(s, id);
    if k < |s| {
      UniqueWithoutPosition(s, k);
    }
  }

  /**
   * The service: a private mutable list of cats, empty at construction. The
   * clock and the id generator are not fields: the instant and the id they
   * would produce are passed to `AddCat`.
   */
  class CatService {
    var cats: seq<Cat>

    constructor ()
      ensures cats == []
    {
      cats := [];
    }

    /** getCat: a linear scan that stops at the first cat with the id; the list is not touched. */
    method GetCat(id: Uuid) returns (r: Option<Cat>)
      ensures r == Find(cats, id)
      ensures r.None? <==> Fresh(cats, id)
    {
      var i := 0;
      while i < |cats|
        invariant 0 <= i <= |cats|
        invariant forall j :: 0 <= j < i ==> cats[j].id != id
      {
        if cats[i].id == id {
          return Some(cats[i]);
        }
        i := i + 1;
      }
      return None;
    }

    /** listCats: a snapshot equal to the current contents in insertion order; being a value, later changes to the store never reach it. */
    method ListCats() returns (r: seq<Cat>)
      ensures r == cats
    {
      r := cats;
    }

    /**
     * deleteCat: finds first, then removes what it found. Absent: null and no
     * change. Present: that first matching cat, and exactly its position removed.
     */
    method DeleteCat(id: Uuid) returns (r: Option<Cat>)
      modifies this
      ensures r == Find(old(cats), id)
      ensures cats == AfterDelete(old(cats), id)
      ensures r.None? ==> cats == old(cats)
      ensures r.Some? ==>
        var k := FirstIndex(old(cats), id);
        k < |old(cats)| && cats == old(cats)[..k] + old(cats)[k + 1..]
    {
      r := GetCat(id);
      if r.Some? {
        cats := RemoveFirst(cats, r.value);
      }
      DeleteRemovesFound(old(cats), id);
    }

    /**
     * addCat: builds the cat from the input, the given id and instant, appends
     * it, and returns it. Everything already stored stays as it was.
     */
    method AddCat(dto: CatDto, id: Uuid, now: Instant) returns (cat: Cat)
      modifies this
      ensures cat == NewCat(dto, id, now)
      ensures cats == old(cats) + [cat]
    {
      cat := NewCat(dto, id, now);
      cats := cats + [cat];
    }
  }
}
