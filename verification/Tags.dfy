/** Things tagged with the identifier of whom they belong to, in one sequence, and each owner's own among
    them. */
module Tags {

  datatype Tagged<T> = Tagged(id: string, item: T)

  /** What belongs to one owner, in order. */
  function Own<T>(items: seq<Tagged<T>>, id: string): seq<T>
  {
    if items == [] then []
    else
      var last := items[|items| - 1];
      Own(items[..|items| - 1], id) + (if last.id == id then [last.item] else [])
  }

  /** Where the k-th stands among those of its owner. */
  function Rank<T>(items: seq<Tagged<T>>, k: nat): nat
    requires k < |items|
  {
    |Own(items[..k], items[k].id)|
  }

  lemma OwnSnoc<T>(items: seq<Tagged<T>>, e: Tagged<T>, id: string)
    ensures Own(items + [e], id) == Own(items, id) + (if e.id == id then [e.item] else [])
  {
    assert (items + [e])[..|items|] == items;
  }

  lemma {:induction false} OwnAt<T>(items: seq<Tagged<T>>, k: nat)
    requires k < |items|
    ensures var own := Own(items, items[k].id);
            Rank(items, k) < |own| && own[Rank(items, k)] == items[k].item
    decreases |items|
  {
    var rest := items[..|items| - 1];
    if k < |rest| {
      OwnAt(rest, k);
      assert rest[..k] == items[..k] && rest[k] == items[k];
    }
  }

  lemma {:induction false} OwnAfterUpdate<T>(items: seq<Tagged<T>>, k: nat, w: T, id: string)
    requires k < |items|
    ensures Rank(items, k) < |Own(items, items[k].id)|
    ensures Own(items[k := items[k].(item := w)], id)
         == if items[k].id == id then Own(items, id)[Rank(items, k) := w] else Own(items, id)
    decreases |items|
  {
    OwnAt(items, k);
    var n := |items| - 1;
    var rest, last := items[..n], items[n];
    var updated := items[k := items[k].(item := w)];
    if k < n {
      OwnAfterUpdate(rest, k, w, id);
      assert rest[..k] == items[..k];
      assert updated[..n] == rest[k := rest[k].(item := w)] && updated[n] == last;
    } else {
      assert updated[..n] == rest && items[..k] == rest;
    }
  }

  /** Updates move nobody. */
  lemma {:induction false} SameIdsSameLengths<T>(a: seq<Tagged<T>>, b: seq<Tagged<T>>, id: string)
    requires |a| == |b| && forall k | 0 <= k < |a| :: a[k].id == b[k].id
    ensures |Own(a, id)| == |Own(b, id)|
    decreases |a|
  {
    if a != [] { SameIdsSameLengths(a[..|a| - 1], b[..|b| - 1], id); }
  }

  lemma SameIdsSameRank<T>(a: seq<Tagged<T>>, b: seq<Tagged<T>>, k: nat)
    requires |a| == |b| && (forall j | 0 <= j < |a| :: a[j].id == b[j].id) && k < |a|
    ensures Rank(a, k) == Rank(b, k)
  {
    SameIdsSameLengths(a[..k], b[..k], a[k].id);
  }

  lemma {:induction false} OwnGrows<T>(items: seq<Tagged<T>>, j: nat, k: nat, id: string)
    requires j <= k <= |items|
    ensures |Own(items[..j], id)| <= |Own(items[..k], id)|
    decreases k
  {
    if j < k {
      OwnGrows(items, j, k - 1, id);
      assert items[..k] == items[..k - 1] + [items[k - 1]];
      OwnSnoc(items[..k - 1], items[k - 1], id);
    }
  }

  /** Two of one owner have different ranks. */
  lemma RanksDiffer<T>(items: seq<Tagged<T>>, j: nat, k: nat)
    requires j < k < |items| && items[j].id == items[k].id
    ensures Rank(items, j) < Rank(items, k)
  {
    OwnSnoc(items[..j], items[j], items[j].id);
    assert items[..j + 1] == items[..j] + [items[j]];
    OwnGrows(items, j + 1, k, items[j].id);
  }

  lemma {:induction false} OwnOnly<T>(a: seq<Tagged<T>>, b: seq<Tagged<T>>, id: string)
    requires |a| == |b| && forall k | 0 <= k < |a| :: a[k].id == b[k].id && (a[k].id == id ==> a[k] == b[k])
    ensures Own(a, id) == Own(b, id)
    decreases |a|
  {
    if a != [] { OwnOnly(a[..|a| - 1], b[..|b| - 1], id); }
  }
}
