/**
 * The list item record returned by a fetch service.
 *
 * The Swift declaration lists the fields `id`, `title`, `subtitle` and
 * `content`, but every place that builds an item (the mock fixture, the
 * tests, the detail screen) uses `userId`, `id`, `title` and `body`, which is
 * also the shape of the remote JSON. The model follows the callers.
 */
module Entity {

  /** An immutable value: all fields are `let`, equality is field-wise. */
  datatype ListItemEntity = ListItemEntity(userId: int, id: int, title: string, body: string)

  /** `id` is the identity a list is rendered by: no two items share one. */
  predicate UniqueIds(items: seq<ListItemEntity>)
  {
    forall i, j :: 0 <= i < j < |items| ==> items[i].id != items[j].id
  }

  /** The ids of a list, in order. */
  function Ids(items: seq<ListItemEntity>): (r: seq<int>)
    ensures |r| == |items|
    ensures forall k :: 0 <= k < |items| ==> r[k] == items[k].id
  {
    if items == [] then [] else [items[0].id] + Ids(items[1..])
  }

  /** Structural equality of records: equal exactly when every field is equal. */
  lemma EntityEquality(a: ListItemEntity, b: ListItemEntity)
    ensures a == b <==> (a.userId == b.userId && a.id == b.id && a.title == b.title && a.body == b.body)
  {
  }

  /**
   * Two item arrays compare equal (as the tests compare them with `==`)
   * exactly when they have the same length and are equal element by element.
   */
  lemma ItemsEquality(xs: seq<ListItemEntity>, ys: seq<ListItemEntity>)
    ensures xs == ys <==> (|xs| == |ys| && forall k :: 0 <= k < |xs| ==> xs[k] == ys[k])
  {
  }
}
