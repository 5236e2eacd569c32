/** The store map: one marker per item, placed by the item's id and coloured
    by whether the item has been scanned. */
module MapDisplay {
  import opened ChatSimulation

  datatype Marker = Marker(id: int, name: string, location: string, scanned: bool, x: int, y: int)

  /** The fixed layout: item 1 at (150, 200), item 2 at (300, 350), every other
      id at (100, 100). */
  function PositionOf(id: int): (p: (int, int))
  {
    if id == 1 then (150, 200) else if id == 2 then (300, 350) else (100, 100)
  }

  function ToMarker(item: Item): Marker
  {
    var p := PositionOf(item.id);
    Marker(item.id, item.name, item.location, item.scanned, p.0, p.1)
  }

  /** `items.map(...)`: same length and order as the items, each marker keeps
      its item's fields and sits where its id says. */
  function Markers(items: seq<Item>): (ms: seq<Marker>)
    ensures |ms| == |items|
    ensures forall i :: 0 <= i < |items| ==>
      && ms[i].id == items[i].id && ms[i].name == items[i].name
      && ms[i].location == items[i].location && ms[i].scanned == items[i].scanned
      && (ms[i].x, ms[i].y) == PositionOf(items[i].id)
  {
    if items == [] then [] else [ToMarker(items[0])] + Markers(items[1..])
  }

  /** The marker colour. */
  function MarkerColor(m: Marker): (c: string)
    ensures c == "green" <==> m.scanned
    ensures c == "green" || c == "red"
  {
    if m.scanned then "green" else "red"
  }

  /** The three placements, and nothing else. */
  lemma FixedLayout(id: int)
    ensures PositionOf(id) in {(150, 200), (300, 350), (100, 100)}
    ensures id == 1 <==> PositionOf(id) == (150, 200)
    ensures id == 2 <==> PositionOf(id) == (300, 350)
  {
  }

  /** A marker's position depends only on its item's id, not on `scanned` or
      the other fields; with `Markers`, not on where in the list the item is. */
  lemma PositionOnlyById(a: Item, b: Item)
    requires a.id == b.id
    ensures ToMarker(a).x == ToMarker(b).x && ToMarker(a).y == ToMarker(b).y
  {
  }

  /** The chat never marks an item as scanned, so however the visit goes every
      marker of its items stays red. */
  lemma ChatMarkersStayRed(clicks: seq<Click>)
    ensures var items := Run(Initial(), clicks).items;
      forall m :: m in Markers(items) ==> MarkerColor(m) == "red"
  {
    RunMovesForward(Initial(), clicks);
    var ms := Markers(InitialItems);
    forall m | m in ms ensures MarkerColor(m) == "red" {
      var k :| 0 <= k < |ms| && ms[k] == m;
      assert !InitialItems[k].scanned;
    }
  }
}
