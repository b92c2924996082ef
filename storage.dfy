/** The inventory line item, its exact area, and the browser storage the offline
    write path persists to. */
module Storage {

  /** The kind of movement an inventory line records. */
  datatype TxType = Sale | Purchase

  /** The inventory form: tile dimensions in millimetres, tiles per box, number of boxes. */
  datatype InventoryForm = InventoryForm(
    productName: string,
    tileW: int,
    tileH: int,
    tilesPerBox: int,
    boxes: int,
    kind: TxType,
    branchId: string,
    warehouseId: string)

  /** The form the page starts with and returns to after every validated save. */
  const DefaultForm := InventoryForm("", 600, 600, 4, 1, Sale, "", "")

  /** A saved line: the form as it was, plus its area (kept exactly, in mm²). */
  datatype Item = Item(entry: InventoryForm, areaMm2: int)

  /** The covered area in mm²: tile width times tile height times tiles per box times boxes.
      No dimension is checked to be positive. */
  function AreaMm2(tileW: int, tileH: int, tilesPerBox: int, boxes: int): (a: int)
    ensures tileW > 0 && tileH > 0 && tilesPerBox > 0 && boxes > 0 ==> a > 0
    ensures tileW == 0 || tileH == 0 || tilesPerBox == 0 || boxes == 0 ==> a == 0
  {
    var tile := tileW * tileH;
    var box := tile * tilesPerBox;
    assert tileW > 0 && tileH > 0 ==> tile > 0;
    assert tile > 0 && tilesPerBox > 0 ==> box > 0;
    box * boxes
  }

  /** The area in m², in exact arithmetic rather than floating point. */
  function AreaSqm(tileW: int, tileH: int, tilesPerBox: int, boxes: int): real
  {
    AreaMm2(tileW, tileH, tilesPerBox, boxes) as real / 1000000.0
  }

  /** The integer form agrees with the formula as the page writes it,
      (w / 1000) * (h / 1000) * perBox * boxes, read in exact arithmetic. */
  lemma AreaSqmFormula(tileW: int, tileH: int, tilesPerBox: int, boxes: int)
    ensures AreaSqm(tileW, tileH, tilesPerBox, boxes) ==
      (tileW as real / 1000.0) * (tileH as real / 1000.0) * tilesPerBox as real * boxes as real
  {
  }

  /** The area grows linearly with the number of boxes. */
  lemma AreaPerBox(tileW: int, tileH: int, tilesPerBox: int, boxes: int)
    ensures AreaMm2(tileW, tileH, tilesPerBox, boxes) == boxes * AreaMm2(tileW, tileH, tilesPerBox, 1)
  {
  }

  /** The two worked examples: 600 x 600 mm tiles, 4 per box, 1 box cover 1.44 m²;
      300 x 300 mm tiles, 10 per box, 2 boxes cover 1.80 m². */
  lemma AreaExamples()
    ensures AreaMm2(600, 600, 4, 1) == 1440000 && AreaSqm(600, 600, 4, 1) == 1.44
    ensures AreaMm2(300, 300, 10, 2) == 1800000 && AreaSqm(300, 300, 10, 2) == 1.80
  {
  }

  /** Nothing rejects a negative box count: the area then comes out negative. */
  lemma AreaNotChecked()
    ensures AreaMm2(600, 600, 4, -1) < 0
  {
  }

  /** `{ ...form, sqm }`: the line saved for a form. Its area, read in m², is the
      page's formula evaluated on the form's own dimensions. */
  function ItemOf(f: InventoryForm): (it: Item)
    ensures it.entry == f
    ensures it.areaMm2 as real / 1000000.0 ==
      (f.tileW as real / 1000.0) * (f.tileH as real / 1000.0) * f.tilesPerBox as real * f.boxes as real
  {
    AreaSqmFormula(f.tileW, f.tileH, f.tilesPerBox, f.boxes);
    Item(f, AreaMm2(f.tileW, f.tileH, f.tilesPerBox, f.boxes))
  }

  /** The browser's local storage, reduced to the two keys the write path uses.
      A missing key and one holding "[]" both read as the empty list. */
  class LocalStore {
    /** `localStorage["inventoryItems"]`: the recent-items display list. */
    var inventoryItems: seq<Item>
    /** `localStorage["syncQueue"]`: the items whose online write failed. */
    var syncQueue: seq<Item>

    /** Storage with neither key set. */
    constructor Empty()
      ensures inventoryItems == [] && syncQueue == []
    {
      inventoryItems := [];
      syncQueue := [];
    }

    /** Storage as a previous session left it. */
    constructor Restore(items: seq<Item>, queue: seq<Item>)
      ensures inventoryItems == items && syncQueue == queue
    {
      inventoryItems := items;
      syncQueue := queue;
    }
  }
}
