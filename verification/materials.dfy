/** The material estimator: closed-form quantities for a fixed twelve-item
    catalog of work items, from excavation to paint, derived from the run's
    totals and wall thickness and three tunable constants. */
module Materials {
  import opened Wrappers
  import opened Metrics

  /** Loose dry material needed per unit of placed concrete. */
  const DryVolumeFactor: real := 1.54
  /** Mass of one cubic metre of cement, in kilograms. */
  const CementDensity: real := 1440.0
  /** Steel per cubic metre of concrete, in kilograms. */
  const SteelPerCubicMetre: real := 80.0
  /** Bricks per cubic metre of masonry. */
  const BricksPerCubicMetre: real := 500.0
  /** Wall height, in metres. */
  const WallHeight: real := 3.0
  /** Wall area one litre of paint covers, in square metres. */
  const PaintCoverage: real := 10.0

  /** Concrete mix as (cement, sand, aggregate) parts. */
  datatype Mix = Mix(cement: int, sand: int, aggregate: int) {
    function Parts(): int {
      cement + sand + aggregate
    }
  }

  /** The 1:2:4 mix the catalog uses. */
  const NominalMix := Mix(1, 2, 4)

  /** The divisions the estimator performs that can raise: by the sum of the
      mix parts, and by the cement bag mass. */
  datatype EstimateError = ZeroMixParts | ZeroBagMass

  datatype ConcreteBreakdown = ConcreteBreakdown(
    volume: real,
    cementKg: real,
    cementBags: real,
    sand: real,
    aggregate: real)

  /** Volume of cement in a breakdown, recovered from its mass. */
  function CementVolume(b: ConcreteBreakdown): real {
    b.cementKg / CementDensity
  }

  /** The share of `dry` that `part` of `total` mix parts makes up. */
  function Share(dry: real, part: int, total: int): real
    requires total != 0
  {
    dry * ((part as real) / (total as real))
  }

  /** Splits the dry volume of `volume` cubic metres of wet concrete among
      cement, sand and aggregate in proportion to the mix parts, and counts
      the cement in bags of `bagKg` kilograms. */
  function ConcreteMaterials(volume: real, mix: Mix, bagKg: real): (r: Result<ConcreteBreakdown, EstimateError>)
    ensures mix.Parts() == 0 ==> r == Failure(ZeroMixParts)
    ensures mix.Parts() != 0 && bagKg == 0.0 ==> r == Failure(ZeroBagMass)
    ensures r.Success? <==> mix.Parts() != 0 && bagKg != 0.0
    ensures r.Success? ==>
              && r.value.volume == volume
              && CementVolume(r.value) + r.value.sand + r.value.aggregate == DryVolumeFactor * volume
              && CementVolume(r.value) * (mix.sand as real) == r.value.sand * (mix.cement as real)
              && CementVolume(r.value) * (mix.aggregate as real) == r.value.aggregate * (mix.cement as real)
              && r.value.sand * (mix.aggregate as real) == r.value.aggregate * (mix.sand as real)
              && r.value.cementBags * bagKg == r.value.cementKg
  {
    var dry := volume * DryVolumeFactor;
    var parts := mix.Parts();
    if parts == 0 then Failure(ZeroMixParts)
    else
      var cementVolume := Share(dry, mix.cement, parts);
      var cementKg := cementVolume * CementDensity;
      if bagKg == 0.0 then Failure(ZeroBagMass)
      else
        var sand := Share(dry, mix.sand, parts);
        var aggregate := Share(dry, mix.aggregate, parts);
        SplitProportional(dry, mix);
        assert cementKg / CementDensity == cementVolume;
        Success(ConcreteBreakdown(volume, cementKg, cementKg / bagKg, sand, aggregate))
  }

  /** Splitting a volume by the mix parts puts all of it somewhere and keeps
      each pair of constituents in the ratio of their parts. */
  lemma SplitProportional(dry: real, mix: Mix)
    requires mix.Parts() != 0
    ensures Share(dry, mix.cement, mix.Parts()) + Share(dry, mix.sand, mix.Parts())
              + Share(dry, mix.aggregate, mix.Parts()) == dry
    ensures Share(dry, mix.cement, mix.Parts()) * (mix.sand as real)
              == Share(dry, mix.sand, mix.Parts()) * (mix.cement as real)
    ensures Share(dry, mix.cement, mix.Parts()) * (mix.aggregate as real)
              == Share(dry, mix.aggregate, mix.Parts()) * (mix.cement as real)
    ensures Share(dry, mix.sand, mix.Parts()) * (mix.aggregate as real)
              == Share(dry, mix.aggregate, mix.Parts()) * (mix.sand as real)
  {
  }

  /** For the nominal 1:2:4 mix: sand is twice and aggregate four times the
      cement volume, the three fill 1.54 times the wet volume, and the cement
      weighs 316.8 kg per cubic metre of wet concrete. */
  lemma NominalMixBreakdown(volume: real, bagKg: real)
    requires bagKg != 0.0
    ensures var r := ConcreteMaterials(volume, NominalMix, bagKg);
            && r.Success?
            && r.value.sand == 2.0 * CementVolume(r.value)
            && r.value.aggregate == 4.0 * CementVolume(r.value)
            && CementVolume(r.value) + r.value.sand + r.value.aggregate == 1.54 * volume
            && r.value.cementKg == 316.8 * volume
            && r.value.cementBags * bagKg == r.value.cementKg
  {
  }

  /** The smallest integer not below `x`. */
  function Ceil(x: real): (n: int)
    ensures (n as real) - 1.0 < x <= n as real
  {
    -((-x).Floor)
  }

  /** Floor area of one square tile of side `tileSizeMm` millimetres, in square metres. */
  function TileArea(tileSizeMm: real): real {
    (tileSizeMm / 1000.0) * (tileSizeMm / 1000.0)
  }

  /** Tiles needed to cover `carpet` square metres: the fewest whole tiles
      whose area reaches it, or none when the tile has no area. */
  function TileCount(carpet: real, tileSizeMm: real): (n: int)
    ensures TileArea(tileSizeMm) > 0.0 ==>
              ((n - 1) as real) * TileArea(tileSizeMm) < carpet <= (n as real) * TileArea(tileSizeMm)
    ensures TileArea(tileSizeMm) <= 0.0 ==> n == 0
    ensures tileSizeMm == 0.0 ==> n == 0
  {
    var area := TileArea(tileSizeMm);
    if area > 0.0 then
      CeilCovers(carpet, area);
      Ceil(carpet / area)
    else
      0
  }

  /** Dividing by a positive tile area and rounding up yields the count whose
      multiples bracket the area to cover. */
  lemma CeilCovers(carpet: real, area: real)
    requires area > 0.0
    ensures var n := Ceil(carpet / area);
            ((n - 1) as real) * area < carpet <= (n as real) * area
  {
    var q := carpet / area;
    var n := Ceil(q);
    assert q * area == carpet;
    assert ((n - 1) as real) < q <= n as real;
    assert ((n - 1) as real) * area < q * area;
    assert q * area <= (n as real) * area;
  }

  /** How a work item's quantity is keyed in the result. */
  datatype QuantityKey = Quantity | QuantityM3

  datatype Unit = CubicMetres | Kilograms | Pieces | Bags(bagKg: real) | Litres

  datatype WorkItem = WorkItem(item: string, key: QuantityKey, quantity: real, unit: Unit)

  /** The work-item names, in the order the estimator lists them. */
  const Catalog: seq<string> := [
    "Excavation",
    "PCC (under slab)",
    "Footing concrete",
    "RCC slab/beams",
    "Reinforcement steel",
    "Masonry (bricks)",
    "Sand (for concrete/mortar)",
    "Coarse aggregate",
    "Cement",
    "Plaster (both sides)",
    "Tiles / Flooring",
    "Paint (liters)"
  ]

  /** The units of the work items, in catalog order; the cement is counted
      in bags of `bagKg` kilograms. */
  function CatalogUnits(bagKg: real): seq<Unit> {
    [CubicMetres, CubicMetres, CubicMetres, CubicMetres, Kilograms, Pieces,
     CubicMetres, CubicMetres, Bags(bagKg), CubicMetres, Pieces, Litres]
  }

  /** The twelve quantities of an estimate, one per catalog item. */
  datatype Takeoff = Takeoff(
    excavation: real, pcc: real, footing: real, slab: real, steel: real, bricks: real,
    sand: real, aggregate: real, cementBags: real, plaster: real, tiles: real, paint: real)

  /** The twelve work items for a take-off, in catalog order, each with its
      catalog name, unit and quantity key. */
  function WorkList(t: Takeoff, bagKg: real): (w: seq<WorkItem>)
    ensures |w| == |Catalog|
    ensures forall i :: 0 <= i < |w| ==>
              && w[i].item == Catalog[i]
              && w[i].unit == CatalogUnits(bagKg)[i]
              && (w[i].key == QuantityM3 <==> i == 6 || i == 7)
    ensures && w[0].quantity == t.excavation && w[1].quantity == t.pcc
            && w[2].quantity == t.footing && w[3].quantity == t.slab
            && w[4].quantity == t.steel && w[5].quantity == t.bricks
            && w[6].quantity == t.sand && w[7].quantity == t.aggregate
            && w[8].quantity == t.cementBags && w[9].quantity == t.plaster
            && w[10].quantity == t.tiles && w[11].quantity == t.paint
  {
    var units := CatalogUnits(bagKg);
    [
      WorkItem(Catalog[0], Quantity, t.excavation, units[0]),
      WorkItem(Catalog[1], Quantity, t.pcc, units[1]),
      WorkItem(Catalog[2], Quantity, t.footing, units[2]),
      WorkItem(Catalog[3], Quantity, t.slab, units[3]),
      WorkItem(Catalog[4], Quantity, t.steel, units[4]),
      WorkItem(Catalog[5], Quantity, t.bricks, units[5]),
      WorkItem(Catalog[6], QuantityM3, t.sand, units[6]),
      WorkItem(Catalog[7], QuantityM3, t.aggregate, units[7]),
      WorkItem(Catalog[8], Quantity, t.cementBags, units[8]),
      WorkItem(Catalog[9], Quantity, t.plaster, units[9]),
      WorkItem(Catalog[10], Quantity, t.tiles, units[10]),
      WorkItem(Catalog[11], Quantity, t.paint, units[11])
    ]
  }

  /** The three tunable constants. */
  datatype Config = Config(cementBagKg: real, plasterThicknessMm: real, tileSizeMm: real)

  const DefaultConfig := Config(50.0, 12.0, 600.0)

  /** The estimate. The fixed contingency note is not modelled. */
  datatype MaterialsResult = MaterialsResult(
    workItems: seq<WorkItem>,
    concrete: ConcreteBreakdown,
    plasterVolume: real,
    tilesCount: int,
    bricksCount: real,
    paintLiters: real)

  /** Estimates the twelve work items from the totals and wall thickness of
      `res`. Each quantity is a closed form of the perimeter P, built-up area A,
      carpet area C and wall thickness t; the reinforcement and the concrete
      breakdown both derive from the combined PCC, footing and slab volume. */
  function EstimateMaterials(res: AggregateResult, cfg: Config): (r: Result<MaterialsResult, EstimateError>)
    ensures r.Success? <==> cfg.cementBagKg != 0.0
    ensures r.Failure? ==> r.error == ZeroBagMass
    ensures r.Success? ==>
              && |r.value.workItems| == |Catalog|
              && forall i :: 0 <= i < |r.value.workItems| ==>
                   && r.value.workItems[i].item == Catalog[i]
                   && r.value.workItems[i].unit == CatalogUnits(cfg.cementBagKg)[i]
                   && (r.value.workItems[i].key == QuantityM3 <==> i == 6 || i == 7)
    ensures r.Success? ==>
              var w := r.value.workItems;
              var p := res.totals.perimeter;
              var a := res.totals.builtUpArea;
              && w[0].quantity == p
              && w[1].quantity == 0.1 * a
              && w[2].quantity == 0.3 * p
              && w[3].quantity == 0.15 * a
              && w[5].quantity == r.value.bricksCount == 1500.0 * p * res.wallThickness
              && w[9].quantity == r.value.plasterVolume == 3.0 * p * cfg.plasterThicknessMm / 1000.0
              && w[11].quantity == r.value.paintLiters == 0.3 * p
    ensures r.Success? ==>
              var m := r.value;
              var w := m.workItems;
              && m.concrete.volume == w[1].quantity + w[2].quantity + w[3].quantity
              && w[4].quantity == SteelPerCubicMetre * m.concrete.volume
              && w[6].quantity == m.concrete.sand
              && w[7].quantity == m.concrete.aggregate
              && w[8].quantity == m.concrete.cementBags
              && ConcreteMaterials(m.concrete.volume, NominalMix, cfg.cementBagKg) == Success(m.concrete)
    ensures r.Success? ==>
              && r.value.workItems[10].quantity == r.value.tilesCount as real
              && r.value.tilesCount == TileCount(res.totals.carpetArea, cfg.tileSizeMm)
  {
    var builtUp := res.totals.builtUpArea;
    var carpet := res.totals.carpetArea;
    var perimeter := res.totals.perimeter;
    var excavation := perimeter * 1.0 * 1.0;
    var footing := perimeter * 0.6 * 0.5;
    var slab := builtUp * 0.15;
    var pcc := builtUp * 0.10;
    var wallVolume := perimeter * res.wallThickness * WallHeight;
    var bricks := wallVolume * BricksPerCubicMetre;
    var wallArea := perimeter * WallHeight;
    var plaster := wallArea * (cfg.plasterThicknessMm / 1000.0);
    var tiles := TileCount(carpet, cfg.tileSizeMm);
    var concreteVolume := slab + footing + pcc;
    match ConcreteMaterials(concreteVolume, NominalMix, cfg.cementBagKg)
    case Failure(e) => Failure(e)
    case Success(concrete) =>
      var paint := wallArea / PaintCoverage;
      var steel := concreteVolume * SteelPerCubicMetre;
      var items := WorkList(Takeoff(excavation, pcc, footing, slab, steel, bricks, concrete.sand,
                                    concrete.aggregate, concrete.cementBags, plaster, tiles as real, paint),
                            cfg.cementBagKg);
      Success(MaterialsResult(items, concrete, plaster, tiles, bricks, paint))
  }

  /** With all totals zero, every work-item quantity is zero and no tile is
      counted, whatever the wall thickness and tile size. */
  lemma ZeroTotalsZeroItems(res: AggregateResult, cfg: Config)
    requires res.totals == ZeroTotals
    requires cfg.cementBagKg != 0.0
    ensures var r := EstimateMaterials(res, cfg);
            && r.Success?
            && r.value.tilesCount == 0
            && forall i :: 0 <= i < |r.value.workItems| ==> r.value.workItems[i].quantity == 0.0
  {
  }

  /** Bricks grow strictly with the wall thickness when there is a perimeter;
      the plaster, paint and concrete quantities do not depend on it at all. */
  lemma WallThicknessEffect(res: AggregateResult, thicker: real, cfg: Config)
    requires cfg.cementBagKg != 0.0
    requires res.totals.perimeter > 0.0 && thicker > res.wallThickness
    ensures var m1 := EstimateMaterials(res, cfg).value;
            var m2 := EstimateMaterials(res.(wallThickness := thicker), cfg).value;
            && m1.bricksCount < m2.bricksCount
            && m1.plasterVolume == m2.plasterVolume
            && m1.paintLiters == m2.paintLiters
            && m1.concrete == m2.concrete
  {
  }

  /** A closed 10 x 6 rectangle with the default wall thickness and constants:
      perimeter 32, area 60 and an inset of 9.6 x 5.6 give 32 m3 of excavation,
      6 m3 of PCC, 9 m3 of slab, 9600 bricks and 150 tiles of 600 mm. */
  lemma RectangleScenario()
    ensures var res := AggregateResult("meters", DefaultWallThickness, [], Totals(60.0, 53.76, 32.0));
            var r := EstimateMaterials(res, DefaultConfig);
            && r.Success?
            && r.value.workItems[0].quantity == 32.0
            && r.value.workItems[1].quantity == 6.0
            && r.value.workItems[3].quantity == 9.0
            && r.value.concrete.volume == 24.6
            && r.value.bricksCount == 9600.0
            && r.value.tilesCount == 150
  {
  }
}
