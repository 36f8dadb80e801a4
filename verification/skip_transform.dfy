/** `transformSkipData`: raw API skip records to display records, one to one
    and in order, with the VAT-inclusive price computed on the way. Prices are
    exact reals; `toFixed(2)` formatting is the parameter `money`. */
module SkipTransform {
  import opened Wrappers
  import opened Text

  /** A skip record as the API returns it (snake_case fields in JSON). */
  datatype RawSkip = RawSkip(
    id: int,
    size: int,
    hirePeriodDays: int,
    priceBeforeVat: real,
    vat: real,
    allowedOnRoad: bool,
    allowsHeavyWaste: bool,
    forbidden: seq<string>,
    transportCost: Option<real>,
    perTonneCost: Option<real>,
    postcode: string,
    area: string,
    createdAt: string,
    updatedAt: string)

  /** A skip record as the booking page displays it. */
  datatype DisplaySkip = DisplaySkip(
    id: int,
    name: string,
    price: string,
    capacity: string,
    size: int,
    hirePeriod: int,
    allowedOnRoad: bool,
    allowsHeavyWaste: bool,
    priceBeforeVat: real,
    priceAfterVat: real,
    vat: real,
    transportCost: Option<real>,
    perTonneCost: Option<real>,
    forbidden: seq<string>,
    postcode: string,
    area: string,
    createdAt: string,
    updatedAt: string)

  const NameSuffix: string := " YARD SKIP CONTAINER"
  const CapacitySuffix: string := " cubic yards"

  /** `p + p * v / 100`, which is the price scaled by `1 + v/100`. */
  function PriceAfterVat(priceBeforeVat: real, vat: real): (r: real)
    ensures r == priceBeforeVat * (1.0 + vat / 100.0)
    ensures vat == 0.0 ==> r == priceBeforeVat
    ensures priceBeforeVat >= 0.0 && vat >= 0.0 ==> r >= priceBeforeVat
    ensures priceBeforeVat > 0.0 && vat > 0.0 ==> r > priceBeforeVat
  {
    priceBeforeVat + priceBeforeVat * vat / 100.0
  }

  function SkipName(size: int): string {
    IntToString(size) + NameSuffix
  }

  function Capacity(size: int): string {
    IntToString(size) + CapacitySuffix
  }

  /** The display record for one raw record. */
  function TransformSkip(raw: RawSkip, money: real -> string): (d: DisplaySkip)
    ensures d.price == "£" + money(d.priceAfterVat)
    ensures d.priceAfterVat == raw.priceBeforeVat * (1.0 + raw.vat / 100.0)
  {
    var after := PriceAfterVat(raw.priceBeforeVat, raw.vat);
    DisplaySkip(
      id := raw.id,
      name := SkipName(raw.size),
      price := "£" + money(after),
      capacity := Capacity(raw.size),
      size := raw.size,
      hirePeriod := raw.hirePeriodDays,
      allowedOnRoad := raw.allowedOnRoad,
      allowsHeavyWaste := raw.allowsHeavyWaste,
      priceBeforeVat := raw.priceBeforeVat,
      priceAfterVat := after,
      vat := raw.vat,
      transportCost := raw.transportCost,
      perTonneCost := raw.perTonneCost,
      forbidden := raw.forbidden,
      postcode := raw.postcode,
      area := raw.area,
      createdAt := raw.createdAt,
      updatedAt := raw.updatedAt)
  }

  /** The raw record a display record was built from: every pass-through field
      renamed back. */
  function Untransform(d: DisplaySkip): RawSkip {
    RawSkip(
      id := d.id,
      size := d.size,
      hirePeriodDays := d.hirePeriod,
      priceBeforeVat := d.priceBeforeVat,
      vat := d.vat,
      allowedOnRoad := d.allowedOnRoad,
      allowsHeavyWaste := d.allowsHeavyWaste,
      forbidden := d.forbidden,
      transportCost := d.transportCost,
      perTonneCost := d.perTonneCost,
      postcode := d.postcode,
      area := d.area,
      createdAt := d.createdAt,
      updatedAt := d.updatedAt)
  }

  /** No raw field is lost: the display record determines the raw record. */
  lemma UntransformSkip(raw: RawSkip, money: real -> string)
    ensures Untransform(TransformSkip(raw, money)) == raw
  {
  }

  /** The size as it reads back out of a display name or capacity string. */
  function SizeFromLabel(s: string, suffix: string): Option<int> {
    if |s| < |suffix| || s[|s| - |suffix|..] != suffix then None
    else ParseInt(s[..|s| - |suffix|])
  }

  /** The name is exactly the size followed by " YARD SKIP CONTAINER" and the
      capacity exactly the size followed by " cubic yards": both read back to
      the size, and both agree with the size field. */
  lemma LabelsEncodeSize(raw: RawSkip, money: real -> string)
    ensures var d := TransformSkip(raw, money);
      && SizeFromLabel(d.name, NameSuffix) == Some(raw.size)
      && SizeFromLabel(d.capacity, CapacitySuffix) == Some(raw.size)
      && SizeFromLabel(d.name, NameSuffix) == Some(d.size)
  {
    var d := TransformSkip(raw, money);
    var digits := IntToString(raw.size);
    assert d.name[..|d.name| - |NameSuffix|] == digits;
    assert d.name[|d.name| - |NameSuffix|..] == NameSuffix;
    assert d.capacity[..|d.capacity| - |CapacitySuffix|] == digits;
    assert d.capacity[|d.capacity| - |CapacitySuffix|..] == CapacitySuffix;
    ParseIntToString(raw.size);
  }

  /** `apiSkips.map(...)`: one display record per raw record, in order. */
  function Transform(raws: seq<RawSkip>, money: real -> string): (ds: seq<DisplaySkip>)
    ensures |ds| == |raws|
    ensures forall i :: 0 <= i < |raws| ==> ds[i] == TransformSkip(raws[i], money)
  {
    if |raws| == 0 then [] else [TransformSkip(raws[0], money)] + Transform(raws[1..], money)
  }

  /** Transforming a concatenation transforms the parts separately: the
      transform never looks at a record's neighbours. */
  lemma {:induction false} TransformAppend(a: seq<RawSkip>, b: seq<RawSkip>, money: real -> string)
    ensures Transform(a + b, money) == Transform(a, money) + Transform(b, money)
    decreases |a|
  {
    if |a| > 0 {
      assert (a + b)[1..] == a[1..] + b;
      TransformAppend(a[1..], b, money);
    } else {
      assert a + b == b;
    }
  }

  /** The transform is inverted record by record, so it is injective on lists. */
  lemma UntransformAll(raws: seq<RawSkip>, money: real -> string)
    ensures var ds := Transform(raws, money);
      seq(|ds|, i requires 0 <= i < |ds| => Untransform(ds[i])) == raws
  {
  }

  lemma TransformInjective(a: seq<RawSkip>, b: seq<RawSkip>, money: real -> string)
    requires Transform(a, money) == Transform(b, money)
    ensures a == b
  {
    UntransformAll(a, money);
    UntransformAll(b, money);
  }

  /** The worked example: an 8 yard skip at 200 before 20% VAT costs 240. */
  lemma EightYardExample(money: real -> string)
    ensures var raw := RawSkip(1, 8, 14, 200.0, 20.0, true, false, [], None, None,
                               "NR32", "Lowestoft", "", "");
      var d := TransformSkip(raw, money);
      && d.id == 1 && d.priceAfterVat == 240.0 && d.priceBeforeVat == 200.0
      && d.name == "8 YARD SKIP CONTAINER" && d.capacity == "8 cubic yards"
      && d.hirePeriod == 14 && d.allowedOnRoad
  {
    assert DigitChar(8) == '8';
    assert NatToString(8) == "8";
    assert IntToString(8) == "8";
    assert SkipName(8) == "8 YARD SKIP CONTAINER";
    assert Capacity(8) == "8 cubic yards";
    assert PriceAfterVat(200.0, 20.0) == 240.0;
  }
}
