/**
 * The filter criteria shared by every management page: a categorical choice
 * with the `ALL` sentinel, the period buttons (`PeriodType`) and the region
 * selector (`RegionalType`) with its fixed code-to-province table.
 */
module Criteria {
  import opened Wrappers

  /** A select box over the values of a field, where `ALL` lets everything through. */
  datatype Choice<T(==)> = Any | Only(value: T) {
    predicate Admits(v: T) {
      Any? || value == v
    }
  }

  /** `ViewType`: the three layouts a list page can render. */
  datatype ViewType = Grid | Table | Card

  /** `PeriodType`: '1D' | '7D' | '30D' | '90D' | '1Y' | 'ALL'. */
  datatype Period = D1 | D7 | D30 | D90 | Y1 | AllTime

  const MsPerDay: int := 24 * 60 * 60 * 1000

  /** The `periodDays` table. */
  function Days(p: Period): nat
    requires !p.AllTime?
  {
    match p
    case D1 => 1
    case D7 => 7
    case D30 => 30
    case D90 => 90
    case Y1 => 365
  }

  /** How wide a period is: the buttons from left to right. */
  function Breadth(p: Period): nat {
    match p
    case D1 => 0
    case D7 => 1
    case D30 => 2
    case D90 => 3
    case Y1 => 4
    case AllTime => 5
  }

  /** `filterByPeriod`: `ALL` keeps everything; otherwise the item is kept when its
      date is at or after `now - days * 86 400 000` ms. An unparseable date
      (None, JavaScript's Invalid Date) fails every comparison. */
  predicate InPeriod(p: Period, now: int, t: Option<int>)
    ensures !p.AllTime? && t.None? ==> !InPeriod(p, now, t)
    ensures InPeriod(p, now, t) && !p.AllTime? ==> now - t.value <= Days(p) * 86_400_000
  {
    p.AllTime? || (t.Some? && t.value >= now - Days(p) * MsPerDay)
  }

  /** A dated item is in a bounded period exactly when it is at most that many days old. */
  lemma InPeriodMeansAge(p: Period, now: int, t: Option<int>)
    ensures p.AllTime? ==> InPeriod(p, now, t)
    ensures !p.AllTime? && t.None? ==> !InPeriod(p, now, t)
    ensures !p.AllTime? && t.Some? ==> (InPeriod(p, now, t) <==> now - t.value <= Days(p) * 86_400_000)
  {
  }

  /** Widening the period (1D, 7D, 30D, 90D, 1Y, ALL) never drops an item. */
  lemma WiderPeriodKeeps(p: Period, q: Period, now: int, t: Option<int>)
    requires Breadth(p) <= Breadth(q)
    requires InPeriod(p, now, t)
    ensures InPeriod(q, now, t)
  {
    if !q.AllTime? {
      assert Days(p) <= Days(q);
    }
  }

  /** The eight region codes of `RegionalType` other than 'ALL'. */
  datatype RegionCode =
    | DkiJakarta | JawaTimur | SumateraUtara | JawaTengah
    | KalimantanTimur | KalimantanBarat | SulawesiSelatan | KepulauanRiau

  /** `RegionalType`. */
  datatype Regional = AllRegions | Region(code: RegionCode)

  /** The `provinceMap` table. */
  function ProvinceName(c: RegionCode): string {
    match c
    case DkiJakarta => "DKI Jakarta"
    case JawaTimur => "Jawa Timur"
    case SumateraUtara => "Sumatera Utara"
    case JawaTengah => "Jawa Tengah"
    case KalimantanTimur => "Kalimantan Timur"
    case KalimantanBarat => "Kalimantan Barat"
    case SulawesiSelatan => "Sulawesi Selatan"
    case KepulauanRiau => "Kepulauan Riau"
  }

  /** `filterByRegional`: `ALL` keeps everything; otherwise the province must be
      exactly the mapped name. */
  predicate InRegion(r: Regional, province: string)
    ensures r.AllRegions? ==> InRegion(r, province)
    ensures r.Region? && InRegion(r, province) ==> KnownProvince(province)
  {
    r.AllRegions? || province == ProvinceName(r.code)
  }

  /** The province is one of the eight the table names. */
  predicate KnownProvince(province: string) {
    exists c: RegionCode :: ProvinceName(c) == province
  }

  /** No two codes name the same province, so a named province is selected by
      exactly one code (and by `ALL`). */
  lemma ProvinceNameInjective(c: RegionCode, d: RegionCode)
    ensures ProvinceName(c) == ProvinceName(d) <==> c == d
  {
  }

  /** A province outside the table is matched only by `ALL`. */
  lemma UnknownProvinceOnlyAll(r: Regional, province: string)
    requires !KnownProvince(province)
    ensures InRegion(r, province) <==> r.AllRegions?
  {
    if r.Region? {
      assert ProvinceName(r.code) != province;
    }
  }

  /** A chosen region keeps only items of its own province. */
  lemma RegionSelectsProvince(c: RegionCode, province: string)
    ensures InRegion(Region(c), province) <==> province == ProvinceName(c)
  {
  }
}
