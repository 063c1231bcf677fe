/**
 * The current-weather card: a skeleton while no data is present, otherwise a
 * card whose labels are derived from the current-weather snapshot.  The wind
 * direction is computed over exact reals; the source computes in IEEE doubles,
 * which agree with the reals on the sector boundaries (multiples of 22.5).
 */
module WeatherCard {

  import opened Wrappers
  import opened Labels

  /** One entry of the current condition list. */
  datatype CurrentCondition = CurrentCondition(main: string, description: string)

  datatype Coord = Coord(lat: real, lon: real)

  /** The current-weather snapshot as the provider returns it. */
  datatype WeatherData = WeatherData(
    coord: Coord,
    name: string,
    temp: real,
    feelsLike: real,
    tempMin: real,
    tempMax: real,
    humidity: real,
    weather: seq<CurrentCondition>,
    windSpeed: real,
    windDeg: real,
    country: string,
    sunrise: int,
    sunset: int,
    visibility: real)

  /** The eight compass points, clockwise from north. */
  const Directions: seq<string> := ["N", "NE", "E", "SE", "S", "SW", "W", "NW"]

  /**
   * JavaScript's `a % 8` on integers: the remainder of a division truncated
   * toward zero, so it takes the sign of the dividend.  (JavaScript gives `-0`
   * where this gives 0; as an array index the two are the same key "0".)
   */
  function JsRem8(a: int): (r: int)
    ensures -8 < r < 8
    ensures a >= 0 ==> r >= 0
    ensures a <= 0 ==> r <= 0
    ensures (a - r) % 8 == 0
  {
    if a >= 0 then a % 8 else -((-a) % 8)
  }

  /**
   * `getWindDirection`: the sector index floor((deg + 22.5) / 45) % 8 looked up
   * in the eight compass points; a negative index finds nothing (`undefined`).
   */
  function WindDirection(deg: real): (r: Option<string>)
    ensures r.Some? ==> r.value in Directions
    ensures deg >= -22.5 ==> r.Some?
  {
    var index := JsRem8(((deg + 22.5) / 45.0).Floor);
    if index >= 0 then Some(Directions[index]) else None
  }

  /**
   * Sector rule: the half-open sector [45k - 22.5, 45k + 22.5) is named by point
   * k, and the sector from 337.5 up to 360 wraps round to north.
   */
  lemma WindSector(deg: real, k: int)
    requires 0 <= k <= 8
    requires 45.0 * k as real - 22.5 <= deg < 45.0 * k as real + 22.5
    ensures WindDirection(deg) == Some(Directions[k % 8])
  {
    var x := (deg + 22.5) / 45.0;
    assert k as real <= x < k as real + 1.0;
    assert x.Floor == k;
  }

  /** Sector boundaries belong to the clockwise sector. */
  lemma WindBoundaries()
    ensures WindDirection(0.0) == Some("N")
    ensures WindDirection(22.5) == Some("NE")
    ensures WindDirection(67.5) == Some("E")
    ensures WindDirection(337.5) == Some("N")
    ensures WindDirection(359.9) == Some("N")
  {
    WindSector(0.0, 0);
    WindSector(22.5, 1);
    WindSector(67.5, 2);
    WindSector(337.5, 8);
    WindSector(359.9, 8);
  }

  /** A full turn does not change the label, for every angle the lookup is defined on. */
  lemma WindPeriodic(deg: real)
    requires deg >= -22.5
    ensures WindDirection(deg + 360.0) == WindDirection(deg)
  {
    var q := ((deg + 22.5) / 45.0).Floor;
    var x := (deg + 360.0 + 22.5) / 45.0;
    assert x == (deg + 22.5) / 45.0 + 8.0;
    assert x.Floor == q + 8;
    assert (q + 8) % 8 == q % 8;
  }

  /**
   * Below -22.5 the truncating remainder is negative and the lookup yields
   * `undefined`, except when the sector index is a multiple of 8: then the
   * remainder is `-0`, which indexes the first entry, north.
   */
  lemma WindBelowRange(deg: real)
    requires deg < -22.5
    ensures WindDirection(deg) ==
      if ((deg + 22.5) / 45.0).Floor % 8 == 0 then Some("N") else None
  {
    var q := ((deg + 22.5) / 45.0).Floor;
    assert q < 0;
    var r := JsRem8(q);
    if q % 8 == 0 {
      assert (-q) % 8 == 0;
    } else {
      assert (-q) % 8 != 0;
    }
  }

  /** West of north by 45 degrees finds nothing, a full turn below north finds north. */
  lemma WindNegativeExamples()
    ensures WindDirection(-45.0) == None
    ensures WindDirection(-360.0) == Some("N")
  {
    WindBelowRange(-45.0);
    WindBelowRange(-360.0);
    assert ((-45.0 + 22.5) / 45.0).Floor == -1;
    assert ((-360.0 + 22.5) / 45.0).Floor == -8;
  }

  /** What the card shows: the loading skeleton, the card, or a thrown TypeError. */
  datatype CardView =
    | Skeleton
    | Card(
        city: string,
        country: string,
        icon: Icon,
        description: string,
        unitSymbol: string,
        speedUnit: string,
        direction: Option<string>,
        sunrise: int,
        sunset: int)
    | Thrown

  /**
   * `WeatherCard`: without data, the skeleton and nothing read from data;
   * reading `weather[0]` of an empty condition list throws; otherwise the
   * card's labels come from the snapshot and the unit.
   */
  function Render(data: Option<WeatherData>, unit: TemperatureUnit): (v: CardView)
    ensures v.Skeleton? <==> data.None?
    ensures v.Thrown? <==> data.Some? && data.value.weather == []
    ensures v.Card? ==>
      && v.city == data.value.name
      && v.country == data.value.country
      && v.icon == WeatherIcon(data.value.weather[0].main)
      && v.description == data.value.weather[0].description
      && v.unitSymbol == UnitSymbol(unit)
      && v.speedUnit == SpeedUnit(unit)
      && v.direction == WindDirection(data.value.windDeg)
      && v.sunrise == data.value.sunrise
      && v.sunset == data.value.sunset
  {
    match data
    case None => Skeleton
    case Some(d) =>
      if d.weather == [] then Thrown
      else
        Card(d.name, d.country, WeatherIcon(d.weather[0].main), d.weather[0].description,
             UnitSymbol(unit), SpeedUnit(unit), WindDirection(d.windDeg), d.sunrise, d.sunset)
  }
}
