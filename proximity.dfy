/**
 * The location query shared by `HelpPointsService.findAll` and
 * `MarkersService.findAll`: an optional point with a radius, the store's
 * `$near` test as a parameter, and the `createdAt: -1` sort limited to one.
 */
module Proximity {
  import opened Common

  /** `findAll`'s location filter; `near(record, longitude, latitude, radius)` is the store's `$near` test. */
  datatype LocationParams = LocationParams(latitude: real, longitude: real, radius: Option<real>)

  /** `params.radius || 5000`: a missing or zero radius means 5 km. */
  function EffectiveRadius(p: LocationParams): (r: real)
    ensures p.radius.None? || p.radius == Some(0.0) ==> r == 5000.0
    ensures p.radius.Some? && p.radius.value != 0.0 ==> r == p.radius.value
  {
    if p.radius.Some? && p.radius.value != 0.0 then p.radius.value else 5000.0
  }

  /** The records the `$near` filter accepts, in collection order. */
  function NearOnes<T(!new)>(s: seq<T>, p: LocationParams, near: (T, real, real, real) -> bool): (r: seq<T>)
    ensures forall x :: x in r <==> x in s && near(x, p.longitude, p.latitude, EffectiveRadius(p))
  {
    if s == [] then []
    else (if near(s[0], p.longitude, p.latitude, EffectiveRadius(p)) then [s[0]] else []) + NearOnes(s[1..], p, near)
  }

  /** The newest record by `createdAt`, the first such in collection order on a tie. */
  function Newest<T(!new)>(s: seq<T>, createdAt: T -> int): (r: Option<T>)
    ensures r.None? <==> s == []
    ensures r.Some? ==> r.value in s && forall x :: x in s ==> createdAt(x) <= createdAt(r.value)
    decreases |s|
  {
    if s == [] then None
    else
      match Newest(s[1..], createdAt)
      case None => Some(s[0])
      case Some(h) =>
        assert forall x :: x in s ==> x == s[0] || x in s[1..];
        if createdAt(h) > createdAt(s[0]) then Some(h) else Some(s[0])
  }
}
