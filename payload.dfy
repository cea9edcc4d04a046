/**
 * The decoded JSON reading and normalizeData, which brings the shapes the
 * backend sends (canonical, flat GPS fields, wrapped under `data`) to one.
 */
module Payload {
  import opened Values

  /** A `gps` object; the dashboard reads `lat`/`latitude` and `lon`/`longitude`/`lng` from it. */
  datatype Gps = Gps(lat: Value, latitude: Value, lon: Value, longitude: Value, lng: Value)

  /**
   * A decoded JSON object with the fields the dashboard reads. `gps` and
   * `data` are objects when present; a null or absent one is `None`.
   */
  datatype Payload = Payload(
    idUsuario: Value, id_usuario: Value,
    frecuenciaCardiaca: Value, frecuencia_cardiaca: Value, spo2: Value,
    lat: Value, latitude: Value, lon: Value, longitude: Value, lng: Value,
    timestamp: Value,
    gps: Option<Gps>,
    data: Option<Payload>)

  /** `{}`: an object with none of the fields. */
  const EmptyPayload := Payload(
    Undefined, Undefined, Undefined, Undefined, Undefined,
    Undefined, Undefined, Undefined, Undefined, Undefined,
    Undefined, None, None)

  /** `{data: inner}`: one level of wrapping. */
  function Envelope(inner: Payload): Payload {
    EmptyPayload.(data := Some(inner))
  }

  /** `data.frecuenciaCardiaca !== undefined || data.spo2 !== undefined` */
  predicate HasReading(p: Payload) {
    p.frecuenciaCardiaca != Undefined || p.spo2 != Undefined
  }

  /** `data.lat || data.longitude || data.lon`: the flat fields that trigger GPS synthesis. */
  predicate HasFlatPosition(p: Payload) {
    p.lat.Truthy() || p.longitude.Truthy() || p.lon.Truthy()
  }

  /** `{lat: data.lat || data.latitude, lon: data.lon || data.longitude}` */
  function FlatGps(p: Payload): Gps {
    Gps(Or(p.lat, p.latitude), Undefined, Or(p.lon, p.longitude), Undefined, Undefined)
  }

  /**
   * A payload normalizeData returns unchanged: a reading whose GPS is already
   * an object or cannot be synthesised, or a payload with no reading and
   * nothing wrapped in it.
   */
  predicate Settled(p: Payload) {
    if HasReading(p) then p.gps.Some? || !HasFlatPosition(p) else p.data.None?
  }

  /**
   * normalizeData. A reading gets a `gps` object synthesised from its flat
   * fields when it has none; a payload with no reading but a wrapped `data`
   * is replaced by the normalisation of what it wraps, at any depth; anything
   * else comes back as it is. The result is always settled.
   */
  function Normalize(p: Payload): (r: Payload)
    ensures Settled(r)
    ensures HasReading(p) ==> r.(gps := p.gps) == p
    ensures HasReading(p) && p.gps.Some? ==> r == p
    ensures !HasReading(p) && p.data.None? ==> r == p
    ensures !HasReading(p) && p.data.Some? ==> r == Normalize(p.data.value)
  {
    if HasReading(p) then
      if p.gps.None? && HasFlatPosition(p) then p.(gps := Some(FlatGps(p))) else p
    else if p.data.Some? then
      Normalize(p.data.value)
    else
      p
  }

  /** A settled payload is a fixed point of Normalize. */
  lemma NormalizeSettled(p: Payload)
    requires Settled(p)
    ensures Normalize(p) == p
  {
  }

  /** normalizeData twice is normalizeData once (updateMetrics normalises what it is given again). */
  lemma NormalizeIdempotent(p: Payload)
    ensures Normalize(Normalize(p)) == Normalize(p)
  {
    NormalizeSettled(Normalize(p));
  }

  /**
   * A reading without a `gps` object but with a truthy flat position gets
   * `gps = {lat: lat || latitude, lon: lon || longitude}`, and nothing else changes.
   */
  lemma NormalizeSynthesizesGps(p: Payload)
    requires HasReading(p) && p.gps.None? && HasFlatPosition(p)
    ensures Normalize(p).gps == Some(Gps(Or(p.lat, p.latitude), Undefined, Or(p.lon, p.longitude), Undefined, Undefined))
    ensures Normalize(p).(gps := None) == p
  {
  }

  /** `n` levels of `{data: ...}` around `p`. */
  function Wrapped(p: Payload, n: nat): Payload {
    if n == 0 then p else Envelope(Wrapped(p, n - 1))
  }

  /**
   * Unwrapping is not limited to one level: however deeply a payload is
   * wrapped under `data`, it normalises as the payload itself does.
   */
  lemma {:induction false} NormalizeUnwrapsAnyDepth(p: Payload, n: nat)
    ensures Normalize(Wrapped(p, n)) == Normalize(p)
  {
    if n > 0 {
      NormalizeUnwrapsAnyDepth(p, n - 1);
    }
  }

  /** A map position. */
  datatype LatLng = LatLng(lat: real, lng: real)

  /** `gps.lat || gps.latitude` */
  function GpsLat(g: Gps): Value {
    Or(g.lat, g.latitude)
  }

  /** `gps.lon || gps.longitude || gps.lng` */
  function GpsLon(g: Gps): Value {
    Or(Or(g.lon, g.longitude), g.lng)
  }

  /**
   * The position a `gps` value gives to updateMap and updateLocation: none
   * when `gps` is falsy or either coordinate is falsy.
   */
  function Fix(gps: Option<Gps>): (f: Option<LatLng>)
    ensures f.Some? <==> gps.Some? && GpsLat(gps.value).Truthy() && GpsLon(gps.value).Truthy()
    ensures f.Some? ==> f.value.lat != 0.0 && f.value.lng != 0.0
    ensures f.Some? ==> Num(f.value.lat) in {gps.value.lat, gps.value.latitude}
    ensures f.Some? ==> Num(f.value.lng) in {gps.value.lon, gps.value.longitude, gps.value.lng}
  {
    if gps.Some? && GpsLat(gps.value).Truthy() && GpsLon(gps.value).Truthy() then
      Some(LatLng(GpsLat(gps.value).x, GpsLon(gps.value).x))
    else
      None
  }
}
