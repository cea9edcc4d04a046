/**
 * The HealthConnectDashboard object: its connection fields, its map marker
 * fields and what its cards, banner and historical table show, with the
 * handlers that update them in place.
 */
module Dashboard {
  import opened Values
  import opened Bands
  import opened Payload
  import opened History
  import opened Connection
  import opened MapMarker
  import opened Charts

  /** A metric card: the value shown (`value || '--'`) and its classification. */
  datatype Card = Card(value: Cell, classified: Classified)

  /** The location card: the coordinates shown and whether its status reads "Ubicado". */
  datatype LocationView = LocationView(lat: Cell, lon: Cell, located: bool)

  /**
   * updateLocation's view of a `gps` value: latitude from `lat || latitude`,
   * longitude from `lon || longitude || lng`, located exactly when both are
   * truthy, which is exactly when updateMap moves the marker.
   */
  function LocationOf(gps: Option<Gps>): (v: LocationView)
    ensures v.located <==> Fix(gps).Some?
    ensures v.located ==> v.lat == Shown(Fix(gps).value.lat) && v.lon == Shown(Fix(gps).value.lng)
    ensures gps.None? ==> v == LocationView(Dash, Dash, false)
    ensures gps.Some? ==> v.lat == OrDash(GpsLat(gps.value)) && v.lon == OrDash(GpsLon(gps.value))
  {
    var lat := if gps.Some? then GpsLat(gps.value) else Null;
    var lon := if gps.Some? then GpsLon(gps.value) else Null;
    LocationView(OrDash(lat), OrDash(lon), lat.Truthy() && lon.Truthy())
  }

  /** What the page shows besides the map and the connection badge; `None` is the page's own markup. */
  datatype Panels = Panels(
    heartRate: Option<Card>, spo2: Option<Card>, temperature: Option<Card>,
    location: Option<LocationView>, banner: Option<Alert>, table: TableView)

  /** The banner after a classification: its alert when it raised one, else the banner as it was. */
  function BannerAfter(c: Classified, banner: Option<Alert>): Option<Alert>
  {
    if c.alert.Some? then c.alert else banner
  }

  /**
   * The dashboard's updateChart on a chart's arrays: a null or undefined
   * value leaves them as they are; any other value (0 included) is pushed
   * with the 20-point window.
   */
  function ChartedIfPresent(w: Series, value: Value, timeLabel: string): (r: Series)
    ensures !value.Present() ==> r == w
    ensures value.Present() && Bounded(w) ==>
      && Bounded(r) && r.data != [] && r.data[|r.data| - 1] == value && r.labels[|r.labels| - 1] == timeLabel
      && (|r.data| == |w.data| + 1 || (|w.data| == Capacity && |r.data| == Capacity))
      && r.labels[..|r.labels| - 1] in {w.labels, Shift(w.labels)}
      && r.data[..|r.data| - 1] in {w.data, Shift(w.data)}
  {
    if !value.Present() then w
    else if Bounded(w) then
      PushedKeepsOlderPoints(w, timeLabel, value);
      Pushed(w, timeLabel, value)
    else Pushed(w, timeLabel, value)
  }

  /**
   * Only a critical reading raises the banner, with the metric and the
   * reading in its message; any other reading leaves the banner as it was.
   */
  lemma AlertOnlyWhenCritical(v: Value, banner: Option<Alert>)
    ensures ClassifyHeartRate(v).band == Critical <==>
      v.Truthy() && v.x > 130.0 && BannerAfter(ClassifyHeartRate(v), banner) == Some(Alert(HeartRate, v.x))
    ensures ClassifySpo2(v).band == Critical <==>
      v.Truthy() && v.x < 93.0 && BannerAfter(ClassifySpo2(v), banner) == Some(Alert(Spo2, v.x))
    ensures ClassifyTemperature(v).band == Critical <==>
      v.Truthy() && v.x > 38.0 && BannerAfter(ClassifyTemperature(v), banner) == Some(Alert(Temperature, v.x))
    ensures ClassifyHeartRate(v).band != Critical ==> BannerAfter(ClassifyHeartRate(v), banner) == banner
    ensures ClassifySpo2(v).band != Critical ==> BannerAfter(ClassifySpo2(v), banner) == banner
    ensures ClassifyTemperature(v).band != Critical ==> BannerAfter(ClassifyTemperature(v), banner) == banner
  {
  }

  class HealthConnectDashboard {
    // Connection fields.
    var status: Status
    var isConnected: bool
    var reconnectAttempts: nat
    var pendingReconnects: nat
    var reconnectsScheduled: nat

    // Map fields.
    var marker: Option<LatLng>
    var mapCenter: LatLng
    var mapZoom: int
    var mapInitialized: bool
    var popupOpens: nat

    // What the page shows.
    var heartRateCard: Option<Card>
    var spo2Card: Option<Card>
    var temperatureCard: Option<Card>
    var locationCard: Option<LocationView>
    var banner: Option<Alert>
    var table: TableView

    /** `window.heartRateChart`, `window.spo2Chart`, `window.temperatureChart`. */
    const heartRateChart: Chart?
    const spo2Chart: Chart?
    const temperatureChart: Chart?

    function Link(): Conn
      reads this
    {
      Conn(status, isConnected, reconnectAttempts, pendingReconnects, reconnectsScheduled)
    }

    function MapView(): MapState
      reads this
    {
      MapState(marker, mapCenter, mapZoom, mapInitialized, popupOpens)
    }

    function View(): Panels
      reads this
    {
      Panels(heartRateCard, spo2Card, temperatureCard, locationCard, banner, table)
    }

    ghost predicate ChartsValid()
      reads heartRateChart, spo2Chart, temperatureChart
    {
      && (heartRateChart != null ==> heartRateChart.Valid())
      && (spo2Chart != null ==> spo2Chart.Valid())
      && (temperatureChart != null ==> temperatureChart.Valid())
    }

    ghost predicate Valid()
      reads this, heartRateChart, spo2Chart, temperatureChart
    {
      ConnInv(Link()) && MapInv(MapView()) && ChartsValid()
    }

    /**
     * The constructor and init: status `'connecting'`, then setupWebSocket,
     * then initMap. The historical data and the last record arrive later,
     * through LoadHistoricalData and FetchLastRecord.
     */
    constructor (heartRateChart: Chart?, spo2Chart: Chart?, temperatureChart: Chart?, socketCreated: bool)
      requires heartRateChart != null ==> heartRateChart.Valid()
      requires spo2Chart != null ==> spo2Chart.Valid()
      requires temperatureChart != null ==> temperatureChart.Valid()
      ensures Valid()
      ensures this.heartRateChart == heartRateChart && this.spo2Chart == spo2Chart
      ensures this.temperatureChart == temperatureChart
      ensures Link() == Setup(Conn(Connecting, false, 0, 0, 0), socketCreated)
      ensures MapView() == InitMap()
      ensures View() == Panels(None, None, None, None, None, InitialMarkup)
    {
      this.heartRateChart := heartRateChart;
      this.spo2Chart := spo2Chart;
      this.temperatureChart := temperatureChart;
      status := if socketCreated then Connecting else Disconnected;
      isConnected := false;
      reconnectAttempts := 0;
      pendingReconnects := 0;
      reconnectsScheduled := 0;
      marker := Some(InitialCenter);
      mapCenter := InitialCenter;
      mapZoom := InitialZoom;
      mapInitialized := false;
      popupOpens := 0;
      heartRateCard := None;
      spo2Card := None;
      temperatureCard := None;
      locationCard := None;
      banner := None;
      table := InitialMarkup;
    }

    /** updateConnectionStatus: the status shown, and `isConnected` exactly when it is `'connected'`. */
    method UpdateConnectionStatus(s: Status)
      requires Valid()
      modifies this
      ensures Valid()
      ensures Link() == SetStatus(old(Link()), s)
      ensures MapView() == old(MapView()) && View() == old(View())
    {
      status := s;
      isConnected := s == Connected;
    }

    /** setupWebSocket: `'connecting'`, or `'disconnected'` when the socket constructor throws. */
    method SetupWebSocket(created: bool)
      requires Valid()
      modifies this
      ensures Valid()
      ensures Link() == Setup(old(Link()), created)
      ensures MapView() == old(MapView()) && View() == old(View())
    {
      UpdateConnectionStatus(Connecting);
      if !created {
        UpdateConnectionStatus(Disconnected);
      }
    }

    /** onopen: connected, and the attempt counter back to 0. */
    method OnOpen()
      requires Valid()
      modifies this
      ensures Valid()
      ensures Link() == Opened(old(Link()))
      ensures MapView() == old(MapView()) && View() == old(View())
    {
      UpdateConnectionStatus(Connected);
      reconnectAttempts := 0;
    }

    /** reconnect: one more attempt and one timer while below 10 attempts; otherwise `'disconnected'`. */
    method Reconnect()
      requires Valid()
      modifies this
      ensures Valid()
      ensures Link() == Connection.Reconnect(old(Link()))
      ensures MapView() == old(MapView()) && View() == old(View())
    {
      if reconnectAttempts < MaxReconnectAttempts {
        reconnectAttempts := reconnectAttempts + 1;
        UpdateConnectionStatus(Connecting);
        pendingReconnects := pendingReconnects + 1;
        reconnectsScheduled := reconnectsScheduled + 1;
      } else {
        UpdateConnectionStatus(Disconnected);
      }
    }

    /** onclose: `'disconnected'`, then reconnect. */
    method OnClose()
      requires Valid()
      modifies this
      ensures Valid()
      ensures Link() == Closed(old(Link()))
      ensures MapView() == old(MapView()) && View() == old(View())
    {
      UpdateConnectionStatus(Disconnected);
      Reconnect();
    }

    /** onerror: `'disconnected'` only; no reconnection is scheduled. */
    method OnError()
      requires Valid()
      modifies this
      ensures Valid()
      ensures Link() == Errored(old(Link()))
      ensures MapView() == old(MapView()) && View() == old(View())
    {
      UpdateConnectionStatus(Disconnected);
    }

    /** A scheduled reconnect timer fires and runs setupWebSocket. */
    method ReconnectTimerFires(created: bool)
      requires Valid()
      modifies this
      ensures Valid()
      ensures Link() == TimerFired(old(Link()), created)
      ensures MapView() == old(MapView()) && View() == old(View())
    {
      if pendingReconnects > 0 {
        pendingReconnects := pendingReconnects - 1;
        SetupWebSocket(created);
      }
    }

    /** showAlert: the banner shows the alert (its 5-second auto-hide timer is not modelled). */
    method ShowAlert(alert: Alert)
      requires Valid()
      modifies this
      ensures Valid()
      ensures View() == old(View()).(banner := Some(alert))
      ensures Link() == old(Link()) && MapView() == old(MapView())
    {
      banner := Some(alert);
    }

    /** closeAlert: the banner is hidden. */
    method CloseAlert()
      requires Valid()
      modifies this
      ensures Valid()
      ensures View() == old(View()).(banner := None)
      ensures Link() == old(Link()) && MapView() == old(MapView())
    {
      banner := None;
    }

    /** updateChart: a missing chart, or a null or undefined value, changes nothing. */
    method UpdateChart(chart: Chart?, value: Value, timeLabel: string)
      requires chart != null ==> chart.Valid()
      modifies chart
      ensures chart != null ==> chart.Valid() && chart.Window() == ChartedIfPresent(old(chart.Window()), value, timeLabel)
      ensures chart != null ==>
        |chart.datasets| == old(|chart.datasets|) && chart.Others() == old(chart.Others())
    {
      if chart != null && value.Present() {
        chart.Push(timeLabel, value);
      }
    }

    /** Shows a classification on a card and raises its alert, if any. */
    method ShowClassified(c: Classified)
      requires Valid()
      modifies this
      ensures Valid()
      ensures View() == old(View()).(banner := BannerAfter(c, old(banner)))
      ensures Link() == old(Link()) && MapView() == old(MapView())
    {
      if c.alert.Some? {
        ShowAlert(c.alert.value);
      }
    }

    /**
     * updateHeartRate: the card shows `bpm || '--'` and the heart-rate band,
     * a critical reading raises its alert, and the value goes to the heart-rate chart.
     */
    method UpdateHeartRate(bpm: Value, timeLabel: string)
      requires Valid()
      modifies this, heartRateChart
      ensures Valid()
      ensures View() == old(View()).(heartRate := Some(Card(OrDash(bpm), ClassifyHeartRate(bpm))),
                                     banner := BannerAfter(ClassifyHeartRate(bpm), old(banner)))
      ensures Link() == old(Link()) && MapView() == old(MapView())
      ensures heartRateChart != null ==>
        heartRateChart.Window() == ChartedIfPresent(old(heartRateChart.Window()), bpm, timeLabel)
      ensures heartRateChart != null ==>
        |heartRateChart.datasets| == old(|heartRateChart.datasets|) && heartRateChart.Others() == old(heartRateChart.Others())
    {
      var c := ClassifyHeartRate(bpm);
      ShowClassified(c);
      heartRateCard := Some(Card(OrDash(bpm), c));
      UpdateChart(heartRateChart, bpm, timeLabel);
    }

    /** updateSpo2: as updateHeartRate, with the SpO2 bands and chart. */
    method UpdateSpo2(spo2: Value, timeLabel: string)
      requires Valid()
      modifies this, spo2Chart
      ensures Valid()
      ensures View() == old(View()).(spo2 := Some(Card(OrDash(spo2), ClassifySpo2(spo2))),
                                     banner := BannerAfter(ClassifySpo2(spo2), old(banner)))
      ensures Link() == old(Link()) && MapView() == old(MapView())
      ensures spo2Chart != null ==>
        spo2Chart.Window() == ChartedIfPresent(old(spo2Chart.Window()), spo2, timeLabel)
      ensures spo2Chart != null ==>
        |spo2Chart.datasets| == old(|spo2Chart.datasets|) && spo2Chart.Others() == old(spo2Chart.Others())
    {
      var c := ClassifySpo2(spo2);
      ShowClassified(c);
      spo2Card := Some(Card(OrDash(spo2), c));
      UpdateChart(spo2Chart, spo2, timeLabel);
    }

    /** updateTemperature: as updateHeartRate, with the temperature bands and chart. */
    method UpdateTemperature(temp: Value, timeLabel: string)
      requires Valid()
      modifies this, temperatureChart
      ensures Valid()
      ensures View() == old(View()).(temperature := Some(Card(OrDash(temp), ClassifyTemperature(temp))),
                                     banner := BannerAfter(ClassifyTemperature(temp), old(banner)))
      ensures Link() == old(Link()) && MapView() == old(MapView())
      ensures temperatureChart != null ==>
        temperatureChart.Window() == ChartedIfPresent(old(temperatureChart.Window()), temp, timeLabel)
      ensures temperatureChart != null ==>
        |temperatureChart.datasets| == old(|temperatureChart.datasets|) && temperatureChart.Others() == old(temperatureChart.Others())
    {
      var c := ClassifyTemperature(temp);
      ShowClassified(c);
      temperatureCard := Some(Card(OrDash(temp), c));
      UpdateChart(temperatureChart, temp, timeLabel);
    }

    /** updateLocation: the location card shows the coordinates of `gps`. */
    method UpdateLocation(gps: Option<Gps>)
      requires Valid()
      modifies this
      ensures Valid()
      ensures View() == old(View()).(location := Some(LocationOf(gps)))
      ensures Link() == old(Link()) && MapView() == old(MapView())
    {
      locationCard := Some(LocationOf(gps));
    }

    /**
     * updateMap: without a valid fix nothing changes; otherwise the marker
     * moves to it (or is created there) and the popup opens on the first fix only.
     */
    method UpdateMap(gps: Option<Gps>)
      requires Valid()
      modifies this
      ensures Valid()
      ensures MapView() == MapMarker.UpdateMap(old(MapView()), gps)
      ensures Link() == old(Link()) && View() == old(View())
    {
      var fix := Fix(gps);
      if fix.None? {
        return;
      }
      var pos := fix.value;
      // A marker that does not exist yet is created, with the view set at zoom 15.
      mapZoom := if marker.Some? then mapZoom else FirstFixZoom;
      marker := Some(pos);
      mapCenter := pos;
      if !mapInitialized {
        popupOpens := popupOpens + 1;
        mapInitialized := true;
      }
    }

    /**
     * updateMetrics: normalise, then the heart-rate card and chart, the
     * location card and the map, all from the normalised reading.
     */
    method UpdateMetrics(data: Payload, timeLabel: string)
      requires Valid()
      modifies this, heartRateChart
      ensures Valid()
      ensures View() == old(View()).(
        heartRate := Some(Card(OrDash(Normalize(data).frecuenciaCardiaca), ClassifyHeartRate(Normalize(data).frecuenciaCardiaca))),
        banner := BannerAfter(ClassifyHeartRate(Normalize(data).frecuenciaCardiaca), old(banner)),
        location := Some(LocationOf(Normalize(data).gps)))
      ensures MapView() == MapMarker.UpdateMap(old(MapView()), Normalize(data).gps)
      ensures Link() == old(Link())
      ensures heartRateChart != null ==>
        heartRateChart.Window() == ChartedIfPresent(old(heartRateChart.Window()), Normalize(data).frecuenciaCardiaca, timeLabel)
      ensures heartRateChart != null ==>
        |heartRateChart.datasets| == old(|heartRateChart.datasets|) && heartRateChart.Others() == old(heartRateChart.Others())
    {
      var normalized := Normalize(data);
      UpdateHeartRate(normalized.frecuenciaCardiaca, timeLabel);
      UpdateLocation(normalized.gps);
      UpdateMap(normalized.gps);
    }

    /**
     * onmessage: a frame that does not parse changes nothing; otherwise the
     * payload is normalised and handed to updateMetrics (which normalises it
     * again) and to updateMap (which updateMetrics has already called). Both
     * repetitions are harmless: the result is that of one normalisation and
     * one map update.
     */
    method OnMessage(frame: Option<Payload>, timeLabel: string)
      requires Valid()
      modifies this, heartRateChart
      ensures Valid()
      ensures Link() == old(Link())
      ensures frame.None? ==> View() == old(View()) && MapView() == old(MapView())
      ensures frame.None? && heartRateChart != null ==> heartRateChart.Window() == old(heartRateChart.Window())
      ensures frame.Some? ==> View() == old(View()).(
        heartRate := Some(Card(OrDash(Normalize(frame.value).frecuenciaCardiaca), ClassifyHeartRate(Normalize(frame.value).frecuenciaCardiaca))),
        banner := BannerAfter(ClassifyHeartRate(Normalize(frame.value).frecuenciaCardiaca), old(banner)),
        location := Some(LocationOf(Normalize(frame.value).gps)))
      ensures frame.Some? ==> MapView() == MapMarker.UpdateMap(old(MapView()), Normalize(frame.value).gps)
      ensures frame.Some? && heartRateChart != null ==>
        heartRateChart.Window() == ChartedIfPresent(old(heartRateChart.Window()), Normalize(frame.value).frecuenciaCardiaca, timeLabel)
      ensures frame.Some? && heartRateChart != null ==>
        |heartRateChart.datasets| == old(|heartRateChart.datasets|) && heartRateChart.Others() == old(heartRateChart.Others())
      ensures frame.None? && heartRateChart != null ==> unchanged(heartRateChart)
    {
      if frame.None? {
        return;
      }
      var normalized := Normalize(frame.value);
      NormalizeIdempotent(frame.value);
      ghost var before := MapView();
      UpdateMetrics(normalized, timeLabel);
      UpdateMap(normalized.gps);
      UpdateMapIdempotent(before, normalized.gps);
    }

    /** fetchLastRecord: a failed request changes nothing; a record is normalised and shown by updateMetrics. */
    method FetchLastRecord(record: Option<Payload>, timeLabel: string)
      requires Valid()
      modifies this, heartRateChart
      ensures Valid()
      ensures Link() == old(Link())
      ensures record.None? ==> View() == old(View()) && MapView() == old(MapView())
      ensures record.Some? ==> View() == old(View()).(
        heartRate := Some(Card(OrDash(Normalize(record.value).frecuenciaCardiaca), ClassifyHeartRate(Normalize(record.value).frecuenciaCardiaca))),
        banner := BannerAfter(ClassifyHeartRate(Normalize(record.value).frecuenciaCardiaca), old(banner)),
        location := Some(LocationOf(Normalize(record.value).gps)))
      ensures record.Some? ==> MapView() == MapMarker.UpdateMap(old(MapView()), Normalize(record.value).gps)
      ensures record.None? && heartRateChart != null ==> heartRateChart.Window() == old(heartRateChart.Window())
      ensures record.Some? && heartRateChart != null ==>
        heartRateChart.Window() == ChartedIfPresent(old(heartRateChart.Window()), Normalize(record.value).frecuenciaCardiaca, timeLabel)
      ensures record.Some? && heartRateChart != null ==>
        |heartRateChart.datasets| == old(|heartRateChart.datasets|) && heartRateChart.Others() == old(heartRateChart.Others())
      ensures record.None? && heartRateChart != null ==> unchanged(heartRateChart)
    {
      if record.None? {
        return;
      }
      NormalizeIdempotent(record.value);
      UpdateMetrics(Normalize(record.value), timeLabel);
    }

    /** updateHistoricalTable: a value that is not an array leaves the table; an array is rendered by TableOf. */
    method UpdateHistoricalTable(records: Records)
      requires Valid()
      modifies this
      ensures Valid()
      ensures records.NotAnArray? ==> View() == old(View())
      ensures records.RecordArray? ==> View() == old(View()).(table := TableOf(records.items))
      ensures Link() == old(Link()) && MapView() == old(MapView())
    {
      if records.NotAnArray? {
        return;
      }
      table := TableOf(records.items);
    }

    /**
     * loadHistoricalData: a failed request, or a `null` body, shows the
     * error row; otherwise the records array is extracted and rendered.
     */
    method LoadHistoricalData(response: Option<Response>)
      requires Valid()
      modifies this
      ensures Valid()
      ensures Link() == old(Link()) && MapView() == old(MapView())
      ensures response.None? || response.value.NullBody? ==> View() == old(View()).(table := ErrorRow)
      ensures response.Some? && response.value.ArrayBody? ==> View() == old(View()).(table := TableOf(response.value.items))
      ensures response.Some? && ExtractRecords(response.value).Some? && ExtractRecords(response.value).value.RecordArray? ==>
        View() == old(View()).(table := TableOf(ExtractRecords(response.value).value.items))
      ensures response.Some? && ExtractRecords(response.value) == Some(NotAnArray) ==> View() == old(View())
    {
      if response.None? {
        table := ErrorRow;
        return;
      }
      var records := ExtractRecords(response.value);
      if records.None? {
        table := ErrorRow;
      } else {
        UpdateHistoricalTable(records.value);
      }
    }
  }
}
