/**
 * The page script (cosmic_app/static/script.js): the zoom/pan viewer of the image modal,
 * the two-mode chart (Wien curve or spectral intensity) with its fetch-then-draw cycle,
 * the file-name label of the upload control and the image-processing request with its
 * loading state and cluster cards.
 *
 * The module-level variables of the script and the parts of the page they drive are the
 * fields of one object, Page. The DOM, Chart.js and fetch are not modelled: a chart is the
 * specification handed to the charting library, and a network call is split into the
 * request the script issues and a second method that receives its outcome.
 */
module Script {
  import opened Common

  /** A JavaScript number: a finite value, NaN, or +Infinity / -Infinity. */
  datatype JsNumber = Finite(value: real) | NaN | Infinite(positive: bool)

  // ---------------------------------------------------------------------------
  // Viewport of the image modal
  // ---------------------------------------------------------------------------

  const MinZoom: real := 0.5
  const MaxZoom: real := 4.0

  /** currentZoom, panX, panY, isPanning, startX, startY. */
  datatype Viewport = Viewport(zoom: real, panX: real, panY: real, isPanning: bool, startX: real, startY: real)

  /** `Math.min(4, Math.max(0.5, z))`. */
  function ClampZoom(z: real): (r: real)
    ensures MinZoom <= r <= MaxZoom
    ensures MinZoom <= z <= MaxZoom ==> r == z
    ensures z > MaxZoom ==> r == MaxZoom
    ensures z < MinZoom ==> r == MinZoom
  {
    Min(MaxZoom, Max(MinZoom, z))
  }

  /** openImageModal (with an image to show) and resetZoom: back to the identity view. */
  function Recentred(v: Viewport): (r: Viewport)
    ensures r.zoom == 1.0 && r.panX == 0.0 && r.panY == 0.0
    ensures r.isPanning == v.isPanning && r.startX == v.startX && r.startY == v.startY
  {
    v.(zoom := 1.0, panX := 0.0, panY := 0.0)
  }

  /** zoomImage(factor): multiply, then clamp. */
  function Zoomed(v: Viewport, factor: real): (r: Viewport)
    ensures MinZoom <= r.zoom <= MaxZoom && r.zoom == ClampZoom(v.zoom * factor)
    ensures r.(zoom := v.zoom) == v
  {
    v.(zoom := ClampZoom(v.zoom * factor))
  }

  /** startPan at the pointer (x, y): only above zoom 1, anchor = pointer - pan. */
  function PanStarted(v: Viewport, x: real, y: real): (r: Viewport)
    ensures v.zoom <= 1.0 ==> r == v
    ensures v.zoom > 1.0 ==> r.isPanning && r.startX + v.panX == x && r.startY + v.panY == y
    ensures r.zoom == v.zoom && r.panX == v.panX && r.panY == v.panY
  {
    if v.zoom <= 1.0 then v else v.(isPanning := true, startX := x - v.panX, startY := y - v.panY)
  }

  /** doPan at the pointer (x, y): only during a session, pan = pointer - anchor. */
  function PanMoved(v: Viewport, x: real, y: real): (r: Viewport)
    ensures !v.isPanning ==> r == v
    ensures v.isPanning ==> r.panX + v.startX == x && r.panY + v.startY == y
    ensures r.(panX := v.panX, panY := v.panY) == v
  {
    if !v.isPanning then v else v.(panX := x - v.startX, panY := y - v.startY)
  }

  /** endPan, on mouse-up and mouse-leave. */
  function PanEnded(v: Viewport): (r: Viewport)
    ensures !r.isPanning && r.(isPanning := v.isPanning) == v
  {
    v.(isPanning := false)
  }

  /** A series of zoom commands. */
  function ZoomedBy(v: Viewport, factors: seq<real>): Viewport
    decreases |factors|
  {
    if |factors| == 0 then v else ZoomedBy(Zoomed(v, factors[0]), factors[1..])
  }

  /** A series of pointer moves. */
  function DraggedThrough(v: Viewport, moves: seq<(real, real)>): Viewport
    decreases |moves|
  {
    if |moves| == 0 then v else DraggedThrough(PanMoved(v, moves[0].0, moves[0].1), moves[1..])
  }

  /** Whatever came before, open and reset leave the identity view. */
  lemma RecentredIsIdentity(v: Viewport)
    ensures Recentred(v).zoom == 1.0 && Recentred(v).panX == 0.0 && Recentred(v).panY == 0.0
    ensures Recentred(v).isPanning == v.isPanning
  {
  }

  /** Zoom stays within [0.5, 4] through any series of zoom commands. */
  lemma {:induction false} ZoomStaysInRange(v: Viewport, factors: seq<real>)
    requires MinZoom <= v.zoom <= MaxZoom
    ensures MinZoom <= ZoomedBy(v, factors).zoom <= MaxZoom
    ensures ZoomedBy(v, factors).panX == v.panX && ZoomedBy(v, factors).panY == v.panY
    decreases |factors|
  {
    if |factors| > 0 {
      ZoomStaysInRange(Zoomed(v, factors[0]), factors[1..]);
    }
  }

  lemma ZoomExamples(v: Viewport)
    requires v.zoom == 1.0
    ensures Zoomed(v, 10.0).zoom == MaxZoom
    ensures Zoomed(Zoomed(v, 10.0), 0.1).zoom == 0.5
  {
  }

  /** At or below zoom 1 startPan does nothing; above it, it opens a session anchored at pointer - pan. */
  lemma PanGate(v: Viewport, x: real, y: real)
    ensures v.zoom <= 1.0 ==> PanStarted(v, x, y) == v
    ensures v.zoom > 1.0 ==>
      var w := PanStarted(v, x, y);
      w.isPanning && w.startX == x - v.panX && w.startY == y - v.panY &&
      w.zoom == v.zoom && w.panX == v.panX && w.panY == v.panY
  {
  }

  /** Without a session, no series of moves changes anything. */
  lemma {:induction false} MovesWithoutSessionAreIgnored(v: Viewport, moves: seq<(real, real)>)
    requires !v.isPanning
    ensures DraggedThrough(v, moves) == v
    decreases |moves|
  {
    if |moves| > 0 {
      MovesWithoutSessionAreIgnored(v, moves[1..]);
    }
  }

  /** During a session, the pan after any series of moves is the last pointer minus the anchor. */
  lemma {:induction false} PanFollowsAnchor(w: Viewport, moves: seq<(real, real)>)
    requires w.isPanning && |moves| > 0
    ensures var u := DraggedThrough(w, moves);
      u.panX == moves[|moves| - 1].0 - w.startX && u.panY == moves[|moves| - 1].1 - w.startY &&
      u.zoom == w.zoom && u.isPanning && u.startX == w.startX && u.startY == w.startY
    decreases |moves|
  {
    if |moves| > 1 {
      PanFollowsAnchor(PanMoved(w, moves[0].0, moves[0].1), moves[1..]);
      assert moves[1..][|moves[1..]| - 1] == moves[|moves| - 1];
    }
  }

  /**
   * A drag that starts at (x0, y0) above zoom 1 and passes through any moves ends with the
   * pan shifted by exactly the pointer's total displacement: the last point minus the first.
   */
  lemma DragShiftsPan(v: Viewport, x0: real, y0: real, moves: seq<(real, real)>)
    requires v.zoom > 1.0 && |moves| > 0
    ensures var w := DraggedThrough(PanStarted(v, x0, y0), moves);
      w.panX == v.panX + (moves[|moves| - 1].0 - x0) &&
      w.panY == v.panY + (moves[|moves| - 1].1 - y0) &&
      w.zoom == v.zoom && w.isPanning
  {
    PanFollowsAnchor(PanStarted(v, x0, y0), moves);
  }

  /** No drag moves the image at or below zoom 1 when no session was open. */
  lemma DragAtUnitZoomIsIgnored(v: Viewport, x0: real, y0: real, moves: seq<(real, real)>)
    requires v.zoom <= 1.0 && !v.isPanning
    ensures DraggedThrough(PanStarted(v, x0, y0), moves) == v
  {
    MovesWithoutSessionAreIgnored(v, moves);
  }

  /** endPan closes the session whatever the state, is idempotent and keeps zoom and pan. */
  lemma PanEndedFacts(v: Viewport)
    ensures !PanEnded(v).isPanning
    ensures PanEnded(PanEnded(v)) == PanEnded(v)
    ensures PanEnded(v).zoom == v.zoom && PanEnded(v).panX == v.panX && PanEnded(v).panY == v.panY
  {
  }

  /**
   * Opening the image again or resetting the zoom does not close a pan session left open,
   * and a move during it pans whatever the zoom: only startPan is gated on the zoom.
   */
  lemma SessionSurvivesRecentring(v: Viewport, x: real, y: real)
    requires v.isPanning
    ensures Recentred(v).isPanning && Recentred(v).zoom == 1.0
    ensures PanMoved(Recentred(v), x, y).panX == x - v.startX
    ensures PanMoved(Recentred(v), x, y).panY == y - v.startY
  {
  }

  lemma DragExample(v: Viewport)
    requires v.zoom == 1.0 && v.panX == 0.0 && v.panY == 0.0
    ensures var w := PanMoved(PanStarted(Zoomed(v, 2.0), 100.0, 100.0), 130.0, 120.0);
      w.panX == 30.0 && w.panY == 20.0
  {
  }

  /** The CSS transform of the modal image: `translate(panX, panY) scale(zoom)`. */
  datatype Transform = Transform(translateX: real, translateY: real, scale: real)

  // ---------------------------------------------------------------------------
  // Chart mode, requests and chart specifications
  // ---------------------------------------------------------------------------

  datatype Mode = Wien | Intensity

  /** setGraphMode's reading of its argument. */
  function ModeNamed(name: string): (m: Mode)
    ensures m == Intensity <==> name == "intensity"
  {
    if name == "intensity" then Intensity else Wien
  }

  /**
   * The temperature control's value as `parseFloat(value || 5000)` reads it: blank, a
   * finite number, a value too large for a double (or "Infinity"), or no number at all.
   */
  datatype TemperatureField = Blank | Reads(number: real) | Overflowing(positive: bool) | Unreadable

  function FieldTemperature(f: TemperatureField): (t: JsNumber)
    ensures f.Blank? ==> t == Finite(5000.0)
    ensures f.Reads? ==> t == Finite(f.number)
    ensures f.Overflowing? ==> t == Infinite(f.positive)
    ensures f.Unreadable? ==> t == NaN
  {
    match f
    case Blank => Finite(5000.0)
    case Reads(v) => Finite(v)
    case Overflowing(positive) => Infinite(positive)
    case Unreadable => NaN
  }

  /** The POST a chart refresh sends: to /wien or to /intensity, with the temperature. */
  datatype GraphRequest = WienRequest(temperature: JsNumber) | IntensityRequest(temperature: JsNumber)

  /** generateGraph / fetchIntensity: the endpoint follows the mode. */
  function RequestFor(mode: Mode, t: JsNumber): (r: GraphRequest)
    ensures r.IntensityRequest? <==> mode == Intensity
    ensures r.temperature == t
  {
    if mode == Intensity then IntensityRequest(t) else WienRequest(t)
  }

  /**
   * What a fetch of a series yields: the two arrays of the JSON body (graph_T and
   * graph_lambda, or wavelengths_nm and intensities), or a failure of the network or of
   * the JSON parsing.
   */
  datatype SeriesOutcome = Series(first: seq<real>, second: seq<real>) | FetchFailed

  datatype Point = Point(x: JsNumber, y: JsNumber)

  /**
   * A chart as handed to Chart.js. A Wien chart has the curve, the highlighted point and the
   * x position of the dashed guide line (None when the temperature is not finite); an
   * intensity chart has its labels, its values and the temperature shown in its title.
   */
  datatype Chart =
    | WienChart(curve: seq<Point>, highlight: Point, guideAt: Option<real>)
    | IntensityChart(labels: seq<real>, values: seq<real>, temperature: JsNumber)

  const WienConstant: real := 0.002898
  const NanometresPerMetre: real := 1000000000.0

  /** `temps.map((t, i) => ({x: t, y: wavelengths[i] * 1e9}))`; a missing wavelength gives NaN. */
  function WienCurve(temps: seq<real>, wavelengths: seq<real>): (curve: seq<Point>)
    ensures |curve| == |temps|
    ensures forall i :: 0 <= i < |curve| ==> curve[i].x == Finite(temps[i])
    ensures forall i :: 0 <= i < |curve| ==>
      curve[i].y == if i < |wavelengths| then Finite(wavelengths[i] * NanometresPerMetre) else NaN
  {
    seq(|temps|, i requires 0 <= i < |temps| =>
      Point(Finite(temps[i]), if i < |wavelengths| then Finite(wavelengths[i] * NanometresPerMetre) else NaN))
  }

  /**
   * The highlighted point: the temperature and b / T in nanometres. At T = 0 the division
   * gives +Infinity; at an infinite T it gives 0; NaN stays NaN. The temperature is re-parsed
   * with `parseFloat` first, and `String(-0)` is "0", so no negative zero reaches the division.
   */
  function Highlight(t: JsNumber): (h: Point)
    ensures h.x == t
    ensures t.Finite? && t.value != 0.0 ==>
      h.y.Finite? && h.y.value * t.value == WienConstant * NanometresPerMetre
    ensures t == Finite(0.0) ==> h.y == Infinite(true)
    ensures t.Infinite? ==> h.y == Finite(0.0)
    ensures t.NaN? ==> h.y.NaN?
  {
    match t
    case Finite(v) =>
      if v != 0.0 then
        assert WienConstant / v * v == WienConstant;
        Point(t, Finite(WienConstant / v * NanometresPerMetre))
      else Point(t, Infinite(true))
    case Infinite(_) => Point(t, Finite(0.0))
    case NaN => Point(t, NaN)
  }

  /** drawWienGraph's chart. */
  function WienChartOf(temps: seq<real>, wavelengths: seq<real>, t: JsNumber): Chart {
    WienChart(WienCurve(temps, wavelengths), Highlight(t), if t.Finite? then Some(t.value) else None)
  }

  /** drawIntensityGraph's chart: the series is plotted as received. */
  function IntensityChartOf(wavelengths: seq<real>, intensities: seq<real>, t: JsNumber): Chart {
    IntensityChart(wavelengths, intensities, t)
  }

  /** The chart a response to a request is drawn as: a failure draws with empty arrays. */
  function ChartFor(req: GraphRequest, outcome: SeriesOutcome): (c: Chart)
    ensures c.WienChart? <==> req.WienRequest?
    ensures c.WienChart? ==> c.highlight == Highlight(req.temperature)
    ensures c.IntensityChart? ==> c.temperature == req.temperature
    ensures outcome.FetchFailed? && c.WienChart? ==> c.curve == []
    ensures outcome.FetchFailed? && c.IntensityChart? ==> c.labels == [] && c.values == []
    ensures c.WienChart? ==> c.guideAt == if req.temperature.Finite? then Some(req.temperature.value) else None
    ensures outcome.Series? && c.WienChart? ==> c.curve == WienCurve(outcome.first, outcome.second)
    ensures outcome.Series? && c.WienChart? ==> |c.curve| == |outcome.first|
    ensures outcome.Series? && c.IntensityChart? ==> c.labels == outcome.first && c.values == outcome.second
  {
    var (xs, ys) := match outcome case Series(a, b) => (a, b) case FetchFailed => ([], []);
    match req
    case WienRequest(t) => WienChartOf(xs, ys, t)
    case IntensityRequest(t) => IntensityChartOf(xs, ys, t)
  }

  /** The highlight for 5000 K sits at 579.6 nm. */
  lemma HighlightAt5000()
    ensures Highlight(Finite(5000.0)) == Point(Finite(5000.0), Finite(579.6))
  {
  }

  // ---------------------------------------------------------------------------
  // Upload label
  // ---------------------------------------------------------------------------

  const MaxShownName: nat := 30
  const KeptPrefix: nat := 27

  /** previewUploadedImage's label: names over 30 characters keep 27 and end in "...". */
  function DisplayedName(name: string): (shown: string)
    ensures |shown| <= MaxShownName
    ensures |name| <= MaxShownName ==> shown == name
    ensures |name| > MaxShownName ==> shown == name[..KeptPrefix] + "..."
  {
    if |name| > MaxShownName then name[..KeptPrefix] + "..." else name
  }

  /** A displayed name is displayed as itself, and always starts like the original. */
  lemma DisplayedNameFacts(name: string)
    ensures DisplayedName(DisplayedName(name)) == DisplayedName(name)
    ensures var n := MinInt(|name|, KeptPrefix); DisplayedName(name)[..n] == name[..n]
  {
  }

  // ---------------------------------------------------------------------------
  // Cluster cards
  // ---------------------------------------------------------------------------

  /** One value of the response's cluster_info, as the page reads it. */
  datatype ClusterInfo = ClusterInfo(
    icon: string, category: string, description: string,
    avgOptical: real, avgInfrared: real, avgXray: real)

  /** A key of cluster_info (read through Number) with its value, in Object.keys order. */
  datatype ClusterEntry = ClusterEntry(id: nat, info: ClusterInfo)

  /** The JET palette of the cards (blue, cyan, green, yellow, red). */
  const JetColors: seq<string> := ["#0000ff", "#00ffff", "#00ff00", "#ffff00", "#ff0000"]

  datatype Card = Card(
    color: string, colorIndex: nat, number: int, icon: string, category: string,
    description: string, optical: real, infrared: real, xray: real)

  predicate SortedById(es: seq<ClusterEntry>) {
    forall i, j :: 0 <= i < j < |es| ==> es[i].id <= es[j].id
  }

  /** Insert e before the first entry whose id is not smaller. */
  function InsertById(e: ClusterEntry, es: seq<ClusterEntry>): (r: seq<ClusterEntry>)
    requires SortedById(es)
    ensures SortedById(r)
    ensures |r| == |es| + 1
    ensures forall x :: x in r <==> x == e || x in es
    ensures multiset(r) == multiset(es) + multiset{e}
  {
    if |es| == 0 || e.id <= es[0].id then [e] + es
    else
      var rest := InsertById(e, es[1..]);
      assert es == [es[0]] + es[1..];
      assert forall x :: x in rest ==> es[0].id <= x.id;
      [es[0]] + rest
  }

  /** `.sort((a, b) => Number(a) - Number(b))` over the entries: ascending ids, same entries. */
  function SortEntries(es: seq<ClusterEntry>): (r: seq<ClusterEntry>)
    ensures SortedById(r)
    ensures multiset(r) == multiset(es)
    ensures |r| == |es|
  {
    if |es| == 0 then []
    else
      assert es == [es[0]] + es[1..];
      InsertById(es[0], SortEntries(es[1..]))
  }

  /** `Math.min(Number(clusterId), jetColors.length - 1)`. */
  function ColorIndex(id: nat): (k: nat)
    ensures k < |JetColors|
    ensures k == MinInt(id, 4)
  {
    MinInt(id, |JetColors| - 1)
  }

  function CardFor(e: ClusterEntry): Card {
    var k := ColorIndex(e.id);
    Card(JetColors[k], k, e.id + 1, e.info.icon, e.info.category, e.info.description,
      e.info.avgOptical, e.info.avgInfrared, e.info.avgXray)
  }

  /** The card list in the order it is rendered: one card per entry, by ascending id. */
  function ClusterCards(es: seq<ClusterEntry>): (cards: seq<Card>)
    ensures |cards| == |es|
    ensures forall i, j :: 0 <= i < j < |cards| ==> cards[i].number <= cards[j].number
  {
    var sorted := SortEntries(es);
    seq(|sorted|, i requires 0 <= i < |sorted| => CardFor(sorted[i]))
  }

  /** The cards are exactly the cards of the entries: none lost, none invented. */
  lemma CardsMatchEntries(es: seq<ClusterEntry>)
    ensures forall e :: e in es ==> CardFor(e) in ClusterCards(es)
    ensures forall c :: c in ClusterCards(es) ==> exists e :: e in es && c == CardFor(e)
  {
    var sorted := SortEntries(es);
    var cards := ClusterCards(es);
    forall e | e in es ensures CardFor(e) in cards {
      assert e in multiset(sorted);
      var i :| 0 <= i < |sorted| && sorted[i] == e;
      assert cards[i] == CardFor(e);
    }
    forall c | c in cards ensures exists e :: e in es && c == CardFor(e) {
      var i :| 0 <= i < |cards| && cards[i] == c;
      assert sorted[i] in multiset(es);
    }
  }

  /** Every card shows its id plus one and the palette colour of min(id, 4). */
  lemma CardFields(e: ClusterEntry)
    ensures CardFor(e).number == e.id + 1
    ensures CardFor(e).colorIndex == MinInt(e.id, 4) && CardFor(e).color == JetColors[MinInt(e.id, 4)]
  {
  }

  /** Keys "0", "2", "1" give the cards of clusters 0, 1, 2 in that order. */
  lemma CardOrderExample(a: ClusterInfo, b: ClusterInfo, c: ClusterInfo)
    ensures var cards := ClusterCards([ClusterEntry(0, a), ClusterEntry(2, b), ClusterEntry(1, c)]);
      |cards| == 3 && cards[0].number == 1 && cards[1].number == 2 && cards[2].number == 3
  {
    var e0, e2, e1 := ClusterEntry(0, a), ClusterEntry(2, b), ClusterEntry(1, c);
    SortExample(e0, e2, e1);
  }

  lemma SortExample(e0: ClusterEntry, e2: ClusterEntry, e1: ClusterEntry)
    requires e0.id == 0 && e1.id == 1 && e2.id == 2
    ensures SortEntries([e0, e2, e1]) == [e0, e1, e2]
  {
    assert [e1][1..] == [];
    SortStep([e1]);
    InsertInFront(e1, []);
    assert SortEntries([e1]) == [e1];
    assert [e2, e1][1..] == [e1];
    SortStep([e2, e1]);
    InsertInFront(e2, []);
    InsertBehind(e2, [e1]);
    assert SortEntries([e2, e1]) == [e1, e2];
    assert [e0, e2, e1][1..] == [e2, e1];
    SortStep([e0, e2, e1]);
    InsertInFront(e0, [e1, e2]);
  }

  lemma SortStep(es: seq<ClusterEntry>)
    requires |es| > 0
    ensures SortEntries(es) == InsertById(es[0], SortEntries(es[1..]))
  {
  }

  lemma InsertInFront(e: ClusterEntry, es: seq<ClusterEntry>)
    requires SortedById(es) && (|es| == 0 || e.id <= es[0].id)
    ensures InsertById(e, es) == [e] + es
  {
  }

  lemma InsertBehind(e: ClusterEntry, es: seq<ClusterEntry>)
    requires SortedById(es) && |es| > 0 && e.id > es[0].id
    ensures InsertById(e, es) == [es[0]] + InsertById(e, es[1..])
  {
  }

  // ---------------------------------------------------------------------------
  // Image processing request and response
  // ---------------------------------------------------------------------------

  datatype File = File(name: string)

  /** The multipart body: the image, the mode and, only after a manual choice, the cluster count. */
  datatype ProcessRequest = ProcessRequest(image: File, mode: string, clusters: Option<string>)

  /**
   * What the /process fetch yields: the JSON body's members (each possibly absent), or a
   * failure of the network or of the JSON parsing.
   */
  datatype ProcessOutcome =
    | Processed(processedUrl: Option<string>, segmentedUrl: Option<string>, bestK: Option<int>,
                clusterInfo: Option<seq<ClusterEntry>>)
    | ProcessFailed

  /** An image URL with the `?t=<time>` suffix that defeats the browser cache. */
  function CacheBusted(url: string, timestamp: string): string {
    url + "?t=" + timestamp
  }

  /** A string member is acted on only when present and non-empty (truthy). */
  predicate Truthy(s: Option<string>) { s.Some? && s.value != "" }

  /** An image's source after a response: replaced by a present, non-empty URL, otherwise kept. */
  function ShownImage(current: Option<string>, url: Option<string>, timestamp: string): (src: Option<string>)
    ensures !Truthy(url) ==> src == current
    ensures Truthy(url) ==> src.Some? && |src.value| >= |url.value| && src.value[..|url.value|] == url.value
    ensures Truthy(url) ==> src.value[|url.value|..] == "?t=" + timestamp
  {
    if Truthy(url) then Some(CacheBusted(url.value, timestamp)) else current
  }

  /** The cluster slider after a response: best_k is taken only if non-zero and not overridden. */
  function SliderAfter(current: int, bestK: Option<int>, userOverride: bool): (value: int)
    ensures userOverride ==> value == current
    ensures !userOverride && bestK.Some? && bestK.value != 0 ==> value == bestK.value
    ensures value != current ==> bestK == Some(value) && value != 0
  {
    if bestK.Some? && bestK.value != 0 && !userOverride then bestK.value else current
  }

  /** The page elements and variables of the processing panel. */
  datatype Panel = Panel(
    userOverrideClusters: bool,
    clusterValue: int,
    chosenFile: Option<File>,
    uploadText: string,
    originalPreview: Option<string>,
    processedSrc: Option<string>,
    segmentedSrc: Option<string>,
    loadingActive: bool,
    overlayActive: bool,
    bodyProcessing: bool,
    cards: seq<Card>,
    analysisVisible: bool)

  /** The modal image element. */
  datatype Modal = Modal(open: bool, src: string, transform: Transform)

  // ---------------------------------------------------------------------------
  // The page
  // ---------------------------------------------------------------------------

  class Page {
    // viewport variables
    var currentZoom: real
    var panX: real
    var panY: real
    var isPanning: bool
    var startX: real
    var startY: real
    // the modal and its image
    var modalOpen: bool
    var modalSrc: string
    var transform: Transform
    // chart variables
    var graphMode: Mode
    var chartInstance: Option<Chart>
    /** every chart created so far, and those destroyed */
    ghost var created: seq<Chart>
    ghost var destroyed: seq<Chart>
    // processing variables and elements
    var userOverrideClusters: bool
    var clusterValue: int
    var chosenFile: Option<File>
    var uploadText: string
    var originalPreview: Option<string>
    var processedSrc: Option<string>
    var segmentedSrc: Option<string>
    var loadingActive: bool
    var overlayActive: bool
    var bodyProcessing: bool
    var cards: seq<Card>
    var analysisVisible: bool

    function View(): Viewport reads this {
      Viewport(currentZoom, panX, panY, isPanning, startX, startY)
    }

    function ModalView(): Modal reads this {
      Modal(modalOpen, modalSrc, transform)
    }

    function PanelView(): Panel reads this {
      Panel(userOverrideClusters, clusterValue, chosenFile, uploadText, originalPreview,
        processedSrc, segmentedSrc, loadingActive, overlayActive, bodyProcessing, cards, analysisVisible)
    }

    /**
     * Zoom within bounds, the image's transform showing the current view, and every chart
     * but the current one destroyed: at most one chart instance is alive.
     */
    ghost predicate Valid() reads this {
      && MinZoom <= currentZoom <= MaxZoom
      && transform == Transform(panX, panY, currentZoom)
      && created == destroyed + (if chartInstance.Some? then [chartInstance.value] else [])
    }

    /** The state when the script is loaded (before the first chart is drawn). */
    constructor (initialClusters: int)
      ensures Valid()
      ensures View() == Viewport(1.0, 0.0, 0.0, false, 0.0, 0.0)
      ensures graphMode == Wien && chartInstance.None? && created == []
      ensures !userOverrideClusters && clusterValue == initialClusters
      ensures !modalOpen && chosenFile.None? && !loadingActive && !overlayActive && !bodyProcessing
    {
      currentZoom, panX, panY := 1.0, 0.0, 0.0;
      isPanning, startX, startY := false, 0.0, 0.0;
      modalOpen, modalSrc, transform := false, "", Transform(0.0, 0.0, 1.0);
      graphMode, chartInstance := Wien, None;
      created, destroyed := [], [];
      userOverrideClusters, clusterValue := false, initialClusters;
      chosenFile, uploadText, originalPreview := None, "Choose Image File", None;
      processedSrc, segmentedSrc := None, None;
      loadingActive, overlayActive, bodyProcessing := false, false, false;
      cards, analysisVisible := [], false;
    }

    // --- viewer -------------------------------------------------------------

    /** updateImageTransform: the image's transform from the current pan and zoom. */
    method UpdateImageTransform()
      modifies this`transform
      ensures transform == Transform(panX, panY, currentZoom)
    {
      transform := Transform(panX, panY, currentZoom);
    }

    /** openImageModal: an image without a source is ignored; otherwise show it at the identity view. */
    method OpenImageModal(src: string)
      requires Valid()
      modifies this`currentZoom, this`panX, this`panY, this`transform, this`modalOpen, this`modalSrc
      ensures Valid()
      ensures src == "" ==> View() == old(View()) && ModalView() == old(ModalView())
      ensures src != "" ==> View() == Recentred(old(View())) && modalOpen && modalSrc == src
    {
      if src != "" {
        modalSrc := src;
        currentZoom, panX, panY := 1.0, 0.0, 0.0;
        UpdateImageTransform();
        modalOpen := true;
      }
    }

    /** closeImageModal (close button, backdrop click, Escape). */
    method CloseImageModal()
      requires Valid()
      modifies this`modalOpen
      ensures Valid() && !modalOpen
    {
      modalOpen := false;
    }

    method ZoomImage(factor: real)
      requires Valid()
      modifies this`currentZoom, this`transform
      ensures Valid()
      ensures View() == Zoomed(old(View()), factor)
    {
      currentZoom := ClampZoom(currentZoom * factor);
      UpdateImageTransform();
    }

    method ResetZoom()
      requires Valid()
      modifies this`currentZoom, this`panX, this`panY, this`transform
      ensures Valid()
      ensures View() == Recentred(old(View()))
    {
      currentZoom, panX, panY := 1.0, 0.0, 0.0;
      UpdateImageTransform();
    }

    method StartPan(clientX: real, clientY: real)
      requires Valid()
      modifies this`isPanning, this`startX, this`startY
      ensures Valid()
      ensures View() == PanStarted(old(View()), clientX, clientY)
    {
      if currentZoom <= 1.0 {
        return;
      }
      isPanning := true;
      startX := clientX - panX;
      startY := clientY - panY;
    }

    method DoPan(clientX: real, clientY: real)
      requires Valid()
      modifies this`panX, this`panY, this`transform
      ensures Valid()
      ensures View() == PanMoved(old(View()), clientX, clientY)
    {
      if !isPanning {
        return;
      }
      panX := clientX - startX;
      panY := clientY - startY;
      UpdateImageTransform();
    }

    method EndPan()
      requires Valid()
      modifies this`isPanning
      ensures Valid()
      ensures View() == PanEnded(old(View()))
    {
      isPanning := false;
    }

    // --- chart --------------------------------------------------------------

    /** generateGraph: the request it sends for the current mode and temperature field. */
    method GenerateGraph(field: TemperatureField) returns (req: GraphRequest)
      ensures req == RequestFor(graphMode, FieldTemperature(field))
      ensures req.IntensityRequest? <==> graphMode == Intensity
    {
      var temperature := FieldTemperature(field);
      if graphMode == Intensity {
        req := IntensityRequest(temperature);
        return;
      }
      req := WienRequest(temperature);
    }

    /** setGraphMode: anything but "intensity" selects Wien; then one refresh is sent. */
    method SetGraphMode(name: string, field: TemperatureField) returns (req: GraphRequest)
      requires Valid()
      modifies this`graphMode
      ensures Valid()
      ensures graphMode == ModeNamed(name)
      ensures req == RequestFor(ModeNamed(name), FieldTemperature(field))
    {
      graphMode := if name == "intensity" then Intensity else Wien;
      req := GenerateGraph(field);
    }

    /** The chart-drawing step shared by drawWienGraph and drawIntensityGraph. */
    method ReplaceChart(c: Chart)
      requires Valid()
      modifies this`chartInstance, this`created, this`destroyed
      ensures Valid()
      ensures chartInstance == Some(c)
      ensures created == old(created) + [c]
      ensures destroyed == old(destroyed) + (if old(chartInstance).Some? then [old(chartInstance).value] else [])
    {
      if chartInstance.Some? {
        destroyed := destroyed + [chartInstance.value];
        chartInstance := None;
      }
      chartInstance := Some(c);
      created := created + [c];
    }

    /** The fetch's continuation (then or catch): exactly one chart is drawn, replacing the old one. */
    method ReceiveSeries(req: GraphRequest, outcome: SeriesOutcome)
      requires Valid()
      modifies this`chartInstance, this`created, this`destroyed
      ensures Valid()
      ensures chartInstance == Some(ChartFor(req, outcome))
      ensures created == old(created) + [ChartFor(req, outcome)]
    {
      var c := ChartFor(req, outcome);
      ReplaceChart(c);
    }

    // --- upload and processing ----------------------------------------------

    /** previewUploadedImage after the file input changed; objectUrl stands for URL.createObjectURL. */
    method PreviewUploadedImage(file: Option<File>, objectUrl: string)
      requires Valid()
      modifies this`chosenFile, this`uploadText, this`originalPreview
      ensures Valid()
      ensures chosenFile == file
      ensures file.None? ==> uploadText == "Choose Image File" && originalPreview.None?
      ensures file.Some? ==> uploadText == DisplayedName(file.value.name) && originalPreview == Some(objectUrl)
    {
      chosenFile := file;
      if file.None? {
        originalPreview := None;
        uploadText := "Choose Image File";
        return;
      }
      uploadText := DisplayedName(file.value.name);
      originalPreview := Some(objectUrl);
    }

    /** The cluster slider's input listener: the override flag is set, never cleared. */
    method OnClusterInput(value: int)
      requires Valid()
      modifies this`userOverrideClusters, this`clusterValue
      ensures Valid()
      ensures userOverrideClusters && clusterValue == value
    {
      userOverrideClusters := true;
      clusterValue := value;
    }

    /**
     * processImage up to sending: nothing happens without a chosen file; otherwise the
     * loading indicator, the overlay and the body's "processing" mark are switched on and
     * the request carries the cluster count only when the user chose one.
     */
    method ProcessImage(mode: string) returns (req: Option<ProcessRequest>)
      requires Valid()
      modifies this`loadingActive, this`overlayActive, this`bodyProcessing
      ensures Valid()
      ensures chosenFile.None? ==> req.None? && PanelView() == old(PanelView())
      ensures chosenFile.Some? ==>
        && PanelView() == old(PanelView()).(loadingActive := true, overlayActive := true, bodyProcessing := true)
        && req.Some? && req.value.image == chosenFile.value && req.value.mode == mode
        && (req.value.clusters.Some? <==> userOverrideClusters)
        && (userOverrideClusters ==> req.value.clusters == Some(DecimalOf(clusterValue)))
    {
      if chosenFile.None? {
        return None;
      }
      loadingActive := true;
      overlayActive := true;
      bodyProcessing := true;
      var clusters := if userOverrideClusters then Some(DecimalOf(clusterValue)) else None;
      req := Some(ProcessRequest(chosenFile.value, mode, clusters));
    }

    /**
     * The /process fetch's continuation. On success: present, non-empty URLs replace the
     * image sources (with the cache-busting suffix), a non-zero best_k moves the slider only
     * while the user has not chosen a count, and a cluster_info member rebuilds the cards
     * and shows the analysis panel. On failure both result images lose their source. Either
     * way the loading state is cleared.
     */
    method ReceiveProcessResult(outcome: ProcessOutcome, timestamp: string)
      requires Valid()
      modifies this`processedSrc, this`segmentedSrc, this`clusterValue, this`cards, this`analysisVisible,
        this`loadingActive, this`overlayActive, this`bodyProcessing
      ensures Valid()
      ensures !loadingActive && !overlayActive && !bodyProcessing
      ensures outcome.ProcessFailed? ==>
        && processedSrc.None? && segmentedSrc.None?
        && clusterValue == old(clusterValue) && cards == old(cards) && analysisVisible == old(analysisVisible)
      ensures outcome.Processed? ==>
        && processedSrc == ShownImage(old(processedSrc), outcome.processedUrl, timestamp)
        && segmentedSrc == ShownImage(old(segmentedSrc), outcome.segmentedUrl, timestamp)
        && clusterValue == SliderAfter(old(clusterValue), outcome.bestK, userOverrideClusters)
        && cards == (if outcome.clusterInfo.Some? then ClusterCards(outcome.clusterInfo.value) else old(cards))
        && analysisVisible == (outcome.clusterInfo.Some? || old(analysisVisible))
    {
      if outcome.ProcessFailed? {
        processedSrc := None;
        segmentedSrc := None;
      } else {
        ShowProcessed(outcome, timestamp);
      }
      ClearLoadingState();
    }

    /** The success handler's updates of the result images, the slider and the cards. */
    method ShowProcessed(outcome: ProcessOutcome, timestamp: string)
      requires Valid() && outcome.Processed?
      modifies this`processedSrc, this`segmentedSrc, this`clusterValue, this`cards, this`analysisVisible
      ensures Valid()
      ensures processedSrc == ShownImage(old(processedSrc), outcome.processedUrl, timestamp)
      ensures segmentedSrc == ShownImage(old(segmentedSrc), outcome.segmentedUrl, timestamp)
      ensures clusterValue == SliderAfter(old(clusterValue), outcome.bestK, userOverrideClusters)
      ensures cards == (if outcome.clusterInfo.Some? then ClusterCards(outcome.clusterInfo.value) else old(cards))
      ensures analysisVisible == (outcome.clusterInfo.Some? || old(analysisVisible))
    {
      processedSrc := ShownImage(processedSrc, outcome.processedUrl, timestamp);
      segmentedSrc := ShownImage(segmentedSrc, outcome.segmentedUrl, timestamp);
      clusterValue := SliderAfter(clusterValue, outcome.bestK, userOverrideClusters);
      if outcome.clusterInfo.Some? {
        cards := ClusterCards(outcome.clusterInfo.value);
        analysisVisible := true;
      }
    }

    /** Hide the loading indicator and the overlay and drop the body's "processing" mark. */
    method ClearLoadingState()
      requires Valid()
      modifies this`loadingActive, this`overlayActive, this`bodyProcessing
      ensures Valid()
      ensures !loadingActive && !overlayActive && !bodyProcessing
    {
      loadingActive := false;
      overlayActive := false;
      bodyProcessing := false;
    }
  }

  /** Two Wien selections in a row: each sends one request and draws exactly one chart. */
  method ReselectWien(page: Page, field: TemperatureField, first: SeriesOutcome, second: SeriesOutcome)
    requires page.Valid()
    modifies page
    ensures page.Valid() && page.graphMode == Wien
    ensures |page.created| == |old(page.created)| + 2
    ensures page.chartInstance.Some? && page.chartInstance.value.WienChart?
  {
    var r1 := page.SetGraphMode("wien", field);
    page.ReceiveSeries(r1, first);
    var r2 := page.SetGraphMode("wien", field);
    page.ReceiveSeries(r2, second);
  }

  /** A drag on the modal image at zoom 2: (100, 100) to (130, 120) pans by (30, 20). */
  method DragScenario(page: Page)
    requires page.Valid()
    requires page.currentZoom == 1.0 && page.panX == 0.0 && page.panY == 0.0
    modifies page
    ensures page.Valid() && page.panX == 30.0 && page.panY == 20.0 && !page.isPanning
  {
    page.ZoomImage(2.0);
    page.StartPan(100.0, 100.0);
    page.DoPan(130.0, 120.0);
    page.EndPan();
  }
}
