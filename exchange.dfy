/**
 * What the page sends and what the server makes of it: the temperature of a chart request,
 * the Wien curve against the highlighted point, the optional cluster count and the ids of
 * the cluster cards.
 */
module Exchange {
  import opened Common
  import App
  import Script

  /** `JSON.stringify` of the temperature member: NaN and the infinities become null. */
  function TemperatureJson(t: Script.JsNumber): (p: App.TemperatureParam)
    ensures t.Finite? ==> p == App.JsonNumber(t.value)
    ensures !t.Finite? ==> p == App.JsonNull
  {
    match t
    case Finite(v) => App.JsonNumber(v)
    case NaN => App.JsonNull
    case Infinite(_) => App.JsonNull
  }

  /** The temperature the server computes with, for each state of the page's temperature field. */
  lemma ServerTemperatureOfField(f: Script.TemperatureField)
    ensures var used := App.TemperatureUsed(TemperatureJson(Script.FieldTemperature(f)));
      match f
      case Blank => used == 5000.0
      case Reads(v) => used == Max(100.0, v)
      case Overflowing(_) => used == 5000.0
      case Unreadable => used == 5000.0
  {
  }

  /** Page and server use the same displacement constant. */
  lemma SameWienConstant()
    ensures Script.WienConstant == App.WienB
  {
  }

  /**
   * The cross-check between the fetched Wien curve and the highlighted point: every point the
   * page plots from a /wien response lies on the curve x * y = b * 1e9, the highlight lies on it
   * too, and at a sampled temperature the highlight is that sample's point.
   */
  lemma HighlightLiesOnServerCurve(p: App.TemperatureParam, t: real)
    requires t != 0.0
    ensures var r := App.WienLaw(p);
      var c := Script.ChartFor(Script.WienRequest(Script.Finite(t)), Script.Series(r.graphT, r.graphLambda));
      && c.WienChart?
      && |c.curve| == 100
      && (forall i :: 0 <= i < |c.curve| ==>
            c.curve[i].x.Finite? && c.curve[i].y.Finite? &&
            c.curve[i].x.value * c.curve[i].y.value == App.WienB * Script.NanometresPerMetre)
      && c.highlight.y.Finite? && t * c.highlight.y.value == App.WienB * Script.NanometresPerMetre
      && (forall i :: 0 <= i < |c.curve| && r.graphT[i] == t ==> c.curve[i] == c.highlight)
  {
    var r := App.WienLaw(p);
    var c := Script.ChartFor(Script.WienRequest(Script.Finite(t)), Script.Series(r.graphT, r.graphLambda));
    forall i | 0 <= i < |c.curve|
      ensures c.curve[i].x.Finite? && c.curve[i].y.Finite?
      ensures c.curve[i].x.value * c.curve[i].y.value == App.WienB * Script.NanometresPerMetre
      ensures r.graphT[i] == t ==> c.curve[i] == c.highlight
    {
      var x, l := r.graphT[i], r.graphLambda[i];
      assert c.curve[i] == Script.Point(Script.Finite(x), Script.Finite(l * Script.NanometresPerMetre));
      assert l * x == App.WienB;
      assert x * (l * Script.NanometresPerMetre) == (l * x) * Script.NanometresPerMetre;
      if x == t {
        assert l == App.WienB / t;
      }
    }
    var h := Script.WienConstant / t * Script.NanometresPerMetre;
    assert t * (Script.WienConstant / t) == Script.WienConstant;
    assert t * h == (t * (Script.WienConstant / t)) * Script.NanometresPerMetre;
  }

  /**
   * At a field temperature of at least 100 K the highlighted wavelength is the server's
   * lambda_max in nanometres. Below 100 K the server clamps: a positive field puts the
   * highlight above the server's peak, a negative one gives a negative wavelength below it,
   * and 0 gives +Infinity, since the page divides by the field value itself.
   */
  lemma HighlightIsServerPeak(v: real)
    ensures var server := App.WienLaw(TemperatureJson(Script.FieldTemperature(Script.Reads(v))));
      var h := Script.Highlight(Script.FieldTemperature(Script.Reads(v)));
      && (v >= 100.0 ==> h.y.Finite? && h.y.value == server.lambdaMax * Script.NanometresPerMetre)
      && (0.0 < v < 100.0 ==>
            (server.temperature == 100.0 && h.y.Finite? && h.y.value > server.lambdaMax * Script.NanometresPerMetre))
      && (v < 0.0 ==>
            (server.temperature == 100.0 && h.y.Finite? && h.y.value < 0.0 < server.lambdaMax * Script.NanometresPerMetre))
      && (v == 0.0 ==> server.temperature == 100.0 && h.y == Script.Infinite(true))
  {
    var h := Script.Highlight(Script.FieldTemperature(Script.Reads(v)));
    if 0.0 < v < 100.0 {
      App.HotterPeaksShorter(v, 100.0);
    } else if v < 0.0 {
      NegativeQuotient(h.y.value, v, App.WienB * Script.NanometresPerMetre);
    }
  }

  /** A product with a negative factor that is positive has a negative other factor. */
  lemma NegativeQuotient(y: real, v: real, c: real)
    requires v < 0.0 && c > 0.0 && y * v == c
    ensures y < 0.0
  {
  }

  /** The `clusters` field of a process request, as the page builds it. */
  function ClustersField(userOverride: bool, sliderValue: int): Option<string> {
    if userOverride then Some(DecimalOf(sliderValue)) else None
  }

  /**
   * The server sees the slider's value exactly when the user has moved the slider (and the
   * value has at most 4300 digits), and otherwise searches for best_k itself; a value it
   * sees ends up clamped to [2, 10].
   */
  lemma ServerReadsClusterChoice(userOverride: bool, sliderValue: int)
    ensures App.ParseClusters(ClustersField(userOverride, sliderValue)) ==
      if userOverride && |Digits(App.Magnitude(sliderValue))| <= App.MaxStrDigits then Some(sliderValue) else None
    ensures App.ParseClusters(ClustersField(userOverride, sliderValue)).Some? ==>
      App.KMin <= App.ClampClusters(App.ParseClusters(ClustersField(userOverride, sliderValue)).value) <= App.KMax
  {
    if userOverride {
      App.ParseClustersOfDecimal(sliderValue);
    }
  }

  /** Entries whose ids are below best_k give cards numbered 1..best_k. */
  lemma CardNumbersWithinBestK(es: seq<Script.ClusterEntry>, bestK: int)
    requires forall e :: e in es ==> e.id < bestK
    ensures forall c :: c in Script.ClusterCards(es) ==> 1 <= c.number <= bestK
  {
    Script.CardsMatchEntries(es);
  }
}
