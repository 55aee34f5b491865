/**
 * The decision rules of the Flask back end (cosmic_app/app.py): temperature defaulting
 * and clamping for the two chart endpoints, the Wien relation, parsing of the optional
 * cluster count, the choice of best_k, the five-way labelling of clusters, the
 * construction of cluster_info and the fit-in-512 resize size.
 * OpenCV, KMeans and the silhouette score are outside the model: the labels KMeans
 * assigns and the score of each candidate k are parameters.
 */
module App {
  import opened Common

  // ---------------------------------------------------------------------------
  // Wien's displacement law
  // ---------------------------------------------------------------------------

  /** Wien's displacement constant b, in metre-kelvin. */
  const WienB: real := 0.002898

  /** Peak wavelength (metres) of a black body at the given temperature (kelvin). */
  function WienLambdaMax(temperature: real): (peak: real)
    requires temperature != 0.0
    ensures peak * temperature == WienB
    ensures temperature > 0.0 ==> peak > 0.0
  {
    WienB / temperature
  }

  /** A hotter body peaks at a strictly shorter wavelength. */
  lemma HotterPeaksShorter(cooler: real, hotter: real)
    requires 0.0 < cooler < hotter
    ensures WienLambdaMax(hotter) < WienLambdaMax(cooler)
  {
    var a, b := WienLambdaMax(hotter), WienLambdaMax(cooler);
    assert b - a == WienB * (hotter - cooler) / (hotter * cooler);
    assert hotter * cooler > 0.0;
    assert WienB * (hotter - cooler) > 0.0;
  }

  // ---------------------------------------------------------------------------
  // Temperature of the /wien and /intensity requests
  // ---------------------------------------------------------------------------

  /**
   * The `temperature` member of a POSTed JSON body, as `payload.get('temperature', 5000)`
   * hands it to `float`. A body that is not JSON, or a falsy one (`0`, `false`, `""`, `[]`,
   * `null`), becomes `{}`, so its key is Absent.
   * For a JSON string, `asFloat` is what `float` makes of the text (None when it raises).
   */
  datatype TemperatureParam =
    | Absent
    | JsonNumber(value: real)
    | JsonBool(flag: bool)
    | JsonString(asFloat: Option<real>)
    | JsonNull
    | JsonComposite

  const DefaultTemperature: real := 5000.0
  const MinTemperature: real := 100.0

  /** `float(...)` of the parameter: None where it raises TypeError or ValueError. */
  function FloatOf(p: TemperatureParam): (f: Option<real>)
    ensures p.JsonNull? || p.JsonComposite? || p == JsonString(None) <==> f.None?
    ensures p.Absent? ==> f == Some(DefaultTemperature)
    ensures p.JsonNumber? ==> f == Some(p.value)
    ensures p.JsonBool? ==> f == Some(if p.flag then 1.0 else 0.0)
    ensures p.JsonString? ==> f == p.asFloat
  {
    match p
    case Absent => Some(DefaultTemperature)
    case JsonNumber(v) => Some(v)
    case JsonBool(b) => Some(if b then 1.0 else 0.0)
    case JsonString(parsed) => parsed
    case JsonNull => None
    case JsonComposite => None
  }

  /** The temperature an endpoint computes with: the default on a parse failure, then at least 100 K. */
  function TemperatureUsed(p: TemperatureParam): (t: real)
    ensures t >= MinTemperature
    ensures FloatOf(p).None? ==> t == DefaultTemperature
    ensures FloatOf(p).Some? && FloatOf(p).value >= MinTemperature ==> t == FloatOf(p).value
    ensures FloatOf(p).Some? && FloatOf(p).value < MinTemperature ==> t == MinTemperature
  {
    var requested := match FloatOf(p) case Some(v) => v case None => DefaultTemperature;
    Max(MinTemperature, requested)
  }

  /** Sending back the temperature a response reports yields that same temperature. */
  lemma TemperatureUsedIsStable(p: TemperatureParam)
    ensures TemperatureUsed(JsonNumber(TemperatureUsed(p))) == TemperatureUsed(p)
  {
  }

  /**
   * `np.linspace(start, stop, num)` over the reals: sample i is start + i * step with
   * step = (stop - start) / (num - 1), except that numpy writes stop itself into the last
   * sample when there are at least two.
   */
  function Linspace(start: real, stop: real, num: nat): (xs: seq<real>)
    ensures |xs| == num
    ensures num >= 1 ==> xs[0] == start
    ensures num >= 2 ==> xs[num - 1] == stop
  {
    if num == 1 then [start]
    else
      var step := (stop - start) / ((num - 1) as real);
      seq(num, i requires 0 <= i < num => if i == num - 1 then stop else start + (i as real) * step)
  }

  lemma LinspaceBounds(start: real, stop: real, num: nat, i: nat)
    requires start <= stop && i < num
    ensures start <= Linspace(start, stop, num)[i] <= stop
  {
    if num > 1 && i < num - 1 {
      var d := (num - 1) as real;
      var step := (stop - start) / d;
      StepWithin(stop - start, d, i as real);
      assert Linspace(start, stop, num)[i] == start + (i as real) * step;
    }
  }

  /** With 0 <= k <= d, k steps of width / d stay within [0, width]. */
  lemma StepWithin(width: real, d: real, k: real)
    requires width >= 0.0 && d > 0.0 && 0.0 <= k <= d
    ensures 0.0 <= k * (width / d) <= width
  {
    var step := width / d;
    assert step >= 0.0;
    assert d * step == width;
    assert (d - k) * step >= 0.0;
  }

  /** The JSON body of a /wien response. */
  datatype WienResponse = WienResponse(lambdaMax: real, temperature: real, graphT: seq<real>, graphLambda: seq<real>)

  /** The /wien endpoint: the peak at the requested temperature and the curve over 1000..10000 K. */
  function WienLaw(p: TemperatureParam): (r: WienResponse)
    ensures r.temperature == TemperatureUsed(p) && r.temperature >= MinTemperature
    ensures r.lambdaMax == WienLambdaMax(r.temperature)
    ensures r.lambdaMax * r.temperature == WienB
    ensures |r.graphT| == 100 && |r.graphLambda| == 100
    ensures r.graphT[0] == 1000.0 && r.graphT[99] == 10000.0
    ensures forall i :: 0 <= i < 100 ==> 1000.0 <= r.graphT[i] <= 10000.0
    ensures forall i :: 0 <= i < 100 ==> r.graphLambda[i] * r.graphT[i] == WienB
  {
    var t := TemperatureUsed(p);
    var ts := Linspace(1000.0, 10000.0, 100);
    forall i | 0 <= i < 100 ensures 1000.0 <= ts[i] <= 10000.0 {
      LinspaceBounds(1000.0, 10000.0, 100, i);
    }
    WienResponse(WienLambdaMax(t), t, ts, seq(100, i requires 0 <= i < 100 => WienLambdaMax(ts[i])))
  }

  /** What the model keeps of a /intensity response: the temperature used and the wavelength grid. */
  datatype IntensityAxis = IntensityAxis(temperature: real, wavelengthsNm: seq<real>)

  function IntensityCurve(p: TemperatureParam): (r: IntensityAxis)
    ensures r.temperature == TemperatureUsed(p) && r.temperature >= MinTemperature
    ensures |r.wavelengthsNm| == 200
    ensures r.wavelengthsNm[0] == 100.0 && r.wavelengthsNm[199] == 3000.0
  {
    IntensityAxis(TemperatureUsed(p), Linspace(100.0, 3000.0, 200))
  }

  // ---------------------------------------------------------------------------
  // The optional `clusters` form field: Python's int() on a string
  // ---------------------------------------------------------------------------

  /** The ASCII whitespace that int() strips from both ends. */
  predicate IsSpace(c: char) {
    c == ' ' || c == '\t' || c == '\n' || c == '\r' || c == '\U{000B}' || c == '\U{000C}'
  }

  function TrimStart(s: string): string {
    if |s| > 0 && IsSpace(s[0]) then TrimStart(s[1..]) else s
  }

  function TrimEnd(s: string): string {
    if |s| > 0 && IsSpace(s[|s| - 1]) then TrimEnd(s[..|s| - 1]) else s
  }

  /** Digits with single underscores allowed between two digits, as int() accepts them. */
  predicate IsDigitRun(s: string) {
    && |s| > 0
    && IsDigit(s[0])
    && IsDigit(s[|s| - 1])
    && (forall i :: 0 <= i < |s| ==> IsDigit(s[i]) || s[i] == '_')
    && (forall i :: 0 <= i < |s| - 1 ==> s[i] == '_' ==> s[i + 1] != '_')
  }

  /** The value of a digit run, underscores being separators only. */
  function RunValue(s: string): nat
    requires forall i :: 0 <= i < |s| ==> IsDigit(s[i]) || s[i] == '_'
  {
    if |s| == 0 then 0
    else if s[|s| - 1] == '_' then RunValue(s[..|s| - 1])
    else 10 * RunValue(s[..|s| - 1]) + DigitValue(s[|s| - 1])
  }

  /** The number of digits of a run, underscores not counted. */
  function DigitCount(s: string): nat {
    if |s| == 0 then 0
    else DigitCount(s[..|s| - 1]) + (if s[|s| - 1] == '_' then 0 else 1)
  }

  /**
   * CPython's default limit on the digits of a decimal string int() converts
   * (sys.int_info.default_max_str_digits); a longer one raises ValueError.
   */
  const MaxStrDigits: nat := 4300

  /** What int() accepts once the whitespace is stripped: an optional sign and a digit run within the limit. */
  predicate IsIntLiteral(t: string) {
    var run := if |t| > 0 && (t[0] == '+' || t[0] == '-') then t[1..] else t;
    IsDigitRun(run) && DigitCount(run) <= MaxStrDigits
  }

  /** `int(s)` for a base-10 string: None where Python raises ValueError. */
  function ParseInt(s: string): (r: Option<int>)
    ensures r.Some? <==> IsIntLiteral(TrimEnd(TrimStart(s)))
    ensures r.Some? && r.value < 0 ==> TrimEnd(TrimStart(s))[0] == '-'
  {
    var t := TrimEnd(TrimStart(s));
    if |t| > 0 && (t[0] == '+' || t[0] == '-') then
      if IsDigitRun(t[1..]) && DigitCount(t[1..]) <= MaxStrDigits then
        var v := RunValue(t[1..]) as int;
        Some(if t[0] == '-' then -v else v)
      else None
    else if IsDigitRun(t) && DigitCount(t) <= MaxStrDigits then Some(RunValue(t))
    else None
  }

  /** `request.form.get('clusters')` turned into the user's cluster count, if any. */
  function ParseClusters(raw: Option<string>): (userClusters: Option<int>)
    ensures raw.None? || raw == Some("") ==> userClusters.None?
    ensures raw.Some? && raw.value != "" ==> userClusters == ParseInt(raw.value)
  {
    match raw
    case None => None
    case Some(s) => if s == "" then None else ParseInt(s)
  }

  lemma {:induction false} RunValueOfDigits(n: nat)
    ensures IsDigitRun(Digits(n))
    ensures RunValue(Digits(n)) == n
    ensures DigitCount(Digits(n)) == |Digits(n)|
  {
    DigitsAreDigits(n);
    var s := Digits(n);
    if n >= 10 {
      RunValueOfDigits(n / 10);
      assert s[..|s| - 1] == Digits(n / 10);
      DigitValueOfChar(n % 10);
    } else {
      DigitValueOfChar(n);
    }
  }

  /** The magnitude of an integer, whose decimal digits int() counts against its limit. */
  function Magnitude(n: int): nat { if n < 0 then -n else n }

  /** The facts about a decimal spelling that int() depends on: no surrounding space, a sign only when negative, then the digits. */
  lemma DecimalShape(n: int)
    ensures var s, run := DecimalOf(n), Digits(Magnitude(n));
      && TrimEnd(TrimStart(s)) == s
      && IsDigitRun(run) && RunValue(run) == Magnitude(n) && DigitCount(run) == |run|
      && (n < 0 ==> s[0] == '-' && s[1..] == run)
      && (n >= 0 ==> s == run && s[0] != '+' && s[0] != '-')
  {
    var s, run := DecimalOf(n), Digits(Magnitude(n));
    DigitsAreDigits(Magnitude(n));
    RunValueOfDigits(Magnitude(n));
    assert !IsSpace(s[0]);
    assert TrimStart(s) == s;
    assert !IsSpace(s[|s| - 1]);
    if n < 0 {
      assert s[1..] == run;
    }
  }

  /** int() reads back the decimal spelling of every integer of at most 4300 digits. */
  lemma ParseIntOfDecimal(n: int)
    requires |Digits(Magnitude(n))| <= MaxStrDigits
    ensures ParseInt(DecimalOf(n)) == Some(n)
  {
    DecimalShape(n);
  }

  /** The decimal spelling of an integer of more than 4300 digits makes int() raise. */
  lemma ParseIntRejectsLongDecimal(n: int)
    requires |Digits(Magnitude(n))| > MaxStrDigits
    ensures ParseInt(DecimalOf(n)) == None
  {
    DecimalShape(n);
  }

  /** A form field carrying a decimal integer is read as that integer, unless it is over the digit limit. */
  lemma ParseClustersOfDecimal(n: int)
    ensures ParseClusters(Some(DecimalOf(n))) ==
      if |Digits(Magnitude(n))| <= MaxStrDigits then Some(n) else None
  {
    if |Digits(Magnitude(n))| <= MaxStrDigits {
      ParseIntOfDecimal(n);
    } else {
      ParseIntRejectsLongDecimal(n);
    }
  }

  lemma ParseIntExamples()
    ensures ParseInt(" 7 ") == Some(7)
    ensures ParseInt("1_0") == Some(10)
    ensures ParseInt("-4") == Some(-4)
    ensures ParseInt("abc") == None
    ensures ParseInt("1__0") == None
  {
    SpacedSeven();
    UnderscoredTen();
    MinusFour();
    LettersRejected();
    DoubleUnderscoreRejected();
  }

  lemma LettersRejected()
    ensures ParseInt("abc") == None
  {
    assert !IsSpace('a') && !IsSpace('c') && !IsDigit('a');
    assert TrimStart("abc") == "abc" && TrimEnd("abc") == "abc";
  }

  lemma DoubleUnderscoreRejected()
    ensures ParseInt("1__0") == None
  {
    assert !IsSpace('1') && !IsSpace('0');
    assert TrimStart("1__0") == "1__0" && TrimEnd("1__0") == "1__0";
    assert "1__0"[1] == '_' && "1__0"[2] == '_';
    assert !IsDigitRun("1__0");
  }

  lemma SpacedSeven()
    ensures ParseInt(" 7 ") == Some(7)
  {
    assert TrimStart(" 7 ") == "7 ";
    assert TrimEnd("7 ") == "7";
    assert "7"[..0] == "";
  }

  lemma UnderscoredTen()
    ensures ParseInt("1_0") == Some(10)
  {
    assert "1_0"[..2] == "1_" && "1_"[..1] == "1" && "1"[..0] == "";
    assert DigitCount("1_0") == 2;
    assert RunValue("1_0") == 10;
  }

  lemma MinusFour()
    ensures ParseInt("-4") == Some(-4)
  {
    assert "-4"[1..] == "4" && "4"[..0] == "";
  }

  // ---------------------------------------------------------------------------
  // Choice of best_k
  // ---------------------------------------------------------------------------

  const KMin: int := 2
  const KMax: int := 10
  const DefaultK: int := 3
  const MinPixelsForSearch: nat := 50

  /** The user's count pulled into [2, 10]: `max(k_min, min(user_clusters, k_max))`. */
  function ClampClusters(user: int): (k: int)
    ensures KMin <= k <= KMax
    ensures KMin <= user <= KMax ==> k == user
    ensures user < KMin ==> k == KMin
    ensures user > KMax ==> k == KMax
  {
    MaxInt(KMin, MinInt(user, KMax))
  }

  /**
   * Candidate k got a score: k is in 2..10, there are more pixels than k, and neither
   * KMeans nor the silhouette score raised (score(k) is None when they did).
   */
  ghost predicate Scored(pixelCount: nat, score: int -> Option<real>, k: int) {
    KMin <= k <= KMax && pixelCount > k && score(k).Some?
  }

  /** No candidate's score rises above the initial best_score of -1. */
  ghost predicate NoScoreAboveBaseline(pixelCount: nat, score: int -> Option<real>) {
    forall k :: Scored(pixelCount, score, k) ==> score(k).value <= -1.0
  }

  /** k has the greatest score above -1, and every smaller candidate scored strictly less. */
  ghost predicate IsFirstBest(pixelCount: nat, score: int -> Option<real>, k: int) {
    && Scored(pixelCount, score, k)
    && score(k).value > -1.0
    && (forall j :: Scored(pixelCount, score, j) ==> score(j).value <= score(k).value)
    && (forall j :: Scored(pixelCount, score, j) && j < k ==> score(j).value < score(k).value)
  }

  /** The silhouette search: only a strictly greater score replaces the current best. */
  method AutoBestK(pixelCount: nat, score: int -> Option<real>) returns (bestK: int)
    ensures NoScoreAboveBaseline(pixelCount, score) ==> bestK == DefaultK
    ensures !NoScoreAboveBaseline(pixelCount, score) ==> IsFirstBest(pixelCount, score, bestK)
  {
    bestK := DefaultK;
    var bestScore: real := -1.0;
    for k := KMin to KMax + 1
      invariant bestScore >= -1.0
      invariant bestScore == -1.0 ==> bestK == DefaultK
      invariant bestScore > -1.0 ==>
        KMin <= bestK < k && Scored(pixelCount, score, bestK) && score(bestK).value == bestScore
      invariant forall j :: j < k && Scored(pixelCount, score, j) ==> score(j).value <= bestScore
      invariant bestScore > -1.0 ==>
        forall j :: j < bestK && Scored(pixelCount, score, j) ==> score(j).value < bestScore
    {
      if pixelCount <= k {
        continue;
      }
      var s := score(k);
      if s.Some? && s.value > bestScore {
        bestScore := s.value;
        bestK := k;
      }
    }
  }

  /** best_k as process_image chooses it. */
  method SelectBestK(pixelCount: nat, userClusters: Option<int>, score: int -> Option<real>)
    returns (bestK: int)
    ensures KMin <= bestK <= KMax
    ensures pixelCount < MinPixelsForSearch ==> bestK == DefaultK
    ensures pixelCount >= MinPixelsForSearch && userClusters.Some? ==>
      bestK == ClampClusters(userClusters.value)
    ensures pixelCount >= MinPixelsForSearch && userClusters.None? ==>
      if NoScoreAboveBaseline(pixelCount, score) then bestK == DefaultK
      else IsFirstBest(pixelCount, score, bestK)
  {
    bestK := DefaultK;
    if pixelCount >= MinPixelsForSearch {
      if userClusters.None? {
        bestK := AutoBestK(pixelCount, score);
      } else {
        bestK := ClampClusters(userClusters.value);
      }
    }
  }

  // ---------------------------------------------------------------------------
  // Cluster interpretation
  // ---------------------------------------------------------------------------

  datatype Label = DarkSpace | Stars | Dust | HighEnergy | Medium

  function Max3(a: real, b: real, c: real): real { Max(Max(a, b), c) }

  /**
   * The ordered tests of process_image on a cluster's average optical, infrared and
   * x-ray values, described here by what each label means on its own.
   */
  function Classify(optical: real, infrared: real, xray: real): (l: Label)
    ensures l == DarkSpace <==> optical < 50.0 && infrared < 50.0 && xray < 50.0
    ensures l == Stars <==> optical > 150.0 && optical >= infrared && optical >= xray
    ensures l == Dust <==>
      infrared >= 50.0 && infrared >= optical && infrared >= xray && !(optical == infrared && optical > 150.0)
    ensures l == HighEnergy <==>
      xray >= 50.0 && xray > infrared && xray >= optical && !(optical == xray && optical > 150.0)
    ensures l == Medium <==> 50.0 <= optical <= 150.0 && optical > infrared && optical > xray
  {
    var m := Max3(optical, infrared, xray);
    if m < 50.0 then DarkSpace
    else if optical == m && optical > 150.0 then Stars
    else if infrared == m then Dust
    else if xray == m then HighEnergy
    else Medium
  }

  function LabelText(l: Label): string {
    match l
    case DarkSpace => "Dark Space"
    case Stars => "Bright Regions (Stars)"
    case Dust => "Dust / Nebula"
    case HighEnergy => "High Energy Regions"
    case Medium => "Medium Intensity"
  }

  function Description(l: Label): string {
    match l
    case DarkSpace => "Low energy regions with minimal emissions"
    case Stars => "High optical brightness indicating stellar objects"
    case Dust => "Strong infrared signature from dust and gas clouds"
    case HighEnergy => "Intense X-ray emissions from energetic processes"
    case Medium => "Moderate energy emissions across wavelengths"
  }

  function Icon(l: Label): string {
    match l
    case DarkSpace => "\U{1F30C}"
    case Stars => "\U{2B50}"
    case Dust => "\U{1F32B}\U{FE0F}"
    case HighEnergy => "\U{1F4A5}"
    case Medium => "\U{1F506}"
  }

  /** One pixel of the three synthetic channels KMeans clusters on. */
  datatype Pixel = Pixel(optical: real, infrared: real, xray: real)

  datatype Channel = Optical | Infrared | Xray

  function ChannelOf(p: Pixel, c: Channel): real {
    match c
    case Optical => p.optical
    case Infrared => p.infrared
    case Xray => p.xray
  }

  /** `pixels[labels == id]`: the pixels KMeans put in cluster id, in order. */
  function Members(pixels: seq<Pixel>, labels: seq<int>, id: int): (ms: seq<Pixel>)
    requires |labels| == |pixels|
    ensures |ms| == multiset(labels)[id] && |ms| <= |pixels|
    ensures |ms| > 0 <==> id in labels
    ensures forall p :: p in ms ==> p in pixels
  {
    if |pixels| == 0 then []
    else
      var rest := Members(pixels[1..], labels[1..], id);
      assert labels == [labels[0]] + labels[1..];
      assert multiset(labels) == multiset{labels[0]} + multiset(labels[1..]);
      if labels[0] == id then [pixels[0]] + rest else rest
  }

  /** A cluster holds every pixel labelled with its id, and only such pixels. */
  lemma MembersAreLabelled(pixels: seq<Pixel>, labels: seq<int>, id: int)
    requires |labels| == |pixels|
    ensures forall i :: 0 <= i < |pixels| && labels[i] == id ==> pixels[i] in Members(pixels, labels, id)
    ensures forall p :: p in Members(pixels, labels, id) ==>
      exists i :: 0 <= i < |pixels| && labels[i] == id && pixels[i] == p
  {
    LabelledAreMembers(pixels, labels, id);
    MembersAreFromLabelled(pixels, labels, id);
  }

  lemma {:induction false} LabelledAreMembers(pixels: seq<Pixel>, labels: seq<int>, id: int)
    requires |labels| == |pixels|
    ensures forall i :: 0 <= i < |pixels| && labels[i] == id ==> pixels[i] in Members(pixels, labels, id)
  {
    if |pixels| > 0 {
      var ms, rest := Members(pixels, labels, id), Members(pixels[1..], labels[1..], id);
      LabelledAreMembers(pixels[1..], labels[1..], id);
      assert ms == if labels[0] == id then [pixels[0]] + rest else rest;
      forall i | 1 <= i < |pixels| && labels[i] == id ensures pixels[i] in ms {
        assert labels[1..][i - 1] == id && pixels[1..][i - 1] == pixels[i];
      }
    }
  }

  lemma {:induction false} MembersAreFromLabelled(pixels: seq<Pixel>, labels: seq<int>, id: int)
    requires |labels| == |pixels|
    ensures forall p :: p in Members(pixels, labels, id) ==>
      exists i :: 0 <= i < |pixels| && labels[i] == id && pixels[i] == p
  {
    if |pixels| > 0 {
      var ms, rest := Members(pixels, labels, id), Members(pixels[1..], labels[1..], id);
      MembersAreFromLabelled(pixels[1..], labels[1..], id);
      assert ms == if labels[0] == id then [pixels[0]] + rest else rest;
      forall p | p in ms ensures exists i :: 0 <= i < |pixels| && labels[i] == id && pixels[i] == p {
        if p in rest {
          var j :| 0 <= j < |pixels| - 1 && labels[1..][j] == id && pixels[1..][j] == p;
          assert labels[j + 1] == id && pixels[j + 1] == p;
        } else {
          assert labels[0] == id && pixels[0] == p;
        }
      }
    }
  }

  /** The positions where `labels == id` is true, in increasing order. */
  function LabelledIndices(labels: seq<int>, id: int): (idx: seq<nat>)
    ensures forall j :: 0 <= j < |idx| ==> idx[j] < |labels| && labels[idx[j]] == id
  {
    if |labels| == 0 then []
    else
      var rest := LabelledIndices(labels[1..], id);
      var shifted := Shifted(rest);
      if labels[0] == id then [0] + shifted else shifted
  }

  function Shifted(idx: seq<nat>): (r: seq<nat>)
    ensures |r| == |idx| && forall j :: 0 <= j < |idx| ==> r[j] == idx[j] + 1
  {
    seq(|idx|, j requires 0 <= j < |idx| => idx[j] + 1)
  }

  predicate Increasing(idx: seq<nat>) {
    forall j, k :: 0 <= j < k < |idx| ==> idx[j] < idx[k]
  }

  /** The mask's positions are exactly the indices labelled id, each once and in order. */
  lemma LabelledIndicesAreTheMask(labels: seq<int>, id: int)
    ensures Increasing(LabelledIndices(labels, id))
    ensures forall i :: 0 <= i < |labels| && labels[i] == id ==> i in LabelledIndices(labels, id)
  {
    LabelledIndicesIncrease(labels, id);
    LabelledIndicesComplete(labels, id);
  }

  lemma {:induction false} LabelledIndicesIncrease(labels: seq<int>, id: int)
    ensures Increasing(LabelledIndices(labels, id))
  {
    if |labels| > 0 {
      var rest := LabelledIndices(labels[1..], id);
      LabelledIndicesIncrease(labels[1..], id);
      ShiftedIncreases(rest);
      if labels[0] == id {
        FrontIncreases(Shifted(rest));
      }
    }
  }

  lemma ShiftedIncreases(idx: seq<nat>)
    requires Increasing(idx)
    ensures Increasing(Shifted(idx)) && forall j :: 0 <= j < |idx| ==> Shifted(idx)[j] > 0
  {
    var r := Shifted(idx);
    forall j, k | 0 <= j < k < |r| ensures r[j] < r[k] {
      assert idx[j] < idx[k];
    }
  }

  lemma FrontIncreases(idx: seq<nat>)
    requires Increasing(idx) && forall j :: 0 <= j < |idx| ==> idx[j] > 0
    ensures Increasing([0] + idx)
  {
    var r := [0] + idx;
    forall j, k | 0 <= j < k < |r| ensures r[j] < r[k] {
      assert r[k] == idx[k - 1];
      if j > 0 {
        assert r[j] == idx[j - 1];
      }
    }
  }

  lemma {:induction false} LabelledIndicesComplete(labels: seq<int>, id: int)
    ensures var idx := LabelledIndices(labels, id);
      forall i :: 0 <= i < |labels| && labels[i] == id ==> i in idx
  {
    if |labels| > 0 {
      var rest := LabelledIndices(labels[1..], id);
      LabelledIndicesComplete(labels[1..], id);
      var idx := LabelledIndices(labels, id);
      assert idx == if labels[0] == id then [0] + Shifted(rest) else Shifted(rest);
      forall i | 1 <= i < |labels| && labels[i] == id ensures i in idx {
        assert labels[1..][i - 1] == id;
        var j :| 0 <= j < |rest| && rest[j] == i - 1;
        assert Shifted(rest)[j] == i;
      }
    }
  }

  /** The pixels at the given positions, in the order of the positions. */
  function Pick(pixels: seq<Pixel>, idx: seq<nat>): (ps: seq<Pixel>)
    requires forall j :: 0 <= j < |idx| ==> idx[j] < |pixels|
    ensures |ps| == |idx| && forall j :: 0 <= j < |idx| ==> ps[j] == pixels[idx[j]]
  {
    seq(|idx|, j requires 0 <= j < |idx| => pixels[idx[j]])
  }

  /**
   * `pixels[labels == id]` as numpy's boolean indexing defines it: the image's pixels at the
   * positions the mask selects, so each labelled pixel occurs exactly once.
   */
  lemma {:induction false} MembersAreMasked(pixels: seq<Pixel>, labels: seq<int>, id: int)
    requires |labels| == |pixels|
    ensures Members(pixels, labels, id) == Pick(pixels, LabelledIndices(labels, id))
  {
    if |pixels| > 0 {
      MembersAreMasked(pixels[1..], labels[1..], id);
      var rest := LabelledIndices(labels[1..], id);
      PickShifted(pixels, rest);
      if labels[0] == id {
        PickFront(pixels, Shifted(rest));
      }
    }
  }

  lemma PickShifted(pixels: seq<Pixel>, idx: seq<nat>)
    requires |pixels| > 0 && forall j :: 0 <= j < |idx| ==> idx[j] < |pixels| - 1
    ensures Pick(pixels, Shifted(idx)) == Pick(pixels[1..], idx)
  {
    var l, r := Pick(pixels, Shifted(idx)), Pick(pixels[1..], idx);
    forall j | 0 <= j < |idx| ensures l[j] == r[j] {
      assert pixels[1..][idx[j]] == pixels[idx[j] + 1];
    }
  }

  lemma PickFront(pixels: seq<Pixel>, idx: seq<nat>)
    requires |pixels| > 0 && forall j :: 0 <= j < |idx| ==> idx[j] < |pixels|
    ensures Pick(pixels, [0] + idx) == [pixels[0]] + Pick(pixels, idx)
  {
    var l, r := Pick(pixels, [0] + idx), [pixels[0]] + Pick(pixels, idx);
    forall j | 1 <= j < |l| ensures l[j] == r[j] {
      assert ([0] + idx)[j] == idx[j - 1];
    }
  }

  function Sum(ps: seq<Pixel>, c: Channel): real {
    if |ps| == 0 then 0.0 else ChannelOf(ps[0], c) + Sum(ps[1..], c)
  }

  /** `np.mean` of one channel over a non-empty cluster. */
  function Mean(ps: seq<Pixel>, c: Channel): (m: real)
    requires |ps| > 0
    ensures m * (|ps| as real) == Sum(ps, c)
  {
    Sum(ps, c) / (|ps| as real)
  }

  lemma {:induction false} SumBelow(ps: seq<Pixel>, c: Channel, bound: real)
    requires forall p :: p in ps ==> ChannelOf(p, c) < bound
    requires |ps| > 0
    ensures Sum(ps, c) < (|ps| as real) * bound
  {
    if |ps| > 1 {
      SumBelow(ps[1..], c, bound);
    }
  }

  /** A cluster whose every pixel is below the threshold on each channel averages below it. */
  lemma MeanBelow(ps: seq<Pixel>, c: Channel, bound: real)
    requires forall p :: p in ps ==> ChannelOf(p, c) < bound
    requires |ps| > 0
    ensures Mean(ps, c) < bound
  {
    SumBelow(ps, c, bound);
    var n := |ps| as real;
    assert Mean(ps, c) * n == Sum(ps, c);
  }

  /** One value of cluster_info (the averages are kept unrounded); `labelText` is its 'label' member. */
  datatype Interpretation = Interpretation(
    category: Label, labelText: string, description: string, icon: string,
    avgOptical: real, avgInfrared: real, avgXray: real)

  function Interpret(optical: real, infrared: real, xray: real): (r: Interpretation)
    ensures r.category == Classify(optical, infrared, xray)
    ensures r.labelText == LabelText(r.category)
    ensures r.description == Description(r.category) && r.icon == Icon(r.category)
    ensures r.avgOptical == optical && r.avgInfrared == infrared && r.avgXray == xray
  {
    var l := Classify(optical, infrared, xray);
    Interpretation(l, LabelText(l), Description(l), Icon(l), optical, infrared, xray)
  }

  function Summarize(ms: seq<Pixel>): Interpretation
    requires |ms| > 0
  {
    Interpret(Mean(ms, Optical), Mean(ms, Infrared), Mean(ms, Xray))
  }

  /** A cluster that is dark on every pixel is labelled Dark Space. */
  lemma DarkClusterIsDarkSpace(ms: seq<Pixel>)
    requires |ms| > 0
    requires forall p :: p in ms ==> p.optical < 50.0 && p.infrared < 50.0 && p.xray < 50.0
    ensures Summarize(ms).category == DarkSpace
  {
    MeanBelow(ms, Optical, 50.0);
    MeanBelow(ms, Infrared, 50.0);
    MeanBelow(ms, Xray, 50.0);
  }

  /** The cluster_info dictionary: one entry per cluster id in range(best_k) that has a pixel. */
  method BuildClusterInfo(bestK: nat, pixels: seq<Pixel>, labels: seq<int>)
    returns (info: map<int, Interpretation>)
    requires |labels| == |pixels|
    ensures info.Keys == set id | 0 <= id < bestK && id in labels
    ensures forall id :: id in info ==> info[id] == Summarize(Members(pixels, labels, id))
  {
    info := map[];
    for id := 0 to bestK
      invariant forall j :: j in info <==> 0 <= j < id && j in labels
      invariant forall j :: j in info ==> |Members(pixels, labels, j)| > 0
      invariant forall j :: j in info ==> info[j] == Summarize(Members(pixels, labels, j))
    {
      var clusterPixels := Members(pixels, labels, id);
      if |clusterPixels| > 0 {
        info := info[id := Summarize(clusterPixels)];
      }
    }
    ghost var present := set j | 0 <= j < bestK && j in labels;
    assert forall j :: j in info.Keys <==> j in present;
  }

  // ---------------------------------------------------------------------------
  // Resize to fit within 512 x 512
  // ---------------------------------------------------------------------------

  const MaxSide: int := 512

  datatype Size = Size(width: int, height: int)

  /**
   * `scale = min(512 / width, 512 / height)`, then each side is `max(1, int(side * scale))`,
   * computed over the reals: the longer side becomes exactly 512 and the shorter keeps the
   * aspect ratio up to truncation. In double arithmetic `width * (512 / width)` can round
   * just below 512 (for a width of 49, say), so the source's longer side can be 511.
   */
  function FitWithin(width: int, height: int): (s: Size)
    requires width >= 1 && height >= 1
    ensures 1 <= s.width <= MaxSide && 1 <= s.height <= MaxSide
    ensures width >= height ==>
      s.width == MaxSide && s.height == MaxInt(1, (512.0 * (height as real) / (width as real)).Floor)
    ensures height >= width ==>
      s.height == MaxSide && s.width == MaxInt(1, (512.0 * (width as real) / (height as real)).Floor)
  {
    var w, h := width as real, height as real;
    var scale := Min(512.0 / w, 512.0 / h);
    FitFacts(w, h);
    Size(MaxInt(1, (w * scale).Floor), MaxInt(1, (h * scale).Floor))
  }

  lemma FitFacts(w: real, h: real)
    requires w >= 1.0 && h >= 1.0
    ensures w >= h ==> Min(512.0 / w, 512.0 / h) == 512.0 / w
    ensures h >= w ==> Min(512.0 / w, 512.0 / h) == 512.0 / h
    ensures w * (512.0 / w) == 512.0 && h * (512.0 / h) == 512.0
    ensures w >= h ==> h * (512.0 / w) == 512.0 * h / w && 512.0 * h / w <= 512.0
    ensures h >= w ==> w * (512.0 / h) == 512.0 * w / h && 512.0 * w / h <= 512.0
  {
    DivCancels(512.0, w);
    DivCancels(512.0, h);
    if w >= h {
      ScaleOrder(w, h);
      ScaledSide(h, w);
    }
    if h >= w {
      ScaleOrder(h, w);
      ScaledSide(w, h);
    }
  }

  lemma DivCancels(x: real, d: real)
    requires d > 0.0
    ensures d * (x / d) == x
  {
  }

  lemma ScaleOrder(longer: real, shorter: real)
    requires longer >= shorter >= 1.0
    ensures 512.0 / longer <= 512.0 / shorter
  {
    var a, b := 512.0 / longer, 512.0 / shorter;
    DivCancels(512.0, longer);
    DivCancels(512.0, shorter);
    assert a > 0.0;
    assert a * shorter <= a * longer;
  }

  lemma ScaledSide(shorter: real, longer: real)
    requires longer >= shorter >= 1.0
    ensures shorter * (512.0 / longer) == 512.0 * shorter / longer
    ensures 512.0 * shorter / longer <= 512.0
  {
    var q := 512.0 * shorter / longer;
    DivCancels(512.0 * shorter, longer);
    assert q * longer == 512.0 * shorter;
    assert 512.0 * shorter <= 512.0 * longer;
  }
}
