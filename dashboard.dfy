/** The dashboard's route analysis: the route returned by the routing service is
    cut into coloured segments, each colour costs a fixed penalty on a score
    that starts at 100, and the score picks the colour it is shown in.
    Every `Math.random()` the page draws is an explicit input here. */
module Dashboard {
  import opened Platform

  /** A point as the page holds it: `[lat, lng]`. */
  type Position = (real, real)

  /** The routing service's order for the same point: `[lng, lat]`. */
  function Swap(p: (real, real)): (real, real)
  {
    (p.1, p.0)
  }

  /** The `coordinates` of the route request: start and end, each as `[lng, lat]`. */
  function RequestCoordinates(start: Position, end: Position): seq<(real, real)>
  {
    [Swap(start), Swap(end)]
  }

  /** `geometry.coordinates.map((c) => [c[1], c[0]])` */
  function RouteFromGeometry(geometry: seq<(real, real)>): seq<Position>
  {
    seq(|geometry|, i requires 0 <= i < |geometry| => Swap(geometry[i]))
  }

  /** Swapping to the service's order and back again loses nothing: a geometry
      that echoes the request gives back the start and end points. */
  lemma SwapRoundTrip(route: seq<Position>, start: Position, end: Position)
    ensures RouteFromGeometry(RouteFromGeometry(route)) == route
    ensures RouteFromGeometry(RequestCoordinates(start, end)) == [start, end]
  {
  }

  datatype Color = Lime | Orange | Red

  /** The colour one draw gives a segment. */
  function Band(rand: real): Color
  {
    if rand > 0.6 && rand <= 0.85 then Orange
    else if rand > 0.85 then Red
    else Lime
  }

  /** The penalty a segment of each colour takes off the score. */
  function Risk(c: Color): nat
  {
    match c
    case Lime => 0
    case Orange => 10
    case Red => 25
  }

  /** A larger draw never gives a cheaper colour. */
  lemma BandMonotone(r1: real, r2: real)
    requires r1 <= r2
    ensures Risk(Band(r1)) <= Risk(Band(r2))
  {
  }

  /** `Math.floor(Math.random() * 30)` */
  function Incidents(rand: real): (r: int)
    ensures 0.0 <= rand < 1.0 ==> 0 <= r <= 29
  {
    (rand * 30.0).Floor
  }

  datatype Segment = Segment(from: Position, to: Position, color: Color, incidents: int)

  datatype HeatPoint = HeatPoint(lat: real, lng: real, intensity: real)

  /** The number of segments a route of `n` points has. */
  function SegmentCount(n: nat): nat
  {
    if n == 0 then 0 else n - 1
  }

  /** The sum of the penalties of `segs`. */
  function TotalRisk(segs: seq<Segment>): nat
    decreases |segs|
  {
    if segs == [] then 0 else TotalRisk(segs[..|segs| - 1]) + Risk(segs[|segs| - 1].color)
  }

  /** `Math.max(score, 0)` once every penalty is taken off 100. */
  function Score(segs: seq<Segment>): (r: int)
    ensures 0 <= r <= 100
    ensures r == 100 - TotalRisk(segs) || (r == 0 && TotalRisk(segs) >= 100)
  {
    if 100 - TotalRisk(segs) > 0 then 100 - TotalRisk(segs) else 0
  }

  /** Segment `j` joins points `j` and `j + 1` with the colour and incident
      count drawn for it. */
  ghost predicate SegmentFits(seg: Segment, coords: seq<Position>, bandDraws: seq<real>,
                              incidentDraws: seq<real>, j: int)
  {
    && 0 <= j < |bandDraws| && j < |incidentDraws| && j + 1 < |coords|
    && seg.from == coords[j] && seg.to == coords[j + 1]
    && seg.color == Band(bandDraws[j])
    && seg.incidents == Incidents(incidentDraws[j])
  }

  /** `coords.map((c) => [c[0], c[1], Math.random()])` */
  function HeatPoints(coords: seq<Position>, heatDraws: seq<real>): (heat: seq<HeatPoint>)
    requires |heatDraws| == |coords|
    ensures |heat| == |coords|
    ensures forall i :: 0 <= i < |heat| ==>
      heat[i].lat == coords[i].0 && heat[i].lng == coords[i].1 && heat[i].intensity == heatDraws[i]
  {
    seq(|coords|, k requires 0 <= k < |coords| => HeatPoint(coords[k].0, coords[k].1, heatDraws[k]))
  }

  /** `generateSegments`: the coloured segments, the safety score and the heat points. */
  method GenerateSegments(coords: seq<Position>, bandDraws: seq<real>, incidentDraws: seq<real>,
                          heatDraws: seq<real>)
    returns (segments: seq<Segment>, safetyScore: int, heat: seq<HeatPoint>)
    requires |bandDraws| == SegmentCount(|coords|) && |incidentDraws| == SegmentCount(|coords|)
    requires |heatDraws| == |coords|
    ensures |segments| == SegmentCount(|coords|)
    ensures forall j :: 0 <= j < |segments| ==> SegmentFits(segments[j], coords, bandDraws, incidentDraws, j)
    ensures safetyScore == Score(segments)
    ensures heat == HeatPoints(coords, heatDraws)
  {
    var score := 100;
    segments := [];
    var i := 0;
    while i < |coords|
      invariant 0 <= i <= |coords|
      invariant |segments| == i || (i == |coords| && |segments| == i - 1)
      invariant forall j :: 0 <= j < |segments| ==> SegmentFits(segments[j], coords, bandDraws, incidentDraws, j)
      invariant score == 100 - TotalRisk(segments)
    {
      if i != |coords| - 1 {
        var rand := bandDraws[i];
        var color := Lime;
        var risk := 0;
        if rand > 0.6 && rand <= 0.85 {
          color, risk := Orange, 10;
        } else if rand > 0.85 {
          color, risk := Red, 25;
        }
        assert color == Band(rand) && risk == Risk(color);
        score := score - risk;
        var segment := Segment(coords[i], coords[i + 1], color, Incidents(incidentDraws[i]));
        assert SegmentFits(segment, coords, bandDraws, incidentDraws, i);
        TotalRiskSnoc(segments, segment);
        segments := segments + [segment];
      }
      i := i + 1;
    }
    safetyScore := if score > 0 then score else 0;
    heat := HeatPoints(coords, heatDraws);
  }

  /** A route whose segments are all lime keeps the full score. */
  lemma {:induction false} AllLimeScoresFull(segs: seq<Segment>)
    requires forall i :: 0 <= i < |segs| ==> segs[i].color == Lime
    ensures Score(segs) == 100
  {
    AllLimeNoRisk(segs);
  }

  lemma {:induction false} AllLimeNoRisk(segs: seq<Segment>)
    requires forall i :: 0 <= i < |segs| ==> segs[i].color == Lime
    ensures TotalRisk(segs) == 0
    decreases |segs|
  {
    if segs != [] {
      AllLimeNoRisk(segs[..|segs| - 1]);
    }
  }

  lemma TotalRiskSnoc(segs: seq<Segment>, s: Segment)
    ensures TotalRisk(segs + [s]) == TotalRisk(segs) + Risk(s.color)
  {
    assert (segs + [s])[..|segs|] == segs;
  }

  /** One more segment never raises the score, and a non-lime one lowers a
      positive score. */
  lemma AppendNeverRaises(segs: seq<Segment>, s: Segment)
    ensures Score(segs + [s]) <= Score(segs)
    ensures s.color != Lime && Score(segs) > 0 ==> Score(segs + [s]) < Score(segs)
  {
    TotalRiskSnoc(segs, s);
  }

  /** How many segments of `segs` have colour `c`. */
  function Count(segs: seq<Segment>, c: Color): (n: nat)
    ensures n <= |segs|
  {
    if segs == [] then 0 else (if segs[0].color == c then 1 else 0) + Count(segs[1..], c)
  }

  lemma {:induction false} CountSnoc(segs: seq<Segment>, s: Segment, c: Color)
    ensures Count(segs + [s], c) == Count(segs, c) + (if s.color == c then 1 else 0)
    decreases |segs|
  {
    if segs != [] {
      assert (segs + [s])[1..] == segs[1..] + [s];
      CountSnoc(segs[1..], s, c);
    } else {
      assert [s][1..] == [];
    }
  }

  /** The penalty is 10 per orange segment and 25 per red one. */
  lemma {:induction false} TotalRiskByColour(segs: seq<Segment>)
    ensures TotalRisk(segs) == 10 * Count(segs, Orange) + 25 * Count(segs, Red)
    decreases |segs|
  {
    if segs != [] {
      var init, last := segs[..|segs| - 1], segs[|segs| - 1];
      assert segs == init + [last];
      TotalRiskByColour(init);
      CountSnoc(init, last, Orange);
      CountSnoc(init, last, Red);
    }
  }

  /** The colour class the score is shown in. */
  datatype ScoreColor = Green | Yellow | RedText

  function ScoreClass(score: int): ScoreColor
  {
    if score > 70 then Green else if score > 40 then Yellow else RedText
  }

  /** Three red segments are enough to show the score in red. */
  lemma ThreeRedsShowRed(segs: seq<Segment>)
    requires Count(segs, Red) >= 3
    ensures Score(segs) <= 25
    ensures ScoreClass(Score(segs)) == RedText
  {
    TotalRiskByColour(segs);
  }

  /** Without red segments and with at most two orange ones the score shows green. */
  lemma FewOrangesShowGreen(segs: seq<Segment>)
    requires Count(segs, Red) == 0 && Count(segs, Orange) <= 2
    ensures Score(segs) >= 80
    ensures ScoreClass(Score(segs)) == Green
  {
    TotalRiskByColour(segs);
  }

  /** `dashArray`: "10" for red segments, none otherwise. */
  function DashArray(c: Color): Option<string>
  {
    if c == Red then Some("10") else None
  }

  /** A segment is drawn dashed exactly when its draw was above 0.85. */
  lemma DashedIffHighDraw(rand: real)
    ensures DashArray(Band(rand)).Some? <==> rand > 0.85
    ensures DashArray(Band(rand)).Some? <==> Risk(Band(rand)) == 25
  {
  }
}
