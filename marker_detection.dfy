/**
 * The contour loop of `detect_marker`: picks the enclosing circle of a
 * circular contour and confirms it when some pixel of the 10x10 grey
 * region around the circle's centre is brighter than 50 (a binary
 * threshold at 50 followed by a non-zero count). Despite the intent of a
 * black centre dot, an all-dark centre region is not confirmed.
 *
 * The image work (grey conversion, blur, Canny edges, contour extraction,
 * contour area and arc length, minimal enclosing circle, the thresholded
 * 10x10 region around the centre and its non-zero pixel count) is done by
 * the vision library; each contour is modelled by the record of those
 * results. On a tracked frame the image searched already carries the drawn
 * prediction, and the region is cut at the truncated centre `int(x)`,
 * `int(y)`, so near the image border it may be clipped, wrapped or empty;
 * all of that is inside `dotPixels`.
 */
module MarkerDetection {

  datatype Option<T> = None | Some(value: T)

  /** A minimal enclosing circle `((x, y), radius)`. */
  datatype Circle = Circle(x: real, y: real, radius: real)

  /**
   * One contour as the detector sees it: its area, its closed arc length,
   * its minimal enclosing circle and the number of pixels brighter than 50
   * in the 10x10 grey region around that circle's centre.
   */
  datatype Contour = Contour(area: real, perimeter: real, enclosing: Circle, dotPixels: nat)

  /** The result of a detection: the returned flag and the position `(x, y, radius)`, `None` for three Nones. */
  datatype Detection = Detection(detected: bool, circle: Option<Circle>)

  /** np.pi as a decimal; it lies strictly between 3.14159 and 3.14160. */
  const PI: real := 3.141592653589793

  const MinArea: real := 1000.0
  const MinCircularity: real := 0.8

  /** 4 pi area / perimeter^2, which is 1 for a perfect disc. */
  function Circularity(area: real, perimeter: real): real
    requires perimeter != 0.0
  {
    4.0 * PI * (area / (perimeter * perimeter))
  }

  /** A contour passes the geometric test: non-zero perimeter, area over 1000, circularity over 0.8. */
  predicate Qualifies(c: Contour)
  {
    c.perimeter != 0.0 && c.area > MinArea && Circularity(c.area, c.perimeter) > MinCircularity
  }

  /** A qualifying contour with at least one pixel above the threshold in its centre region. */
  predicate Confirmed(c: Contour)
  {
    Qualifies(c) && c.dotPixels > 0
  }

  predicate AnyQualifies(cs: seq<Contour>)
  {
    exists k :: 0 <= k < |cs| && Qualifies(cs[k])
  }

  predicate AnyConfirmed(cs: seq<Contour>)
  {
    exists k :: 0 <= k < |cs| && Confirmed(cs[k])
  }

  /** The enclosing circle of the last qualifying contour, if any. */
  function LastQualifying(cs: seq<Contour>): Option<Circle>
  {
    if |cs| == 0 then None
    else if Qualifies(cs[|cs| - 1]) then Some(cs[|cs| - 1].enclosing)
    else LastQualifying(cs[..|cs| - 1])
  }

  /**
   * What `detect_marker` returns, stated independently of its loop: the
   * last qualifying contour's circle, and a flag that is true when some
   * contour is confirmed, false when none qualifies, and the incoming flag
   * otherwise.
   */
  function Detect(cs: seq<Contour>, markerDetected: bool): (r: Detection)
    ensures r.detected ==> r.circle.Some?
  {
    LastQualifyingNone(cs);
    Detection(AnyQualifies(cs) && (markerDetected || AnyConfirmed(cs)), LastQualifying(cs))
  }

  /**
   * The contour loop of `detect_marker`. Zero-perimeter contours are
   * skipped; every qualifying contour overwrites the position, before its
   * centre check; the flag is only ever set inside the loop and only cleared
   * afterwards, when nothing qualified.
   */
  method DetectMarker(contours: seq<Contour>, markerDetected: bool) returns (detected: bool, circle: Option<Circle>)
    ensures circle == LastQualifying(contours)
    ensures AnyConfirmed(contours) ==> detected
    ensures !AnyQualifies(contours) ==> !detected && circle == None
    ensures AnyQualifies(contours) && !AnyConfirmed(contours) ==> detected == markerDetected
    ensures Detection(detected, circle) == Detect(contours, markerDetected)
  {
    var contourDrawn := false;
    circle := None;
    detected := markerDetected;
    for i := 0 to |contours|
      invariant contourDrawn == AnyQualifies(contours[..i])
      invariant circle == LastQualifying(contours[..i])
      invariant detected == (markerDetected || AnyConfirmed(contours[..i]))
    {
      assert contours[..i + 1][..i] == contours[..i];
      PrefixExtended(contours, i);
      var c := contours[i];
      if c.perimeter == 0.0 {
        continue;
      }
      var circularity := Circularity(c.area, c.perimeter);
      if c.area > MinArea && circularity > MinCircularity {
        contourDrawn := true;
        circle := Some(c.enclosing);
        if c.dotPixels > 0 {
          detected := true;
        }
      }
    }
    assert contours[..|contours|] == contours;
    if !contourDrawn && detected {
      detected := false;
    }
    LastQualifyingNone(contours);
    if AnyConfirmed(contours) {
      var k :| 0 <= k < |contours| && Confirmed(contours[k]);
      assert Qualifies(contours[k]);
    }
  }

  /** How the two existential predicates grow when the prefix grows by one contour. */
  lemma PrefixExtended(cs: seq<Contour>, i: nat)
    requires i < |cs|
    ensures AnyQualifies(cs[..i + 1]) == (AnyQualifies(cs[..i]) || Qualifies(cs[i]))
    ensures AnyConfirmed(cs[..i + 1]) == (AnyConfirmed(cs[..i]) || Confirmed(cs[i]))
  {
    var p, q := cs[..i], cs[..i + 1];
    assert forall k :: 0 <= k < i ==> q[k] == p[k];
    assert q[i] == cs[i];
  }

  /** No circle is returned exactly when no contour qualifies. */
  lemma {:induction false} LastQualifyingNone(cs: seq<Contour>)
    ensures LastQualifying(cs) == None <==> !AnyQualifies(cs)
  {
    if |cs| > 0 {
      var init := cs[..|cs| - 1];
      LastQualifyingNone(init);
      assert forall k :: 0 <= k < |init| ==> init[k] == cs[k];
      if AnyQualifies(cs) && !Qualifies(cs[|cs| - 1]) {
        var k :| 0 <= k < |cs| && Qualifies(cs[k]);
        assert init[k] == cs[k];
      }
    }
  }

  /**
   * The returned circle is that of a qualifying contour at some index `k`,
   * and no contour after `k` qualifies: the last one wins, however round
   * the earlier ones are.
   */
  lemma {:induction false} LastQualifyingIsLast(cs: seq<Contour>)
    requires LastQualifying(cs).Some?
    ensures exists k :: 0 <= k < |cs| && Qualifies(cs[k]) && LastQualifying(cs) == Some(cs[k].enclosing)
                        && forall j :: k < j < |cs| ==> !Qualifies(cs[j])
  {
    var n := |cs|;
    if Qualifies(cs[n - 1]) {
      assert Qualifies(cs[n - 1]) && LastQualifying(cs) == Some(cs[n - 1].enclosing);
    } else {
      var init := cs[..n - 1];
      LastQualifyingIsLast(init);
      var k :| 0 <= k < |init| && Qualifies(init[k]) && LastQualifying(init) == Some(init[k].enclosing)
               && forall j :: k < j < |init| ==> !Qualifies(init[j]);
      assert init[k] == cs[k];
      assert forall j :: k < j < n - 1 ==> init[j] == cs[j];
    }
  }

  /** Conversely, the circle of a qualifying contour with nothing qualifying after it is the one returned. */
  lemma {:induction false} LastQualifyingOf(cs: seq<Contour>, k: nat)
    requires k < |cs| && Qualifies(cs[k])
    requires forall j :: k < j < |cs| ==> !Qualifies(cs[j])
    ensures LastQualifying(cs) == Some(cs[k].enclosing)
  {
    if k < |cs| - 1 {
      var init := cs[..|cs| - 1];
      assert init[k] == cs[k];
      assert forall j :: k < j < |init| ==> init[j] == cs[j];
      LastQualifyingOf(init, k);
    }
  }

  /**
   * A position can come back with a false flag: one round contour of area
   * 2000 and perimeter 160 (circularity about 0.98) with no pixel above
   * the threshold in its centre region, seen with the flag false.
   */
  lemma PositionWithoutConfirmation()
    ensures var c := Contour(2000.0, 160.0, Circle(320.0, 240.0, 25.0), 0);
            Detect([c], false) == Detection(false, Some(Circle(320.0, 240.0, 25.0)))
  {
    var c := Contour(2000.0, 160.0, Circle(320.0, 240.0, 25.0), 0);
    assert Circularity(2000.0, 160.0) == PI * 0.3125;
    assert Qualifies([c][0]);
    assert !Confirmed([c][0]);
  }

  /**
   * An earlier round contour whose centre region passes the threshold
   * confirms the marker even though a later qualifying contour whose centre
   * region does not supplies the position.
   */
  lemma ConfirmationFromAnotherContour()
    ensures var dotted := Contour(2000.0, 160.0, Circle(100.0, 100.0, 25.0), 7);
            var plain := Contour(3000.0, 200.0, Circle(400.0, 300.0, 31.0), 0);
            Detect([dotted, plain], false) == Detection(true, Some(Circle(400.0, 300.0, 31.0)))
  {
    var dotted := Contour(2000.0, 160.0, Circle(100.0, 100.0, 25.0), 7);
    var plain := Contour(3000.0, 200.0, Circle(400.0, 300.0, 31.0), 0);
    var cs := [dotted, plain];
    assert Circularity(2000.0, 160.0) == PI * 0.3125;
    assert Circularity(3000.0, 200.0) == PI * 0.3;
    assert Confirmed(cs[0]);
    assert Qualifies(cs[1]);
    assert cs[..1] == [dotted];
  }
}
