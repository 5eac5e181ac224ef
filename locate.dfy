/**
 * The tracker's locate feature: parsing a typed point or box, mapping it
 * from the active copy mode back to image (scene) coordinates, the box
 * outline with its corners put in order, and the colour of the pulsing
 * marker.
 */
module Locate {
  import opened Wrappers
  import opened Numerics
  import opened Frames
  import opened Text
  import opened Rects
  import CopyModes

  /**
   * The number pattern `[0-9]*\.?[0-9]+`: ASCII digits with at most one
   * decimal point, which may lead but may not trail. There is no sign and
   * no exponent.
   */
  predicate IsNumber(s: string)
  {
    var k := IndexOf(s, '.');
    if k == |s| then |s| > 0 && AllDigits(s)
    else AllDigits(s[..k]) && k + 1 < |s| && AllDigits(s[k + 1..])
  }

  function Pow10(n: nat): (p: nat)
    ensures p >= 1
  {
    if n == 0 then 1 else 10 * Pow10(n - 1)
  }

  /** `float(s)` for a matched number: the whole part plus the fraction digits over a power of ten. */
  function NumberValue(s: string): (v: real)
    requires IsNumber(s)
    ensures v >= 0.0
  {
    var k := IndexOf(s, '.');
    if k == |s| then DigitsValue(s) as real
    else DigitsValue(s[..k]) as real + DigitsValue(s[k + 1..]) as real / Pow10(|s| - k - 1) as real
  }

  /** A number is made of digits and at most one point, so it holds no whitespace, space or comma. */
  lemma NumberCharacters(s: string)
    requires IsNumber(s)
    ensures forall i :: 0 <= i < |s| ==> IsDigit(s[i]) || s[i] == '.'
    ensures NoSpace(s) && ' ' !in s && ',' !in s
  {
    var k := IndexOf(s, '.');
    if k < |s| {
      forall i | 0 <= i < |s|
        ensures IsDigit(s[i]) || s[i] == '.'
      {
        if i < k {
          assert s[..k][i] == s[i];
        } else if i > k {
          assert s[k + 1..][i - k - 1] == s[i];
        }
      }
    }
  }

  /** `str(n)` of a natural number is a number worth `n`. */
  lemma NatTextIsNumber(n: nat)
    ensures IsNumber(NatToString(n)) && NumberValue(NatToString(n)) == n as real
  {
    var s := NatToString(n);
    assert forall i :: 0 <= i < |s| ==> s[i] != '.';
  }

  /** A parsed request: a point or the two corners of a box. */
  datatype Parsed = Point(x: real, y: real) | BBox(x1: real, y1: real, x2: real, y2: real)

  /** The comma-separated fields of the input once it is stripped and its spaces removed. */
  function Fields(text: string): (parts: seq<string>)
    ensures |parts| >= 1
  {
    Split(RemoveSpaces(Strip(text)), ',')
  }

  /** Every field is a number, allowing whitespace other than spaces around it. */
  predicate AllNumbers(parts: seq<string>)
  {
    forall i :: 0 <= i < |parts| ==> IsNumber(Strip(parts[i]))
  }

  /**
   * `parse_coordinates`: four numbers make a box (tried first), two make
   * a point, anything else is rejected. The mode and the frame take no
   * part in parsing.
   */
  function Parse(text: string, mode: string, frame: FrameDict): (p: Option<Parsed>)
    ensures p.Some? <==> (|Fields(text)| == 4 || |Fields(text)| == 2) && AllNumbers(Fields(text))
    ensures p.Some? ==> (p.value.BBox? <==> |Fields(text)| == 4)
    ensures p.Some? && p.value.Point? ==> p.value.x >= 0.0 && p.value.y >= 0.0
    ensures p.Some? && p.value.BBox? ==> p.value.x1 >= 0.0 && p.value.y1 >= 0.0 && p.value.x2 >= 0.0 && p.value.y2 >= 0.0
  {
    var parts := Fields(text);
    if !AllNumbers(parts) then None
    else if |parts| == 4 then
      Some(BBox(NumberValue(Strip(parts[0])), NumberValue(Strip(parts[1])),
                NumberValue(Strip(parts[2])), NumberValue(Strip(parts[3]))))
    else if |parts| == 2 then
      Some(Point(NumberValue(Strip(parts[0])), NumberValue(Strip(parts[1]))))
    else None
  }

  /** The fields of numbers joined by commas are those numbers. */
  lemma FieldsOfNumbers(parts: seq<string>)
    requires |parts| >= 1 && forall i :: 0 <= i < |parts| ==> IsNumber(parts[i])
    ensures Fields(Join(parts, ',')) == parts
    ensures AllNumbers(parts)
  {
    forall i | 0 <= i < |parts|
      ensures NoSpace(parts[i]) && ' ' !in parts[i] && ',' !in parts[i] && Strip(parts[i]) == parts[i]
    {
      NumberCharacters(parts[i]);
      StripNoSpace(parts[i]);
    }
    var s := Join(parts, ',');
    JoinOfNumbers(parts);
    StripNoSpace(s);
    RemoveSpacesNone(s);
    SplitJoin(parts, ',');
  }

  lemma {:induction false} JoinOfNumbers(parts: seq<string>)
    requires |parts| >= 1 && forall i :: 0 <= i < |parts| ==> IsNumber(parts[i])
    ensures NoSpace(Join(parts, ',')) && ' ' !in Join(parts, ',')
    decreases |parts|
  {
    NumberCharacters(parts[0]);
    if |parts| > 1 {
      JoinOfNumbers(parts[1..]);
    }
  }

  /** Two numbers written as `a,b` parse back as the point they denote, whatever the mode and frame. */
  lemma ParsePointRoundTrip(a: string, b: string, mode: string, frame: FrameDict)
    requires IsNumber(a) && IsNumber(b)
    ensures Parse(a + "," + b, mode, frame) == Some(Point(NumberValue(a), NumberValue(b)))
  {
    var parts := [a, b];
    var text := a + "," + b;
    assert Fields(text) == parts && AllNumbers(parts) by {
      assert Join(parts, ',') == text by {
        assert Join(parts[1..], ',') == b;
      }
      FieldsOfNumbers(parts);
    }
    assert Strip(a) == a by { NumberCharacters(a); StripNoSpace(a); }
    assert Strip(b) == b by { NumberCharacters(b); StripNoSpace(b); }
    ParseTwoFields(text, mode, frame);
  }

  lemma ParseTwoFields(text: string, mode: string, frame: FrameDict)
    requires |Fields(text)| == 2 && AllNumbers(Fields(text))
    ensures Parse(text, mode, frame) == Some(Point(NumberValue(Strip(Fields(text)[0])), NumberValue(Strip(Fields(text)[1]))))
  {
  }

  lemma ParseFourFields(text: string, mode: string, frame: FrameDict)
    requires |Fields(text)| == 4 && AllNumbers(Fields(text))
    ensures Parse(text, mode, frame) == Some(BBox(NumberValue(Strip(Fields(text)[0])), NumberValue(Strip(Fields(text)[1])),
                                                  NumberValue(Strip(Fields(text)[2])), NumberValue(Strip(Fields(text)[3]))))
  {
  }

  /** Four numbers written as `a,b,c,d` parse back as the box they denote. */
  lemma ParseBBoxRoundTrip(a: string, b: string, c: string, d: string, mode: string, frame: FrameDict)
    requires IsNumber(a) && IsNumber(b) && IsNumber(c) && IsNumber(d)
    ensures Parse(a + "," + b + "," + c + "," + d, mode, frame) ==
      Some(BBox(NumberValue(a), NumberValue(b), NumberValue(c), NumberValue(d)))
  {
    var parts := [a, b, c, d];
    var text := a + "," + b + "," + c + "," + d;
    assert Fields(text) == parts && AllNumbers(parts) by {
      assert Join(parts, ',') == text by {
        assert parts[1..][1..][1..] == [d];
        assert Join(parts[1..][1..], ',') == c + "," + d;
        assert Join(parts[1..], ',') == b + "," + c + "," + d;
      }
      FieldsOfNumbers(parts);
    }
    assert Strip(a) == a by { NumberCharacters(a); StripNoSpace(a); }
    assert Strip(b) == b by { NumberCharacters(b); StripNoSpace(b); }
    assert Strip(c) == c by { NumberCharacters(c); StripNoSpace(c); }
    assert Strip(d) == d by { NumberCharacters(d); StripNoSpace(d); }
    ParseFourFields(text, mode, frame);
  }

  /** The number grammar accepts the usual examples, with their values. */
  lemma NumberExamples()
    ensures IsNumber("12") && NumberValue("12") == 12.0
    ensures IsNumber(".5") && NumberValue(".5") == 0.5
    ensures IsNumber("0.75") && NumberValue("0.75") == 0.75
  {
    WholeNumberExample();
    FractionExample();
    MixedNumberExample();
  }

  /** Digits alone: "12" is worth 12. */
  lemma WholeNumberExample()
    ensures IsNumber("12") && NumberValue("12") == 12.0
  {
    assert IndexOf("12", '.') == 2;
    assert "12"[..1] == "1" && "1"[..0] == "";
  }

  /** No whole part: ".5" is worth one half. */
  lemma FractionExample()
    ensures IsNumber(".5") && NumberValue(".5") == 0.5
  {
    assert IndexOf(".5", '.') == 0;
    assert ".5"[..0] == "" && ".5"[1..] == "5" && "5"[..0] == "";
  }

  /** Both parts: "0.75" is worth three quarters. */
  lemma MixedNumberExample()
    ensures IsNumber("0.75") && NumberValue("0.75") == 0.75
  {
    assert IndexOf("0.75", '.') == 1;
    assert "0.75"[..1] == "0" && "0"[..0] == "";
    assert "0.75"[2..] == "75" && "75"[..1] == "7" && "7"[..0] == "";
    assert Pow10(2) == 100;
  }

  /**
   * Whitespace other than a space next to a number is stripped with the
   * field, so `a,<c>b` is the point `(a, b)` for every whitespace character
   * `c` of `str.isspace`, an IDEOGRAPHIC SPACE U+3000 included.
   */
  lemma WhitespaceInPoint(a: string, c: char, b: string, mode: string, frame: FrameDict)
    requires IsNumber(a) && IsNumber(b) && IsSpace(c) && c != ' '
    ensures Parse(a + "," + [c] + b, mode, frame) == Some(Point(NumberValue(a), NumberValue(b)))
  {
    assert ' ' !in [c] && ',' !in [c] by {
      assert c != ',';
    }
    assert Strip([c] + b) == b by {
      NumberCharacters(b);
      StripDropsLeading(c, b);
      StripNoSpace(b);
    }
    PaddedPoint(a, [c], b, mode, frame);
  }

  /** A padding `p` without spaces or commas that `strip()` removes from the second field leaves the point `(a, b)`. */
  lemma PaddedPoint(a: string, p: string, b: string, mode: string, frame: FrameDict)
    requires IsNumber(a) && IsNumber(b) && ' ' !in p && ',' !in p && Strip(p + b) == b
    ensures Parse(a + "," + p + b, mode, frame) == Some(Point(NumberValue(a), NumberValue(b)))
  {
    var g := p + b;
    assert a + "," + p + b == a + "," + g;
    PaddedFields(a, p, b);
    StrippedFieldPoint(a, g, b, mode, frame);
  }

  /** A second field that strips to the number `b` gives the point `(a, b)`. */
  lemma StrippedFieldPoint(a: string, g: string, b: string, mode: string, frame: FrameDict)
    requires IsNumber(a) && IsNumber(b) && Fields(a + "," + g) == [a, g] && Strip(g) == b
    ensures Parse(a + "," + g, mode, frame) == Some(Point(NumberValue(a), NumberValue(b)))
  {
    var text := a + "," + g;
    assert Strip(a) == a by { NumberCharacters(a); StripNoSpace(a); }
    assert AllNumbers(Fields(text)) by {
      forall i | 0 <= i < |Fields(text)|
        ensures IsNumber(Strip(Fields(text)[i]))
      {
        if i == 0 {
          assert Fields(text)[i] == a;
        } else {
          assert Fields(text)[i] == g;
        }
      }
    }
    ParseTwoFields(text, mode, frame);
  }

  /** The padding stays at the head of the second field. */
  lemma PaddedFields(a: string, p: string, b: string)
    requires IsNumber(a) && IsNumber(b) && ' ' !in p && ',' !in p
    ensures Fields(a + "," + (p + b)) == [a, p + b]
  {
    var text := a + "," + (p + b);
    var parts := [a, p + b];
    NumberCharacters(a);
    NumberCharacters(b);
    assert Strip(text) == text by {
      assert text[0] == a[0] && text[|text| - 1] == b[|b| - 1];
      StripKeepsEnds(text);
    }
    assert RemoveSpaces(text) == text by {
      assert text == a + "," + p + b;
      RemoveSpacesNone(text);
    }
    assert Split(text, ',') == parts by {
      assert Join(parts, ',') == text;
      assert ',' !in p + b;
      SplitJoin(parts, ',');
    }
  }

  /** With an ideographic space U+3000 after the comma, "12,\u300034" is the point (12, 34). */
  lemma IdeographicSpaceExample(mode: string, frame: FrameDict)
    ensures Parse("12,\U{3000}34", mode, frame) == Some(Point(12.0, 34.0))
  {
    WholeNumberExample();
    ThirtyFourExample();
    assert "12" + "," + ['\U{3000}'] + "34" == "12,\U{3000}34";
    WhitespaceInPoint("12", '\U{3000}', "34", mode, frame);
  }

  /** Digits alone: "34" is worth 34. */
  lemma ThirtyFourExample()
    ensures IsNumber("34") && NumberValue("34") == 34.0
  {
    assert IndexOf("34", '.') == 2;
    assert "34"[..1] == "3" && "3"[..0] == "";
  }

  /** The number grammar refuses a trailing point, a sign, an exponent and the empty text. */
  lemma NotNumberExamples()
    ensures !IsNumber("5.") && !IsNumber("-1") && !IsNumber("1e3") && !IsNumber("")
  {
    assert IndexOf("5.", '.') == 1;
    assert IndexOf("-1", '.') == 2;
    assert !IsDigit("-1"[0]);
    assert IndexOf("1e3", '.') == 3;
    assert !IsDigit("1e3"[1]);
  }

  /**
   * `convert_to_scene_coords`: PERCENTAGE scales fractions by the frame
   * size (a missing key reading as 1, with no guard against 0), FRAME
   * COORDS passes through, SCREEN COORDS subtracts the frame origin, and
   * any other mode passes through.
   */
  function ConvertToSceneCoords(x: real, y: real, mode: string, frame: FrameDict): (p: (real, real))
    ensures mode == "PERCENTAGE" ==> p == (x * Get(frame, Width, 1) as real, y * Get(frame, Height, 1) as real)
    ensures mode == "SCREEN COORDS" ==> p.0 + Get(frame, X, 0) as real == x && p.1 + Get(frame, Y, 0) as real == y
    ensures mode != "PERCENTAGE" && mode != "SCREEN COORDS" ==> p == (x, y)
  {
    if mode == "PERCENTAGE" then
      (x * Get(frame, Width, 1) as real, y * Get(frame, Height, 1) as real)
    else if mode == "FRAME COORDS" then (x, y)
    else if mode == "SCREEN COORDS" then
      var fx := Get(frame, X, 0);
      var fy := Get(frame, Y, 0);
      (x - fx as real, y - fy as real)
    else (x, y)
  }

  /** The two numbers a point copy produces, as the locate box receives them. */
  function CopiedPair(t: CopyModes.CopyText): (real, real)
  {
    match t
    case Fractions(f) => if |f| >= 2 then (f[0], f[1]) else (0.0, 0.0)
    case Integers(n) => if |n| >= 2 then (n[0] as real, n[1] as real) else (0.0, 0.0)
  }

  /** Where locating the copied numbers of `(x, y)` in mode `m` lands. */
  function Relocated(m: CopyModes.Mode, x: real, y: real, frame: FrameDict): (real, real)
  {
    var t := CopiedPair(CopyModes.CopyPoint(m, x, y, frame));
    ConvertToSceneCoords(t.0, t.1, CopyModes.ModeName(m), frame)
  }

  /**
   * Locating what a copy produced, in the same mode, lands back on the
   * copied point: exactly for PERCENTAGE, and on the truncated point for
   * the two integer modes, for any frame of positive size. The copy side
   * is the screenshot GUI's `CopyModes.CopyPoint` and the locate side is
   * the tracker's parser and converter, so this pairs the two tools; the
   * tracker's own copy helper is not part of this model.
   */
  lemma LocateInvertsCopy(m: CopyModes.Mode, x: real, y: real, frame: FrameDict)
    requires Get(frame, Width, 1) >= 1 && Get(frame, Height, 1) >= 1
    ensures m == CopyModes.Percentage ==> Relocated(m, x, y, frame) == (x, y)
    ensures m != CopyModes.Percentage ==> Relocated(m, x, y, frame) == (Trunc(x) as real, Trunc(y) as real)
  {
    match m
    case Percentage => RelocatePercentage(x, y, frame);
    case FrameCoords =>
      assert CopyModes.CopyPoint(m, x, y, frame) == CopyModes.Integers([Trunc(x), Trunc(y)]);
      assert "FRAME COORDS"[0] != "PERCENTAGE"[0] && "FRAME COORDS"[0] != "SCREEN COORDS"[0];
    case ScreenCoords =>
      var ox, oy := Get(frame, X, 0), Get(frame, Y, 0);
      assert CopyModes.CopyPoint(m, x, y, frame) == CopyModes.Integers([ox + Trunc(x), oy + Trunc(y)]);
      assert "SCREEN COORDS"[0] != "PERCENTAGE"[0];
  }

  /**
   * The PERCENTAGE case across the two tools: a fraction pair copied by the
   * screenshot GUI and located by the tracker lands on the copied point.
   */
  lemma RelocatePercentage(x: real, y: real, frame: FrameDict)
    requires Get(frame, Width, 1) >= 1 && Get(frame, Height, 1) >= 1
    ensures Relocated(CopyModes.Percentage, x, y, frame) == (x, y)
  {
    var fw, fh := Get(frame, Width, 1) as real, Get(frame, Height, 1) as real;
    assert MaxInt(1, Get(frame, Width, 1)) as real == fw;
    assert MaxInt(1, Get(frame, Height, 1)) as real == fh;
    assert CopyModes.CopyPoint(CopyModes.Percentage, x, y, frame) == CopyModes.Fractions([x / fw, y / fh]);
    var p := ConvertToSceneCoords(x / fw, y / fh, "PERCENTAGE", frame);
    assert p.0 == (x / fw) * fw == x;
    assert p.1 == (y / fh) * fh == y;
  }

  /**
   * The outline `draw_bbox` draws: its edges are the given coordinates
   * put in order, so it contains both corners and has no negative side.
   */
  function NormalisedRect(x1: real, y1: real, x2: real, y2: real): (r: RectF)
    ensures r.width >= 0.0 && r.height >= 0.0
    ensures (r.left == x1 && r.Right() == x2) || (r.left == x2 && r.Right() == x1)
    ensures (r.top == y1 && r.Bottom() == y2) || (r.top == y2 && r.Bottom() == y1)
  {
    var left, top := MinReal(x1, x2), MinReal(y1, y2);
    var right, bottom := MaxReal(x1, x2), MaxReal(y1, y2);
    RectF(left, top, right - left, bottom - top)
  }

  /** The outline does not depend on which corner comes first. */
  lemma NormalisedRectSymmetric(x1: real, y1: real, x2: real, y2: real)
    ensures NormalisedRect(x1, y1, x2, y2) == NormalisedRect(x2, y2, x1, y1)
    ensures NormalisedRect(x1, y1, x2, y2) == NormalisedRect(x1, y2, x2, y1)
  {
    var r, s := NormalisedRect(x1, y1, x2, y2), NormalisedRect(x2, y2, x1, y1);
    assert r.left == s.left && r.top == s.top;
  }

  /** The marker colours: yellow on a bright pixel, white otherwise. */
  datatype Color = Yellow | White

  /**
   * The marker colour `start_locate_animation` picks. `pixel` samples the
   * screenshot at a pixel; None stands for a sample that raised or that is
   * not a tuple. Yellow exactly when the truncated target lies in the
   * image and its first three channels all exceed 200.
   */
  function LocateColor(tx: real, ty: real, width: int, height: int, pixel: (int, int) -> Option<seq<int>>): (c: Color)
    ensures c == Yellow <==>
      0 <= Trunc(tx) < width && 0 <= Trunc(ty) < height &&
      pixel(Trunc(tx), Trunc(ty)).Some? && |pixel(Trunc(tx), Trunc(ty)).value| >= 3 &&
      pixel(Trunc(tx), Trunc(ty)).value[0] > 200 && pixel(Trunc(tx), Trunc(ty)).value[1] > 200 &&
      pixel(Trunc(tx), Trunc(ty)).value[2] > 200
  {
    var ix, iy := Trunc(tx), Trunc(ty);
    if 0 <= ix < width && 0 <= iy < height then
      match pixel(ix, iy)
      case None => White
      case Some(v) =>
        if |v| >= 3 && v[0] > 200 && v[1] > 200 && v[2] > 200 then Yellow else White
    else White
  }

  /**
   * Truncation toward zero lets a target up to one pixel left of (or
   * above) the image sample column (row) 0, while one a full pixel
   * outside is always white.
   */
  lemma LocateColorNearEdge(tx: real, ty: real, width: int, height: int, pixel: (int, int) -> Option<seq<int>>)
    requires -1.0 < tx < 0.0
    ensures LocateColor(tx, ty, width, height, pixel) == LocateColor(0.0, ty, width, height, pixel)
    ensures LocateColor(-1.0, ty, width, height, pixel) == White
  {
    assert Trunc(tx) == 0;
    assert Trunc(-1.0) == -1;
  }
}
