/** The navigation compass: it mirrors the map's bearing, turns the map through
    four headings on each click, and draws its needle against the bearing. */
module NavigationCompass {
  import opened Values
  import opened Engine
  import opened UseMap

  /** The four headings a click cycles through. */
  predicate IsHeading(b: int)
  {
    b == 0 || b == -90 || b == 180 || b == 90
  }

  /** The bearing a click asks for: 0, -90, 180, 90 in turn, and north from any
      other bearing. */
  function NextBearing(b: int): (r: int)
    ensures IsHeading(r)
    ensures b == 0 ==> r == -90
    ensures b == -90 ==> r == 180
    ensures b == 180 ==> r == 90
    ensures b != 0 && b != -90 && b != 180 ==> r == 0
  {
    if b == 0 then -90
    else if b == -90 then 180
    else if b == 180 then 90
    else 0
  }

  /** `n` clicks in a row. */
  function Clicks(b: int, n: nat): int
    decreases n
  {
    if n == 0 then b else Clicks(NextBearing(b), n - 1)
  }

  /** Four clicks bring every heading of the cycle back to itself. */
  lemma {:induction false} FourClicksCycle(b: int)
    requires IsHeading(b)
    ensures Clicks(b, 4) == b
  {
    assert Clicks(b, 4) == NextBearing(NextBearing(NextBearing(NextBearing(b)))) by {
      assert Clicks(b, 4) == Clicks(NextBearing(b), 3);
      assert Clicks(NextBearing(b), 3) == Clicks(NextBearing(NextBearing(b)), 2);
      assert Clicks(NextBearing(NextBearing(b)), 2) == Clicks(NextBearing(NextBearing(NextBearing(b))), 1);
    }
  }

  /** From any bearing, after the first click the compass is on the cycle and
      returns to the same heading every four clicks. */
  lemma {:induction false} ClicksArePeriodic(b: int, n: nat)
    requires n >= 1
    ensures IsHeading(Clicks(b, n))
    ensures Clicks(b, n + 4) == Clicks(b, n)
    decreases n
  {
    if n == 1 {
      assert Clicks(b, 1) == Clicks(NextBearing(b), 0) == NextBearing(b);
      assert Clicks(b, 5) == Clicks(NextBearing(b), 4);
      FourClicksCycle(NextBearing(b));
    } else {
      ClicksArePeriodic(NextBearing(b), n - 1);
    }
  }

  // ---------------------------------------------------------------------------
  // The needle

  function Digit(d: nat): char
    requires d < 10
  {
    "0123456789"[d]
  }

  /** The decimal text of a whole number. */
  function NatToString(n: nat): (s: string)
    ensures |s| > 0
    ensures forall i :: 0 <= i < |s| ==> '0' <= s[i] <= '9'
    decreases n
  {
    if n < 10 then [Digit(n)] else NatToString(n / 10) + [Digit(n % 10)]
  }

  /** How JavaScript writes a whole number below 10^21 in magnitude, as the
      bearings a map reports are (negative zero is written `0`). */
  function IntToString(i: int): (s: string)
    ensures |s| > 0
    ensures s[0] == '-' <==> i < 0
    ensures i < 0 ==> s[1..] == NatToString(-i)
    ensures i >= 0 ==> s == NatToString(i)
  {
    if i < 0 then "-" + NatToString(-i) else NatToString(i)
  }

  /** The needle's `transform`: a positive bearing is written with a leading
      minus sign, any other one as the number `-1 * bearing`. */
  function NeedleTransform(bearing: int): (t: string)
    ensures t == "rotate(" + IntToString(-bearing) + "deg)"
  {
    "rotate(" + (if bearing > 0 then "-" + NatToString(bearing) else IntToString(-1 * bearing)) + "deg)"
  }

  function DigitValue(c: char): nat
  {
    if '0' <= c <= '9' then (c as int - '0' as int) as nat else 0
  }

  /** Reading decimal text back. */
  function ParseNat(s: string): nat
    decreases |s|
  {
    if s == [] then 0 else ParseNat(s[..|s| - 1]) * 10 + DigitValue(s[|s| - 1])
  }

  function ParseInt(s: string): int
  {
    if |s| > 0 && s[0] == '-' then 0 - ParseNat(s[1..]) else ParseNat(s)
  }

  lemma {:induction false} ParseNatToString(n: nat)
    ensures ParseNat(NatToString(n)) == n
    decreases n
  {
    var s := NatToString(n);
    if n >= 10 {
      ParseNatToString(n / 10);
      assert s[..|s| - 1] == NatToString(n / 10);
      assert DigitValue(s[|s| - 1]) == n % 10;
    } else {
      assert s[..0] == [];
      assert DigitValue(s[0]) == n;
    }
  }

  /** The written angle reads back as the bearing negated. */
  lemma {:induction false} ParseIntToString(i: int)
    ensures ParseInt(IntToString(i)) == i
  {
    if i < 0 {
      var d := NatToString(-i);
      var s := "-" + d;
      assert s[0] == '-' && s[1..] == d;
      ParseNatToString(-i);
    } else {
      var d := NatToString(i);
      assert '0' <= d[0] <= '9';
      ParseNatToString(i);
    }
  }

  /** The angle text between `rotate(` and `deg)`. */
  function AngleOf(t: string): string
  {
    if |t| >= 11 then t[7..|t| - 4] else ""
  }

  lemma Infix(x: string, a: string, y: string)
    ensures (x + a + y)[|x|..|x + a + y| - |y|] == a
  {
    var t := x + a + y;
    forall k | 0 <= k < |a| ensures t[|x|..|t| - |y|][k] == a[k] {
      assert t[|x| + k] == a[k];
    }
  }

  /** The needle is turned by exactly the negated bearing, in both branches. */
  lemma NeedleAngle(bearing: int)
    ensures ParseInt(AngleOf(NeedleTransform(bearing))) == -bearing
  {
    var a := IntToString(-bearing);
    Infix("rotate(", a, "deg)");
    ParseIntToString(-bearing);
  }

  // ---------------------------------------------------------------------------
  // The component

  class Compass {
    const mapHook: MapHook
    /** The `bearing` state the needle is drawn from. */
    var bearing: int
    /** The map the `rotate` handler is registered on. */
    var rotateOn: Engine?

    constructor (mapHook: MapHook)
      ensures this.mapHook == mapHook && bearing == 0 && rotateOn == null
    {
      this.mapHook := mapHook;
      bearing := 0;
      rotateOn := null;
    }

    /** `_updateBearing`: copy the map's bearing when the map can report one. */
    method UpdateBearing()
      modifies this
      ensures var e := mapHook.boundMap;
        && (e == null || !e.bearingReadable ==> bearing == old(bearing))
        && (e != null && e.bearingReadable ==> bearing == e.bearing)
      ensures rotateOn == old(rotateOn)
    {
      var e := mapHook.boundMap;
      if e == null || !e.bearingReadable {
        return;
      }
      bearing := e.bearing;
    }

    /** The mount effect: listen to `rotate` with the binding's owner tag, then
        read the bearing once. */
    method MountEffect()
      requires rotateOn == null
      modifies this, mapHook.boundMap
      ensures var e := old(mapHook.boundMap);
        && (e == null ==> unchanged(this))
        && (e != null ==>
              && rotateOn == e
              && e.handlers == old(e.handlers) + [Handler("rotate", None, SyncBearing(mapHook.componentId), Some(mapHook.componentId))]
              && e.OnlyHandlers()
              && bearing == (if e.bearingReadable then e.bearing else old(bearing)))
    {
      var e := mapHook.boundMap;
      if e == null {
        return;
      }
      e.On("rotate", None, SyncBearing(mapHook.componentId), Some(mapHook.componentId));
      rotateOn := e;
      UpdateBearing();
    }

    /** The mount effect's cleanup: `off` on the map it registered on. */
    method UnmountEffect()
      modifies this, rotateOn
      ensures rotateOn == null && bearing == old(bearing)
      ensures old(rotateOn) != null ==>
        && old(rotateOn).handlers == WithoutListener(old(rotateOn.handlers), "rotate", SyncBearing(mapHook.componentId))
        && old(rotateOn).OnlyHandlers()
    {
      if rotateOn != null {
        rotateOn.Off("rotate", SyncBearing(mapHook.componentId));
      }
      rotateOn := null;
    }

    /** A click: ask the map for the next heading. */
    method Rotate() returns (asked: bool)
      modifies mapHook.boundMap
      ensures asked <==> old(mapHook.boundMap) != null
      ensures asked ==>
        && mapHook.boundMap.bearing == NextBearing(bearing)
        && mapHook.boundMap.bearingReadable == old(mapHook.boundMap.bearingReadable)
        && mapHook.boundMap.layers == old(mapHook.boundMap.layers)
        && mapHook.boundMap.handlers == old(mapHook.boundMap.handlers)
        && mapHook.boundMap.sources == old(mapHook.boundMap.sources)
        && mapHook.boundMap.cancelled == old(mapHook.boundMap.cancelled)
        && mapHook.boundMap.firstSymbolLayer == old(mapHook.boundMap.firstSymbolLayer)
        && mapHook.boundMap.calls == old(mapHook.boundMap.calls) + [SetBearingCall(NextBearing(bearing))]
    {
      asked := false;
      var e := mapHook.boundMap;
      if e == null {
        return;
      }
      asked := true;
      e.SetBearing(NextBearing(bearing));
    }
  }

  /** Four clicks, each followed by the `rotate` event, bring a compass that
      points north back to north. */
  method FourClicksReturnNorth(c: Compass)
    requires c.bearing == 0 && c.mapHook.boundMap != null && c.mapHook.boundMap.bearingReadable
    modifies c, c.mapHook.boundMap
    ensures c.bearing == 0
  {
    var n := 0;
    while n < 4
      invariant 0 <= n <= 4
      invariant c.mapHook.boundMap != null && c.mapHook.boundMap.bearingReadable
      invariant c.bearing == Clicks(0, n)
    {
      var asked := c.Rotate();
      c.UpdateBearing();
      assert Clicks(0, n + 1) == NextBearing(Clicks(0, n)) by {
        ClicksStep(0, n);
      }
      n := n + 1;
    }
    FourClicksCycle(0);
  }

  lemma {:induction false} ClicksStep(b: int, n: nat)
    ensures Clicks(b, n + 1) == NextBearing(Clicks(b, n))
    decreases n
  {
    if n > 0 {
      ClicksStep(NextBearing(b), n - 1);
    }
  }
}
