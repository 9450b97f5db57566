// Unit conversions shared by the signal plotter and its older single-file
// draft: the unsigned power byte read back as signed dBm, the choice of a
// display unit for a milliwatt value, and the zero list that seeds every plot.

module Units {

  /** The driver reports absolute power (IW_QUAL_DBM) as an unsigned byte;
      readings above 63 stand for negative dBm values and are wrapped down
      by 256. The result always differs from the input by 0 or 256. */
  function U8ToDbm(power: int): (dbm: int)
    ensures dbm == power || dbm == power - 256
    ensures dbm == power <==> power <= 63
    ensures 0 <= power <= 255 ==> -192 <= dbm <= 63
  {
    if power > 63 then power - 0x100 else power
  }

  /** The byte that a dBm value in -192..63 is reported as. */
  function DbmToU8(dbm: int): (power: int)
  {
    if dbm < 0 then dbm + 0x100 else dbm
  }

  /** On the byte range, U8ToDbm is undone by DbmToU8 ... */
  lemma U8ToDbmRoundTrip(power: int)
    requires 0 <= power <= 255
    ensures -192 <= U8ToDbm(power) <= 63
    ensures DbmToU8(U8ToDbm(power)) == power
  {
  }

  /** ... and every dBm value in -192..63 is reached from exactly one byte,
      so U8ToDbm is a bijection from 0..255 onto -192..63. */
  lemma U8ToDbmOnto(dbm: int)
    requires -192 <= dbm <= 63
    ensures 0 <= DbmToU8(dbm) <= 255
    ensures U8ToDbm(DbmToU8(dbm)) == dbm
    ensures forall p :: 0 <= p <= 255 && U8ToDbm(p) == dbm ==> p == DbmToU8(dbm)
  {
  }

  /** Fixed points named by the driver convention: small positive readings
      are kept, 64 is the most negative value and 255 is -1 dBm. */
  lemma U8ToDbmSamples()
    ensures U8ToDbm(0) == 0 && U8ToDbm(63) == 63
    ensures U8ToDbm(64) == -192 && U8ToDbm(255) == -1
  {
  }

  // ---------------------------------------------------------------------
  // Tier choice of dbm_to_units, over an already computed milliwatt value.

  datatype PowerUnit = Picowatt | Nanowatt | Microwatt | Milliwatt

  /** A value in one of the four units, as the plotter labels it. */
  datatype Labelled = Labelled(magnitude: real, unit: PowerUnit)

  /** Position of a unit in increasing order of size. */
  function Rank(u: PowerUnit): (rank: nat)
  {
    match u
    case Picowatt => 0
    case Nanowatt => 1
    case Microwatt => 2
    case Milliwatt => 3
  }

  /** Factor that turns milliwatts into the unit. */
  function PerMilliwatt(u: PowerUnit): (factor: real)
  {
    match u
    case Picowatt => 1000000000.0
    case Nanowatt => 1000000.0
    case Microwatt => 1000.0
    case Milliwatt => 1.0
  }

  /** The label of `mw` milliwatts: the smallest unit whose threshold the
      value is strictly below, and the value converted into that unit. A
      value exactly on a threshold goes to the larger unit. */
  function InUnits(mw: real): (r: Labelled)
    ensures r.unit == Picowatt <==> mw < 0.00000001
    ensures r.unit == Nanowatt <==> 0.00000001 <= mw < 0.00001
    ensures r.unit == Microwatt <==> 0.00001 <= mw < 0.01
    ensures r.unit == Milliwatt <==> 0.01 <= mw
    ensures r.magnitude == mw * PerMilliwatt(r.unit)
  {
    if mw < 0.00000001 then Labelled(mw * 1000000000.0, Picowatt)
    else if mw < 0.00001 then Labelled(mw * 1000000.0, Nanowatt)
    else if mw < 0.01 then Labelled(mw * 1000.0, Microwatt)
    else Labelled(mw, Milliwatt)
  }

  /** A larger power never gets a smaller unit. */
  lemma InUnitsMonotone(a: real, b: real)
    requires a <= b
    ensures Rank(InUnits(a).unit) <= Rank(InUnits(b).unit)
  {
  }

  /** A positive power below the milliwatt tier is shown with a magnitude
      below 10 in its unit; outside the picowatt tier the magnitude is at
      least 0.01. */
  lemma InUnitsMagnitude(mw: real)
    requires 0.0 < mw
    ensures InUnits(mw).unit != Milliwatt ==> 0.0 < InUnits(mw).magnitude < 10.0
    ensures InUnits(mw).unit in {Nanowatt, Microwatt} ==> 0.01 <= InUnits(mw).magnitude
    ensures InUnits(mw).unit == Milliwatt ==> 0.01 <= InUnits(mw).magnitude
  {
  }

  // ---------------------------------------------------------------------
  // mklist

  /** A list of `length` zeros built by appending; a negative length gives
      the empty list, as an empty range does. */
  method MkList(length: int) returns (list: seq<int>)
    ensures |list| == if length > 0 then length else 0
    ensures forall i :: 0 <= i < |list| ==> list[i] == 0
  {
    list := [];
    var pos := 0;
    while pos < length
      invariant 0 <= pos == |list|
      invariant pos <= (if length > 0 then length else 0)
      invariant forall i :: 0 <= i < |list| ==> list[i] == 0
    {
      list := list + [0];
      pos := pos + 1;
    }
  }
}
