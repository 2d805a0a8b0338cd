/**
 * The decoded sensor records (`HWiNFO_ELEMENT`, Form1.cs lines 164-193) and
 * the `List.Find` lookups the layouts make by original label, optionally
 * narrowed by unit (lines 312-356, 385-420).
 */
module Sensors {
  import opened Wrappers
  import opened Int32Arith

  /** SENSOR_READING_TYPE, lines 182-193. */
  datatype ReadingType = TypeNone | Temp | Volt | Fan | Current | Power | ClockType | Usage | Other

  /**
   * One reading. `value` is what the layouts use of the double `Value`:
   * the result of C#'s `(int)` cast, taken as an input. The other three
   * doubles are never read and are not modelled.
   */
  datatype Reading = Reading(
    kind: ReadingType,
    sensorIndex: u32,
    readingId: u32,
    labelOrig: string,
    labelUser: string,
    unit: string,
    value: i32)

  /**
   * What `List.Find` returns when nothing matches: `default(HWiNFO_ELEMENT)`,
   * whose strings are null (no label equals them) and whose value is 0.
   */
  const Missing: Reading := Reading(TypeNone, 0, 0, "", "", "", 0)

  /** A lookup key: the original label, and the unit when the layout narrows by it. */
  datatype Query = Query(name: string, unit: Option<string>)

  predicate Matches(q: Query, r: Reading)
  {
    && r.labelOrig == q.name
    && (q.unit.Some? ==> r.unit == q.unit.value)
  }

  /** Position of the first reading the query matches. */
  function FirstMatch(rs: seq<Reading>, q: Query): (o: Option<nat>)
    ensures o.Some? ==> o.value < |rs| && Matches(q, rs[o.value])
    ensures o.Some? ==> forall j :: 0 <= j < o.value ==> !Matches(q, rs[j])
    ensures o.None? ==> forall j :: 0 <= j < |rs| ==> !Matches(q, rs[j])
  {
    if |rs| == 0 then None
    else if Matches(q, rs[0]) then Some(0)
    else match FirstMatch(rs[1..], q)
      case None => None
      case Some(i) => Some(i + 1)
  }

  /** List.Find: the first matching reading, or the default record. */
  function Find(rs: seq<Reading>, q: Query): (r: Reading)
    ensures (exists j :: 0 <= j < |rs| && Matches(q, rs[j])) ==> Matches(q, r) && r in rs
    ensures (forall j :: 0 <= j < |rs| ==> !Matches(q, rs[j])) ==> r == Missing
  {
    match FirstMatch(rs, q)
    case Some(i) => rs[i]
    case None => Missing
  }

  /** The value a layout reads for a query; a missing sensor reads as 0. */
  function ValueOf(rs: seq<Reading>, q: Query): i32
  {
    Find(rs, q).value
  }

  /** Readings placed after the first match never change what a lookup finds. */
  lemma FindIgnoresLater(rs: seq<Reading>, more: seq<Reading>, q: Query)
    requires exists j :: 0 <= j < |rs| && Matches(q, rs[j])
    ensures Find(rs + more, q) == Find(rs, q)
  {
    var i := FirstMatch(rs, q).value;
    var k := FirstMatch(rs + more, q);
    assert (rs + more)[i] == rs[i];
    assert k.Some? && k.value == i;
  }

  /** Readings that do not match never change what a lookup finds. */
  lemma FindSkipsNonMatching(other: seq<Reading>, rs: seq<Reading>, q: Query)
    requires forall j :: 0 <= j < |other| ==> !Matches(q, other[j])
    ensures Find(other + rs, q) == Find(rs, q)
  {
    var o := FirstMatch(rs, q);
    var k := FirstMatch(other + rs, q);
    if o.Some? {
      assert (other + rs)[|other| + o.value] == rs[o.value];
      assert k.Some? && k.value == |other| + o.value;
    } else {
      assert k.None? by {
        forall j | 0 <= j < |other + rs|
          ensures !Matches(q, (other + rs)[j])
        {
          if j >= |other| {
            assert (other + rs)[j] == rs[j - |other|];
          }
        }
      }
    }
  }
}
