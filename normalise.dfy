/**
 * The "ensure all fields are present" pass that the three server endpoints run over a parsed model reply:
 * for every element of `Prescriptions`, `setdefault` adds each missing top-level key with an all-None value.
 */
module Normalise {
  import opened Base
  import opened JsonValue

  const DiagnosisKeys: set<string> := {"Diagnosis", "Medicine"}
  const MedicationKeys: set<string> :=
    {"Dose", "DoseUnit", "DoseRoute", "Frequency", "FrequencyDuration",
     "FrequencyUnit", "Quantity", "QuantityUnit", "Refill", "Pharmacy"}
  /** The keys every prescription has once the pass is done. */
  const RequiredKeys: set<string> := {"DiagnosisInformation", "MedicationDetails", "Description"}

  /** The default `DiagnosisInformation`: both of its fields None. */
  function NullDiagnosisInformation(): (m: map<string, Json>)
    ensures m.Keys == DiagnosisKeys
    ensures forall k :: k in m ==> m[k] == JNull
  {
    map k | k in DiagnosisKeys :: JNull
  }

  /** The default `MedicationDetails`: exactly the ten medication fields, all None. */
  function NullMedicationDetails(): (m: map<string, Json>)
    ensures m.Keys == MedicationKeys
    ensures forall k :: k in m ==> m[k] == JNull
  {
    map k | k in MedicationKeys :: JNull
  }

  /** Python's `d.setdefault(key, value)` seen through its effect on `d`: an existing entry is never replaced. */
  function SetDefault(d: map<string, Json>, key: string, value: Json): (r: map<string, Json>)
    ensures r.Keys == d.Keys + {key}
    ensures forall k :: k in d ==> r[k] == d[k]
    ensures key !in d ==> r[key] == value
  {
    if key in d then d else d[key := value]
  }

  /** The three `setdefault` calls applied to one prescription. */
  function FillDefaults(p: map<string, Json>): (r: map<string, Json>)
    ensures r.Keys == p.Keys + RequiredKeys
    ensures forall k :: k in p ==> r[k] == p[k]
    ensures "DiagnosisInformation" !in p ==> r["DiagnosisInformation"] == JObj(NullDiagnosisInformation())
    ensures "MedicationDetails" !in p ==> r["MedicationDetails"] == JObj(NullMedicationDetails())
    ensures "Description" !in p ==> r["Description"] == JNull
  {
    var p1 := SetDefault(p, "DiagnosisInformation", JObj(NullDiagnosisInformation()));
    var p2 := SetDefault(p1, "MedicationDetails", JObj(NullMedicationDetails()));
    SetDefault(p2, "Description", JNull)
  }

  /** A prescription that has all three top-level keys. */
  predicate Complete(p: Json) {
    p.JObj? && RequiredKeys <= p.fields.Keys
  }

  /** The `AttributeError` message CPython gives when `name` is looked up on a value that has no such method. */
  function NoAttribute(v: Json, name: string): string {
    "'" + PyTypeName(v) + "' object has no attribute '" + name + "'"
  }

  /** The `TypeError` message CPython gives when a `for` loop is asked to iterate over `v`. */
  function NotIterable(v: Json): string {
    "'" + PyTypeName(v) + "' object is not iterable"
  }

  /** The loop body over a list of prescriptions: stops at the first element that is not a dict. */
  function FillAll(items: seq<Json>): (r: PyResult<seq<Json>>)
    ensures r.Value? <==> forall k :: 0 <= k < |items| ==> items[k].JObj?
    ensures r.Value? ==> |r.value| == |items|
    ensures r.Value? ==> forall k :: 0 <= k < |items| ==> r.value[k] == JObj(FillDefaults(items[k].fields))
  {
    if items == [] then Value([])
    else if !items[0].JObj? then Raised(NoAttribute(items[0], "setdefault"))
    else match FillAll(items[1..])
      case Value(rest) => Value([JObj(FillDefaults(items[0].fields))] + rest)
      case Raised(m) => Raised(m)
  }

  /** The prescription list of a reply, or none when the reply has no `Prescriptions` list. */
  function PrescriptionList(j: Json): seq<Json> {
    if j.JObj? && "Prescriptions" in j.fields && j.fields["Prescriptions"].JArr?
    then j.fields["Prescriptions"].items else []
  }

  /**
   * What `for p in prescription.get("Prescriptions", []): p.setdefault(...)` leaves behind.
   * A non-dict reply fails on `.get`; iterating a non-empty dict or string yields `str` keys or characters,
   * which fail on `.setdefault`; None, booleans and numbers are not iterable.
   */
  function Normalised(parsed: Json): (r: PyResult<Json>)
    ensures r.Value? ==> parsed.JObj? && r.value.JObj? && r.value.fields.Keys == parsed.fields.Keys
  {
    if !parsed.JObj? then Raised(NoAttribute(parsed, "get"))
    else if "Prescriptions" !in parsed.fields then Value(parsed)
    else
      var v := parsed.fields["Prescriptions"];
      match v
      case JArr(items) =>
        (match FillAll(items)
         case Value(filled) => Value(JObj(parsed.fields["Prescriptions" := JArr(filled)]))
         case Raised(m) => Raised(m))
      case JObj(m) => if m == map[] then Value(parsed) else Raised(NoAttribute(JStr(""), "setdefault"))
      case JStr(s) => if s == "" then Value(parsed) else Raised(NoAttribute(JStr(""), "setdefault"))
      case _ => Raised(NotIterable(v))
  }

  lemma {:induction false} FillAllRaisesAt(items: seq<Json>, i: nat)
    requires i < |items| && !items[i].JObj?
    requires forall k :: 0 <= k < i ==> items[k].JObj?
    ensures FillAll(items) == Raised(NoAttribute(items[i], "setdefault"))
  {
    if i > 0 {
      FillAllRaisesAt(items[1..], i - 1);
    }
  }

  lemma {:induction false} FillAllMatches(items: seq<Json>, ps: seq<Json>)
    requires |ps| == |items|
    requires forall k :: 0 <= k < |items| ==> items[k].JObj? && ps[k] == JObj(FillDefaults(items[k].fields))
    ensures FillAll(items) == Value(ps)
  {
    if items != [] {
      FillAllMatches(items[1..], ps[1..]);
      assert ps == [ps[0]] + ps[1..];
    }
  }

  /** The loop body: the three `setdefault` calls on one prescription dict, in order. */
  method CompleteOne(d: map<string, Json>) returns (p: map<string, Json>)
    ensures p == FillDefaults(d)
  {
    p := d;
    p := SetDefault(p, "DiagnosisInformation", JObj(NullDiagnosisInformation()));
    p := SetDefault(p, "MedicationDetails", JObj(NullMedicationDetails()));
    p := SetDefault(p, "Description", JNull);
  }

  /** The loop itself: each dict of the list is completed in place, one element at a time. */
  method FillInPlace(items: seq<Json>) returns (r: PyResult<seq<Json>>)
    ensures r == FillAll(items)
  {
    var ps := items;
    var i := 0;
    while i < |ps|
      invariant 0 <= i <= |ps| == |items|
      invariant forall k :: 0 <= k < i ==> items[k].JObj? && ps[k] == JObj(FillDefaults(items[k].fields))
      invariant forall k :: i <= k < |ps| ==> ps[k] == items[k]
    {
      if !ps[i].JObj? {
        FillAllRaisesAt(items, i);
        return Raised(NoAttribute(ps[i], "setdefault"));
      }
      var p := CompleteOne(ps[i].fields);
      ps := ps[i := JObj(p)];
      i := i + 1;
    }
    FillAllMatches(items, ps);
    return Value(ps);
  }

  /** `prescription.get("Prescriptions", [])` followed by the loop, on the decoded reply. */
  method NormalisePrescriptions(parsed: Json) returns (r: PyResult<Json>)
    ensures r == Normalised(parsed)
  {
    if !parsed.JObj? {
      return Raised(NoAttribute(parsed, "get"));
    }
    if "Prescriptions" !in parsed.fields {
      return Value(parsed);
    }
    var v := parsed.fields["Prescriptions"];
    match v {
      case JArr(items) =>
        var filled := FillInPlace(items);
        match filled {
          case Value(ps) => r := Value(JObj(parsed.fields["Prescriptions" := JArr(ps)]));
          case Raised(m) => r := Raised(m);
        }
      case JObj(m) =>
        r := if m == map[] then Value(parsed) else Raised(NoAttribute(JStr(""), "setdefault"));
      case JStr(s) =>
        r := if s == "" then Value(parsed) else Raised(NoAttribute(JStr(""), "setdefault"));
      case _ =>
        r := Raised(NotIterable(v));
    }
  }

  /** After the pass, every element of the `Prescriptions` list has all three top-level keys. */
  lemma NormalisedComplete(parsed: Json)
    requires Normalised(parsed).Value?
    ensures forall k :: 0 <= k < |PrescriptionList(Normalised(parsed).value)| ==>
      Complete(PrescriptionList(Normalised(parsed).value)[k])
  {
  }

  /**
   * The pass never overwrites: the reply keeps its keys, every key other than `Prescriptions` keeps its value,
   * the list keeps its length, and every key a prescription already had keeps its value.
   */
  lemma NormalisedKeepsExisting(parsed: Json)
    requires Normalised(parsed).Value?
    ensures parsed.JObj? && Normalised(parsed).value.JObj?
    ensures Normalised(parsed).value.fields.Keys == parsed.fields.Keys
    ensures forall key :: key in parsed.fields && key != "Prescriptions" ==>
      Normalised(parsed).value.fields[key] == parsed.fields[key]
    ensures |PrescriptionList(Normalised(parsed).value)| == |PrescriptionList(parsed)|
    ensures forall k, key :: 0 <= k < |PrescriptionList(parsed)| && key in PrescriptionList(parsed)[k].fields ==>
      PrescriptionList(Normalised(parsed).value)[k].fields[key] == PrescriptionList(parsed)[k].fields[key]
  {
  }

  /** A reply without a `Prescriptions` key is returned exactly as parsed: the loop runs over the empty default. */
  lemma NormalisedWithoutPrescriptions(parsed: Json)
    requires parsed.JObj? && "Prescriptions" !in parsed.fields
    ensures Normalised(parsed) == Value(parsed)
  {
  }

  /** The loop runs to completion on `v` exactly when iterating it yields only dicts. */
  predicate LoopCompletes(v: Json) {
    || (v.JArr? && forall k :: 0 <= k < |v.items| ==> v.items[k].JObj?)
    || v == JObj(map[])
    || v == JStr("")
  }

  /** The pass raises exactly when the reply is not a dict, or its `Prescriptions` value cannot be looped over. */
  lemma NormalisedRaisesExactly(parsed: Json)
    ensures Normalised(parsed).Raised? <==>
      !parsed.JObj? || ("Prescriptions" in parsed.fields && !LoopCompletes(parsed.fields["Prescriptions"]))
  {
  }

  lemma FillDefaultsIdempotent(p: map<string, Json>)
    ensures FillDefaults(FillDefaults(p)) == FillDefaults(p)
  {
  }

  lemma {:induction false} FillAllOfFilled(items: seq<Json>)
    requires FillAll(items).Value?
    ensures FillAll(FillAll(items).value) == FillAll(items)
  {
    var filled := FillAll(items).value;
    forall k | 0 <= k < |filled|
      ensures filled[k].JObj? && filled[k] == JObj(FillDefaults(filled[k].fields))
    {
      FillDefaultsIdempotent(items[k].fields);
    }
    FillAllMatches(filled, filled);
  }

  /**
   * The exceptions the pass raises before its loop body runs: `.get` on a reply that is not a dict, iterating a
   * `Prescriptions` value that is None, a boolean or a number, and `.setdefault` on the `str` keys or characters
   * a non-empty dict or string yields.
   */
  lemma NormalisedRaisesBeforeLoop(parsed: Json)
    ensures !parsed.JObj? ==> Normalised(parsed) == Raised(NoAttribute(parsed, "get"))
    ensures parsed.JObj? && "Prescriptions" in parsed.fields ==>
      var v := parsed.fields["Prescriptions"];
      && (v.JNull? || v.JBool? || v.JNum? ==> Normalised(parsed) == Raised(NotIterable(v)))
      && ((v.JObj? && v.fields != map[]) || (v.JStr? && v.s != "") ==>
            Normalised(parsed) == Raised(NoAttribute(JStr(""), "setdefault")))
  {
  }

  /** Running the pass on its own output changes nothing. */
  lemma NormalisedIdempotent(parsed: Json)
    requires Normalised(parsed).Value?
    ensures Normalised(Normalised(parsed).value) == Normalised(parsed)
  {
    var r := Normalised(parsed).value;
    if "Prescriptions" in parsed.fields && parsed.fields["Prescriptions"].JArr? {
      var items := parsed.fields["Prescriptions"].items;
      var filled := FillAll(items).value;
      FillAllOfFilled(items);
      assert r.fields["Prescriptions"] == JArr(filled);
      assert r.fields["Prescriptions" := JArr(filled)] == r.fields;
    }
  }
}
