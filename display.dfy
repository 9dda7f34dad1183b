/**
 * The prescription cards both clients render from their `prescription` state. A card reads each field with
 * JavaScript property access and shows `value || "None"`. Reading a property of `null` or `undefined` throws a
 * TypeError, and so does calling `.map` on anything but an array; a throw during rendering takes the page down.
 * None of the field names the page reads is a property of JavaScript strings, numbers, booleans or arrays, so on
 * those values each read gives `undefined`, as `Member` does.
 */
module Display {
  import opened Base
  import opened JsonValue
  import opened Normalise
  import Server

  /** The medication table's columns, in display order. */
  const MedicationColumns: seq<string> :=
    ["Dose", "DoseUnit", "DoseRoute", "Frequency", "FrequencyDuration",
     "FrequencyUnit", "Quantity", "QuantityUnit", "Refill", "Pharmacy"]

  /** One rendered card: the two diagnosis fields, the ten medication cells, and the description. */
  datatype Card = Card(diagnosis: Json, medicine: Json, medication: seq<Json>, description: Json)

  /** The rendered prescription area: a list of cards, or a TypeError thrown while rendering. */
  datatype Page = Cards(cards: seq<Card>) | Crashed

  /** `value || "None"`: a falsy value is shown as the text None, any other value as it is. */
  function Cell(v: Option<Json>): (shown: Json)
    ensures JsTruthy(v) ==> shown == v.value
    ensures !JsTruthy(v) ==> shown == JStr("None")
  {
    if JsTruthy(v) then v.value else JStr("None")
  }

  /** A value whose properties can be read without a TypeError: neither `undefined` nor `null`. */
  predicate Readable(v: Option<Json>) {
    v.Some? && !v.value.JNull?
  }

  /** The card for one prescription `p`, or None when one of its reads throws. */
  function CardOf(p: Json): (c: Option<Card>)
    ensures c.Some? <==>
      !p.JNull? && Readable(Member(p, "DiagnosisInformation")) && Readable(Member(p, "MedicationDetails"))
    ensures c.Some? ==>
      && c.value.diagnosis == Cell(Member(Member(p, "DiagnosisInformation").value, "Diagnosis"))
      && c.value.medicine == Cell(Member(Member(p, "DiagnosisInformation").value, "Medicine"))
      && c.value.description == Cell(Member(p, "Description"))
      && |c.value.medication| == |MedicationColumns|
      && forall i :: 0 <= i < |MedicationColumns| ==>
           c.value.medication[i] == Cell(Member(Member(p, "MedicationDetails").value, MedicationColumns[i]))
  {
    var info := Member(p, "DiagnosisInformation");
    var details := Member(p, "MedicationDetails");
    if p.JNull? || !Readable(info) || !Readable(details) then None
    else
      Some(Card(
        Cell(Member(info.value, "Diagnosis")),
        Cell(Member(info.value, "Medicine")),
        seq(|MedicationColumns|, i requires 0 <= i < |MedicationColumns| =>
          Cell(Member(details.value, MedicationColumns[i]))),
        Cell(Member(p, "Description"))))
  }

  /** `items.map(...)`: every card, or None when rendering any one of them throws. */
  function CardsOf(items: seq<Json>): (r: Option<seq<Card>>)
    ensures r.Some? <==> forall k :: 0 <= k < |items| ==> CardOf(items[k]).Some?
    ensures r.Some? ==> |r.value| == |items| && forall k :: 0 <= k < |items| ==> r.value[k] == CardOf(items[k]).value
  {
    if items == [] then Some([])
    else
      match (CardOf(items[0]), CardsOf(items[1..]))
      case (Some(c), Some(cs)) => Some([c] + cs)
      case _ => None
  }

  /**
   * `prescription && prescription.Prescriptions.map(...)`: nothing for a falsy state; a crash unless the
   * `Prescriptions` member is an array every element of which renders.
   */
  function Render(prescription: Option<Json>): (page: Page)
    ensures !JsTruthy(prescription) ==> page == Cards([])
    ensures JsTruthy(prescription) ==>
      (page.Cards? <==> (Member(prescription.value, "Prescriptions").Some? &&
                         Member(prescription.value, "Prescriptions").value.JArr? &&
                         CardsOf(Member(prescription.value, "Prescriptions").value.items).Some?))
    ensures JsTruthy(prescription) && page.Cards? ==>
      page.cards == CardsOf(Member(prescription.value, "Prescriptions").value.items).value
  {
    if !JsTruthy(prescription) then Cards([])
    else
      match Member(prescription.value, "Prescriptions")
      case Some(JArr(items)) =>
        (match CardsOf(items)
         case Some(cards) => Cards(cards)
         case None => Crashed)
      case _ => Crashed
  }

  /** A prescription whose diagnosis or medication section is present but `null`. */
  predicate NullSection(p: Json) {
    Member(p, "DiagnosisInformation") == Some(JNull) || Member(p, "MedicationDetails") == Some(JNull)
  }

  /** The card of the fixed default prescription: every cell None except the request to try again. */
  function RetryCard(): (c: Card)
    ensures |c.medication| == |MedicationColumns|
  {
    Card(JStr("None"), JStr("None"), seq(|MedicationColumns|, _ => JStr("None")), JStr(Server.RetryDescription))
  }

  /** A displayed cell is never blank: the fallback itself is truthy, and applying it again changes nothing. */
  lemma CellNeverBlank(v: Option<Json>)
    ensures JsTruthy(Some(Cell(v)))
    ensures Cell(Some(Cell(v))) == Cell(v)
  {
  }

  /** A complete prescription object renders unless one of its two sections is `null`. */
  lemma CompleteCardRenders(p: Json)
    requires Complete(p)
    ensures CardOf(p).Some? <==> !NullSection(p)
  {
  }

  /** The default response's prescription list renders as the single retry card. */
  lemma DefaultReplyRenders()
    ensures Render(Member(Server.DefaultReply().body, "response")) == Cards([RetryCard()])
  {
    var p := Server.DefaultPrescription();
    var info := NullDiagnosisInformation();
    var details := NullMedicationDetails();
    assert Member(p, "DiagnosisInformation") == Some(JObj(info));
    assert Member(p, "MedicationDetails") == Some(JObj(details));
    var c := CardOf(p).value;
    assert c.diagnosis == JStr("None") by { assert "Diagnosis" in DiagnosisKeys; }
    assert c.medicine == JStr("None") by { assert "Medicine" in DiagnosisKeys; }
    forall i | 0 <= i < |MedicationColumns|
      ensures c.medication[i] == JStr("None")
    {
      assert MedicationColumns[i] in MedicationKeys;
    }
    assert c == RetryCard();
    var cards := CardsOf([p]);
    assert [p][0] == p;
    assert cards.Some? && cards.value[0] == c;
    assert cards.value == [c];
  }

  /** A list of complete prescriptions renders unless one of them has a `null` section. */
  lemma CompleteCardsRender(items: seq<Json>)
    requires forall k :: 0 <= k < |items| ==> Complete(items[k])
    ensures CardsOf(items).Some? <==> forall k :: 0 <= k < |items| ==> !NullSection(items[k])
  {
    forall k | 0 <= k < |items|
      ensures CardOf(items[k]).Some? <==> !NullSection(items[k])
    {
      CompleteCardRenders(items[k]);
    }
  }

  /** A decoded reply with no `Prescriptions` array passes normalisation unchanged, and then crashes the page. */
  lemma ReplyWithoutListCrashes(doc: Json)
    requires Normalised(doc).Value?
    requires !("Prescriptions" in doc.fields && doc.fields["Prescriptions"].JArr?)
    ensures Render(Some(Normalised(doc).value)) == Crashed
  {
    NormalisedKeepsExisting(doc);
  }

  /** Normalising a reply with a `Prescriptions` array gives a list of as many complete prescriptions. */
  lemma NormalisedList(doc: Json) returns (filled: seq<Json>)
    requires Normalised(doc).Value?
    requires "Prescriptions" in doc.fields && doc.fields["Prescriptions"].JArr?
    ensures Member(Normalised(doc).value, "Prescriptions") == Some(JArr(filled))
    ensures |filled| == |doc.fields["Prescriptions"].items|
    ensures forall k :: 0 <= k < |filled| ==> Complete(filled[k])
  {
    var items := doc.fields["Prescriptions"].items;
    filled := FillAll(items).value;
    assert Normalised(doc).value == JObj(doc.fields["Prescriptions" := JArr(filled)]);
    forall k | 0 <= k < |filled|
      ensures Complete(filled[k])
    {
      assert filled[k] == JObj(FillDefaults(items[k].fields));
    }
  }

  /** A reply whose `Prescriptions` is an array of complete prescriptions renders one card for each of them. */
  lemma CompleteListRenders(r: Json)
    requires r.JObj? && "Prescriptions" in r.fields && r.fields["Prescriptions"].JArr?
    requires forall k :: 0 <= k < |PrescriptionList(r)| ==> Complete(PrescriptionList(r)[k])
    ensures Render(Some(r)).Cards? <==> forall k :: 0 <= k < |PrescriptionList(r)| ==> !NullSection(PrescriptionList(r)[k])
    ensures Render(Some(r)).Cards? ==> |Render(Some(r)).cards| == |PrescriptionList(r)|
  {
    CompleteCardsRender(PrescriptionList(r));
  }

  /**
   * A decoded reply with a `Prescriptions` array renders, once normalised, one card per prescription, unless some
   * prescription has a `null` section: normalisation fills in missing keys but keeps the values already there.
   */
  lemma NormalisedListRenders(doc: Json, r: Json)
    requires Normalised(doc) == Value(r)
    requires "Prescriptions" in doc.fields && doc.fields["Prescriptions"].JArr?
    ensures |PrescriptionList(r)| == |doc.fields["Prescriptions"].items|
    ensures Render(Some(r)).Cards? <==> forall k :: 0 <= k < |PrescriptionList(r)| ==> !NullSection(PrescriptionList(r)[k])
    ensures Render(Some(r)).Cards? ==> |Render(Some(r)).cards| == |PrescriptionList(r)|
  {
    var filled := NormalisedList(doc);
    assert r.JObj? && PrescriptionList(r) == filled;
    CompleteListRenders(r);
  }
}
