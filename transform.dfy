/**
 * The flat-to-structured transformation the worker applies to every record:
 * nine scalar fields are copied under descriptive names, and the attribute
 * and trait mappings are built from the fixed positional slots, each slot
 * assigned in order so that a later slot with the same key overwrites an
 * earlier one. Empty keys are kept like any other key.
 */
module Transform {
  import opened Records
  import opened Slots

  /** The attribute slots in the order the map literal lists them. */
  function AttributeSlots(o: OriginalRequest): seq<(string, Attribute)>
  {
    [(o.atrk1, Attribute(o.atrv1, o.atrt1)),
     (o.atrk2, Attribute(o.atrv2, o.atrt2))]
  }

  /** The trait slots in the order the map literal lists them. */
  function TraitSlots(o: OriginalRequest): seq<(string, Trait)>
  {
    [(o.uatrk1, Trait(o.uatrv1, o.uatrt1)),
     (o.uatrk2, Trait(o.uatrv2, o.uatrt2)),
     (o.uatrk3, Trait(o.uatrv3, o.uatrt3))]
  }

  /** The structured record built from a flat one. */
  function TransformRequest(o: OriginalRequest): (r: TransformedRequest)
    ensures r.event == o.ev && r.eventType == o.et && r.appId == o.id
    ensures r.userId == o.uid && r.messageId == o.mid && r.pageTitle == o.t
    ensures r.pageUrl == o.p && r.browserLanguage == o.l && r.screenSize == o.sc
    ensures r.attributes.Keys == {o.atrk1, o.atrk2}
    ensures r.traits.Keys == {o.uatrk1, o.uatrk2, o.uatrk3}
  {
    TransformedRequest(
      event := o.ev,
      eventType := o.et,
      appId := o.id,
      userId := o.uid,
      messageId := o.mid,
      pageTitle := o.t,
      pageUrl := o.p,
      browserLanguage := o.l,
      screenSize := o.sc,
      attributes := map[]
        [o.atrk1 := Attribute(o.atrv1, o.atrt1)]
        [o.atrk2 := Attribute(o.atrv2, o.atrt2)],
      traits := map[]
        [o.uatrk1 := Trait(o.uatrv1, o.uatrt1)]
        [o.uatrk2 := Trait(o.uatrv2, o.uatrt2)]
        [o.uatrk3 := Trait(o.uatrv3, o.uatrt3)])
  }

  /** Both mappings are exactly the in-order, last-write-wins assignment of their slots. */
  lemma MapsAreSlotAssignments(o: OriginalRequest)
    ensures TransformRequest(o).attributes == Assign(AttributeSlots(o))
    ensures TransformRequest(o).traits == Assign(TraitSlots(o))
  {
    var a := AttributeSlots(o);
    assert a[..1][..0] == [];
    var t := TraitSlots(o);
    assert t[..2][..1] == t[..1] && t[..1][..0] == [];
    assert Assign(t[..1]) == map[o.uatrk1 := t[0].1];
    assert Assign(t[..2]) == Assign(t[..1])[o.uatrk2 := t[1].1];
  }

  /** Neither mapping is ever empty, even when every field is "": the
      attribute mapping has one or two entries and the trait mapping one to
      three. */
  lemma MappingSizes(o: OriginalRequest)
    ensures 1 <= |TransformRequest(o).attributes| <= 2
    ensures 1 <= |TransformRequest(o).traits| <= 3
  {
    MapsAreSlotAssignments(o);
  }

  /** The attribute mapping has a single entry exactly when both slots share a
      key, and that entry is the second slot's; with distinct keys each key
      keeps its own slot's value and type. */
  lemma AttributesBySlot(o: OriginalRequest)
    ensures var attrs := TransformRequest(o).attributes;
      && (|attrs| == 1 <==> o.atrk1 == o.atrk2)
      && (|attrs| == 2 <==> o.atrk1 != o.atrk2)
      && attrs[o.atrk2] == Attribute(o.atrv2, o.atrt2)
      && (o.atrk1 != o.atrk2 ==> attrs[o.atrk1] == Attribute(o.atrv1, o.atrt1))
  {
    MapsAreSlotAssignments(o);
    AssignSizeIffDistinct(AttributeSlots(o));
  }

  /** The value of a trait key comes from the highest-numbered slot that
      carries it: slot 3 over slot 2 over slot 1. */
  lemma TraitFromHighestSlot(o: OriginalRequest, k: string)
    requires k in {o.uatrk1, o.uatrk2, o.uatrk3}
    ensures k in TransformRequest(o).traits
    ensures TransformRequest(o).traits[k] ==
      if k == o.uatrk3 then Trait(o.uatrv3, o.uatrt3)
      else if k == o.uatrk2 then Trait(o.uatrv2, o.uatrt2)
      else Trait(o.uatrv1, o.uatrt1)
  {
    MapsAreSlotAssignments(o);
    var slots := TraitSlots(o);
    var i := if k == o.uatrk3 then 2 else if k == o.uatrk2 then 1 else 0;
    LastSlotWins(slots, i);
  }

  /** The trait mapping has three entries exactly when the three trait keys
      are pairwise distinct, and then each key holds its own slot's entry. */
  lemma TraitsBySlot(o: OriginalRequest)
    ensures var traits := TransformRequest(o).traits;
      && (|traits| == 3 <==>
          o.uatrk1 != o.uatrk2 && o.uatrk1 != o.uatrk3 && o.uatrk2 != o.uatrk3)
      && (|traits| == 3 ==>
          && traits[o.uatrk1] == Trait(o.uatrv1, o.uatrt1)
          && traits[o.uatrk2] == Trait(o.uatrv2, o.uatrt2)
          && traits[o.uatrk3] == Trait(o.uatrv3, o.uatrt3))
  {
    MapsAreSlotAssignments(o);
    var slots := TraitSlots(o);
    AssignSizeIffDistinct(slots);
    if |TransformRequest(o).traits| == 3 {
      assert slots[0].0 != slots[1].0 && slots[0].0 != slots[2].0 && slots[1].0 != slots[2].0;
    }
  }
}
