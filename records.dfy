/**
 * The two record shapes of the ingestion service: the flat, abbreviated-key
 * event that clients post, and the structured event the worker logs.
 */
module Records {

  /** The flat event record as decoded from the request body. Every field is a
      string; a key absent from the JSON body decodes to "". */
  datatype OriginalRequest = OriginalRequest(
    ev: string, et: string, id: string, uid: string, mid: string,
    t: string, p: string, l: string, sc: string,
    // two attribute slots: key, value, type
    atrk1: string, atrv1: string, atrt1: string,
    atrk2: string, atrv2: string, atrt2: string,
    // three user-trait slots: key, value, type
    uatrk1: string, uatrv1: string, uatrt1: string,
    uatrk2: string, uatrv2: string, uatrt2: string,
    uatrk3: string, uatrv3: string, uatrt3: string)

  /** The value and type carried by one attribute. */
  datatype Attribute = Attribute(value: string, kind: string)

  /** The value and type carried by one user trait. */
  datatype Trait = Trait(value: string, kind: string)

  /** The structured event record: scalar fields under descriptive names and
      two keyed mappings built from the slots. */
  datatype TransformedRequest = TransformedRequest(
    event: string, eventType: string, appId: string, userId: string,
    messageId: string, pageTitle: string, pageUrl: string,
    browserLanguage: string, screenSize: string,
    attributes: map<string, Attribute>,
    traits: map<string, Trait>)
}
