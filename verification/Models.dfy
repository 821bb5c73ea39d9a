/** The data that travels through the pipeline (univention/provisioning/models). */
module Models {

  datatype Option<+T> = None | Some(value: T)

  datatype RealmTopic = RealmTopic(realm: string, topic: string)

  datatype FillQueueStatus = Pending | Running | Failed | Done

  datatype Subscription = Subscription(
    name: string,
    realmsTopics: seq<RealmTopic>,
    requestPrefill: bool,
    prefillQueueStatus: FillQueueStatus)

  /** A UDM representation; the properties stand for all fields the pipeline never looks at. */
  datatype UdmObject = UdmObject(uuid: string, dn: string, objectType: string, properties: map<string, string>)

  /** The fields `old` and `new` of a message body; an absent side is the empty dictionary. */
  datatype Body = Body(before: Option<UdmObject>, after: Option<UdmObject>)

  datatype PrefillRequest = PrefillRequest(subscriptionName: string, realmsTopics: seq<RealmTopic>)

  datatype Message = Message(realm: string, topic: string, body: Body)

  function Lookup<K, V>(m: map<K, V>, k: K): (v: Option<V>)
    ensures v.Some? <==> k in m
    ensures v.Some? ==> v.value == m[k]
  {
    if k in m then Some(m[k]) else None
  }

  function Min(a: nat, b: nat): nat {
    if a <= b then a else b
  }
}
