/**
 * The AlphaPoint WebSocket pre- and post-processors: every outgoing request
 * is stamped with the request message type and a fresh sequence number and
 * has its data frame serialised; every incoming response has its data frame
 * parsed back.
 *
 * The field names and the request message type live in the connector's
 * constants module, which is not part of this model: they are the
 * `WSFields` parameter. JSON serialisation and parsing are the opaque
 * functions `dumps` and `loads`; `loads` gives None on text that is not
 * JSON, where Python's `json.loads` raises.
 */
module AlphaPointWebUtils {
  import opened Wrappers

  /** A JSON value. */
  datatype Json =
    | JNull
    | JBool(b: bool)
    | JInt(i: int)
    | JString(s: string)
    | JList(items: seq<Json>)
    | JObject(members: map<string, Json>)

  /** The frame field names and the request message type. */
  datatype WSFields = WSFields(msgTypeField: string, sequenceField: string, dataField: string, requestMsgType: int)

  predicate DistinctFields(f: WSFields)
  {
    f.msgTypeField != f.sequenceField && f.msgTypeField != f.dataField && f.sequenceField != f.dataField
  }

  /** The payload `pre_process` leaves for sequence number `n`; None where reading the data field raises. */
  function PreProcessed(payload: map<string, Json>, n: int, f: WSFields, dumps: Json -> string)
    : (r: Option<map<string, Json>>)
    requires DistinctFields(f)
    ensures r.Some? <==> f.dataField in payload
    ensures r.Some? ==> r.value.Keys == payload.Keys + {f.msgTypeField, f.sequenceField}
    ensures r.Some? ==>
              r.value[f.msgTypeField] == JInt(f.requestMsgType) && r.value[f.sequenceField] == JInt(n)
              && r.value[f.dataField] == JString(dumps(payload[f.dataField]))
    ensures r.Some? ==> forall k | k in payload && k !in {f.msgTypeField, f.sequenceField, f.dataField} ::
                          r.value[k] == payload[k]
  {
    if f.dataField in payload then
      var stamped := payload[f.msgTypeField := JInt(f.requestMsgType)][f.sequenceField := JInt(n)];
      Some(stamped[f.dataField := JString(dumps(stamped[f.dataField]))])
    else None
  }

  /** The data `post_process` leaves: the data field parsed where it is present; None where parsing raises. */
  function PostProcessed(data: map<string, Json>, f: WSFields, loads: string -> Option<Json>)
    : (r: Option<map<string, Json>>)
    ensures f.dataField !in data ==> r == Some(data)
    ensures r.Some? ==> r.value.Keys == data.Keys
    ensures r.Some? ==> forall k | k in data && k != f.dataField :: r.value[k] == data[k]
    ensures r.Some? && f.dataField in data ==>
              data[f.dataField].JString? && Some(r.value[f.dataField]) == loads(data[f.dataField].s)
    ensures r.None? <==> f.dataField in data && (!data[f.dataField].JString? || loads(data[f.dataField].s).None?)
  {
    if f.dataField !in data then Some(data)
    else
      match data[f.dataField]
      case JString(text) =>
        (match loads(text)
         case Some(parsed) => Some(data[f.dataField := parsed])
         case None => None)
      case _ => None
  }

  /**
   * Parsing the response frame a request frame became gives back the
   * request's data wherever `loads` inverts `dumps`.
   */
  lemma PostProcessInvertsPreProcess(payload: map<string, Json>, n: int, f: WSFields,
                                     dumps: Json -> string, loads: string -> Option<Json>)
    requires DistinctFields(f) && f.dataField in payload
    requires loads(dumps(payload[f.dataField])) == Some(payload[f.dataField])
    ensures PostProcessed(PreProcessed(payload, n, f, dumps).value, f, loads).Some?
    ensures PostProcessed(PreProcessed(payload, n, f, dumps).value, f, loads).value[f.dataField] == payload[f.dataField]
  {
  }

  /** A request on its way out. */
  class WSRequest {
    var payload: map<string, Json>

    constructor (payload: map<string, Json>)
      ensures this.payload == payload
    {
      this.payload := payload;
    }
  }

  /** A response on its way in. */
  class WSResponse {
    var data: map<string, Json>

    constructor (data: map<string, Json>)
      ensures this.data == data
    {
      this.data := data;
    }
  }

  /** The `n`-th sequence number a pre-processor hands out (counting from 0). */
  function SequenceNumber(n: nat): (s: int)
    ensures s % 2 == 0 && s >= 2
  {
    2 * (n + 1)
  }

  /** The sequence numbers handed out are even, start at 2 and strictly increase. */
  lemma {:induction false} SequenceNumbersIncrease(i: nat, j: nat)
    requires i < j
    ensures SequenceNumber(i) < SequenceNumber(j)
    ensures SequenceNumber(j) - SequenceNumber(i) == 2 * (j - i)
  {
  }

  /** `AlphaPointWSPreProcessor`. */
  class WSPreProcessor {
    var msgSequenceNum: int
    /** The sequence numbers handed out so far, oldest first. */
    ghost var issued: seq<int>

    ghost predicate Valid()
      reads this
    {
      msgSequenceNum == 2 * |issued|
      && forall k :: 0 <= k < |issued| ==> issued[k] == SequenceNumber(k)
    }

    constructor ()
      ensures Valid() && issued == [] && msgSequenceNum == 0
    {
      msgSequenceNum := 0;
      issued := [];
    }

    /** `_generate_sequence_number`: two more than the last one handed out. */
    method GenerateSequenceNumber() returns (n: int)
      requires Valid()
      modifies this
      ensures Valid()
      ensures n == old(msgSequenceNum) + 2 && msgSequenceNum == n
      ensures issued == old(issued) + [n] && n == SequenceNumber(|old(issued)|)
    {
      msgSequenceNum := msgSequenceNum + 2;
      n := msgSequenceNum;
      issued := issued + [n];
    }

    /**
     * `pre_process`: stamps the message type and a fresh sequence number
     * and serialises the data field. Reading a missing data field raises
     * after the stamping (`ok` false); the sequence number is spent either
     * way.
     */
    method PreProcess(request: WSRequest, f: WSFields, dumps: Json -> string) returns (ok: bool)
      requires Valid() && DistinctFields(f)
      modifies this, request
      ensures Valid()
      ensures issued == old(issued) + [SequenceNumber(|old(issued)|)]
      ensures ok <==> f.dataField in old(request.payload)
      ensures ok ==> Some(request.payload) == PreProcessed(old(request.payload), SequenceNumber(|old(issued)|), f, dumps)
      ensures !ok ==> request.payload
                      == old(request.payload)[f.msgTypeField := JInt(f.requestMsgType)]
                                             [f.sequenceField := JInt(SequenceNumber(|old(issued)|))]
    {
      request.payload := request.payload[f.msgTypeField := JInt(f.requestMsgType)];
      var sequenceNum := GenerateSequenceNumber();
      request.payload := request.payload[f.sequenceField := JInt(sequenceNum)];
      if f.dataField in request.payload {
        request.payload := request.payload[f.dataField := JString(dumps(request.payload[f.dataField]))];
        ok := true;
      } else {
        ok := false;
      }
    }
  }

  /**
   * `AlphaPointWSPostProcessor.post_process`: parses the data field when
   * there is one; text that does not parse raises (`ok` false).
   */
  method PostProcess(response: WSResponse, f: WSFields, loads: string -> Option<Json>) returns (ok: bool)
    modifies response
    ensures ok <==> PostProcessed(old(response.data), f, loads).Some?
    ensures ok ==> response.data == PostProcessed(old(response.data), f, loads).value
    ensures !ok ==> response.data == old(response.data)
  {
    if f.dataField in response.data {
      match response.data[f.dataField]
      case JString(text) =>
        var parsed := loads(text);
        if parsed.Some? {
          response.data := response.data[f.dataField := parsed.value];
          ok := true;
        } else {
          ok := false;
        }
      case _ =>
        ok := false;
    } else {
      ok := true;
    }
  }

  /** Three requests through one pre-processor carry the sequence numbers 2, 4 and 6. */
  method ThreeRequests(f: WSFields, dumps: Json -> string) returns (numbers: seq<int>)
    requires DistinctFields(f)
    ensures numbers == [2, 4, 6]
  {
    var pre := new WSPreProcessor();
    numbers := [];
    var k := 0;
    while k < 3
      invariant 0 <= k <= 3
      invariant pre.Valid() && |pre.issued| == k
      invariant numbers == pre.issued
      decreases 3 - k
    {
      var request := new WSRequest(map[f.dataField := JObject(map[])]);
      var ok := pre.PreProcess(request, f, dumps);
      assert request.payload[f.sequenceField] == JInt(SequenceNumber(k));
      numbers := numbers + [SequenceNumber(k)];
      k := k + 1;
    }
  }
}
