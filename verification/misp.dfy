/**
  The MISP search client: connections, the two query kinds and the request
  envelope they are sent in, the search dispatcher with its HTTP status
  handling, the two response envelopes and their flattening into one ordered
  sequence of objects, and the timestamp accessors of the returned records.

  The HTTP round trip is a `Transport` (a function from the request sent to
  what came back) and JSON decoding of a response body is a pair of
  `Decoders`; what the environment's proxy settings give for a request is a
  `Proxy`, and whether building a request accepts its URL is a
  `RequestCheck`. Everything else is the case analysis the client performs.
 */
module Misp {
  import opened Wrappers
  import opened Decimal
  import opened Json

  newtype byte = x: int | 0 <= x < 256
  newtype int8 = x: int | -128 <= x < 128

  type Bytes = seq<byte>

  /** The reasons a MISP operation stops the program with a panic. */
  datatype Panic =
    | UnknownProtocol            // a connection built with a protocol other than http or https
    | BodyUnread                 // the response body could not be read
    | UndecodableResponse        // a 200 response whose body does not decode
    | BadTimestamp(raw: string)  // a timestamp string that is not a 64-bit decimal integer
    | ProxyLookupFailed(reason: string)  // the proxy setting of the environment does not parse
    | NilProxyURL                // the proxy URL of a request that goes direct is logged

  // ---------------------------------------------------------------------------
  // Errors
  // ---------------------------------------------------------------------------

  /** A search the server answered with a status other than 200. */
  datatype MispError = MispError(statusCode: int, message: string)

  const ErrorPrefix: string := "MISP ERROR (HTTP "
  const ErrorSeparator: string := ") : "

  /** The text of a MispError: its status code in decimal, then the message. */
  function ErrorText(me: MispError): (s: string)
    ensures ErrorPrefix <= s
    ensures |s| >= |me.message| && s[|s| - |me.message|..] == me.message
    ensures ParenAt(s) == |ErrorPrefix| + |IntToDecimal(me.statusCode)|
    ensures s[|ErrorPrefix|..ParenAt(s)] == IntToDecimal(me.statusCode)
    ensures ParenAt(s) + |ErrorSeparator| <= |s| && s[ParenAt(s)..ParenAt(s) + |ErrorSeparator|] == ErrorSeparator
    ensures |s| == |ErrorPrefix| + |IntToDecimal(me.statusCode)| + |ErrorSeparator| + |me.message|
  {
    var code := IntToDecimal(me.statusCode);
    var s := ErrorPrefix + code + ErrorSeparator + me.message;
    ParenAtAfter(ErrorPrefix + code, ErrorSeparator + me.message);
    assert s == (ErrorPrefix + code) + (ErrorSeparator + me.message);
    s
  }

  /** The index of the first ')' in s, or |s| when there is none. */
  function ParenAt(s: string): (k: nat)
    ensures k <= |s|
  {
    if s == [] then 0 else if s[0] == ')' then 0 else 1 + ParenAt(s[1..])
  }

  lemma {:induction false} ParenAtAfter(head: string, rest: string)
    requires forall i :: 0 <= i < |head| ==> head[i] != ')'
    requires rest != [] && rest[0] == ')'
    ensures ParenAt(head + rest) == |head|
  {
    if head != [] {
      assert (head + rest)[1..] == head[1..] + rest;
      ParenAtAfter(head[1..], rest);
    }
  }

  /** The error text loses nothing: distinct errors render differently. */
  lemma ErrorTextInjective(a: MispError, b: MispError)
    requires ErrorText(a) == ErrorText(b)
    ensures a == b
  {
    var s := ErrorText(a);
    var da, db := IntToDecimal(a.statusCode), IntToDecimal(b.statusCode);
    var p := |ErrorPrefix|;
    assert |da| == |db|;
    assert s == ErrorPrefix + (da + (ErrorSeparator + a.message));
    assert s == ErrorPrefix + (db + (ErrorSeparator + b.message));
    assert s[p..] == da + (ErrorSeparator + a.message) == db + (ErrorSeparator + b.message);
    assert da == s[p..][..|da|] == db;
    IntToDecimalInjective(a.statusCode, b.statusCode);
    assert a.message == s[p..][|da| + |ErrorSeparator|..] == b.message;
  }

  // ---------------------------------------------------------------------------
  // Connections
  // ---------------------------------------------------------------------------

  /** The HTTP client a connection holds: the default one, or one that skips TLS verification. */
  datatype Client = DefaultClient | InsecureClient

  datatype MispCon = MispCon(proto: string, host: string, apiKey: string, restAPIURL: string, client: Client)

  predicate KnownProtocol(proto: string) {
    proto == "http" || proto == "https"
  }

  /** A connection with the default HTTP client. */
  function NewCon(proto: string, host: string, apiKey: string, restApiUrl: string): (r: Run<MispCon, Panic>)
    ensures r.Done? <==> KnownProtocol(proto)
    ensures r.Abort? ==> r.cause == UnknownProtocol
    ensures r.Done? ==> r.value == MispCon(proto, host, apiKey, restApiUrl, DefaultClient)
  {
    if !KnownProtocol(proto) then Abort(UnknownProtocol)
    else Done(MispCon(proto, host, apiKey, restApiUrl, DefaultClient))
  }

  /** A connection whose HTTP client does not verify TLS certificates. */
  function NewInsecureCon(proto: string, host: string, apiKey: string, restApiUrl: string): (r: Run<MispCon, Panic>)
    ensures r.Done? <==> KnownProtocol(proto)
    ensures r.Abort? ==> r.cause == UnknownProtocol
    ensures r.Done? ==> r.value == MispCon(proto, host, apiKey, restApiUrl, InsecureClient)
  {
    if !KnownProtocol(proto) then Abort(UnknownProtocol)
    else Done(MispCon(proto, host, apiKey, restApiUrl, InsecureClient))
  }

  // ---------------------------------------------------------------------------
  // Queries and the request envelope
  // ---------------------------------------------------------------------------

  /** Filters of an event search; `typ` is the field sent under the key "type". */
  datatype MispEventQuery = MispEventQuery(
    value: string, typ: string, category: string, org: string, tags: string,
    quickFilter: string, from: string, to: string, last: string, eventID: string,
    withAttachments: string, metadata: string, searchAll: int8)

  /** Filters of an attribute search; `typ` is the field sent under the key "type". */
  datatype MispAttributeQuery = MispAttributeQuery(
    value: string, typ: string, category: string, org: string, tags: string,
    from: string, to: string, last: string, eventID: string, uuid: string)

  /**
    The implementations of the query interface: the two the dispatcher knows,
    and any other one, which carries the request body its own Prepare builds.
   */
  datatype MispQuery =
    | AttributeQuery(attributes: MispAttributeQuery)
    | EventQuery(events: MispEventQuery)
    | OtherQuery(prepared: Json)

  /** The JSON keys of an event query's fields, in declaration order. */
  const EventQueryTags: seq<string> := ["value", "type", "category", "org", "tags", "quickfilter", "from", "to", "last", "eventid", "withAttachments", "metadata", "searchall"]

  /** The JSON keys of an attribute query's fields, in declaration order. */
  const AttributeQueryTags: seq<string> := ["value", "type", "category", "org", "tags", "from", "to", "last", "eventid", "uuid"]

  /** No two fields of a query share a JSON key. */
  lemma QueryTagsDistinct()
    ensures Distinct(EventQueryTags) && Distinct(AttributeQueryTags)
  {
  }

  /** The JSON object of an event query: every field, under its tag, in declaration order. */
  function EncodeEventQuery(q: MispEventQuery): (j: Json)
    ensures j.JObject? && Keys(j.members) == EventQueryTags
  {
    JObject([
      ("value", JString(q.value)), ("type", JString(q.typ)), ("category", JString(q.category)),
      ("org", JString(q.org)), ("tags", JString(q.tags)), ("quickfilter", JString(q.quickFilter)),
      ("from", JString(q.from)), ("to", JString(q.to)), ("last", JString(q.last)),
      ("eventid", JString(q.eventID)), ("withAttachments", JString(q.withAttachments)),
      ("metadata", JString(q.metadata)), ("searchall", JInt(q.searchAll as int))])
  }

  /** The JSON object of an attribute query: every field, under its tag, in declaration order. */
  function EncodeAttributeQuery(q: MispAttributeQuery): (j: Json)
    ensures j.JObject? && Keys(j.members) == AttributeQueryTags
  {
    JObject([
      ("value", JString(q.value)), ("type", JString(q.typ)), ("category", JString(q.category)),
      ("org", JString(q.org)), ("tags", JString(q.tags)), ("from", JString(q.from)),
      ("to", JString(q.to)), ("last", JString(q.last)), ("eventid", JString(q.eventID)),
      ("uuid", JString(q.uuid))])
  }

  /** The query held by the "request" member of an envelope. */
  function RequestOf(envelope: Json): Option<Json> {
    if envelope.JObject? then Member(envelope.members, "request") else None
  }

  /** Reads an event query back from the members named by its tags. */
  function DecodeEventQuery(j: Json): Option<MispEventQuery> {
    if !j.JObject? then None
    else
      var m := j.members;
      var value :- StringMember(m, "value");
      var typ :- StringMember(m, "type");
      var category :- StringMember(m, "category");
      var org :- StringMember(m, "org");
      var tags :- StringMember(m, "tags");
      var quickFilter :- StringMember(m, "quickfilter");
      var from :- StringMember(m, "from");
      var to :- StringMember(m, "to");
      var last :- StringMember(m, "last");
      var eventID :- StringMember(m, "eventid");
      var withAttachments :- StringMember(m, "withAttachments");
      var metadata :- StringMember(m, "metadata");
      var searchAll :- IntMember(m, "searchall");
      if -128 <= searchAll < 128 then
        Some(MispEventQuery(value, typ, category, org, tags, quickFilter, from, to, last,
                            eventID, withAttachments, metadata, searchAll as int8))
      else None
  }

  /** Reads an attribute query back from the members named by its tags. */
  function DecodeAttributeQuery(j: Json): Option<MispAttributeQuery> {
    if !j.JObject? then None
    else
      var m := j.members;
      var value :- StringMember(m, "value");
      var typ :- StringMember(m, "type");
      var category :- StringMember(m, "category");
      var org :- StringMember(m, "org");
      var tags :- StringMember(m, "tags");
      var from :- StringMember(m, "from");
      var to :- StringMember(m, "to");
      var last :- StringMember(m, "last");
      var eventID :- StringMember(m, "eventid");
      var uuid :- StringMember(m, "uuid");
      Some(MispAttributeQuery(value, typ, category, org, tags, from, to, last, eventID, uuid))
  }

  /** Decoding the encoding of an event query by key gives the query back. */
  lemma EventQueryRoundTrip(q: MispEventQuery)
    ensures DecodeEventQuery(EncodeEventQuery(q)) == Some(q)
  {
    var m := EncodeEventQuery(q).members;
    QueryTagsDistinct();
    MemberOfDistinct(m, 0);
    MemberOfDistinct(m, 1);
    MemberOfDistinct(m, 2);
    MemberOfDistinct(m, 3);
    MemberOfDistinct(m, 4);
    MemberOfDistinct(m, 5);
    MemberOfDistinct(m, 6);
    MemberOfDistinct(m, 7);
    MemberOfDistinct(m, 8);
    MemberOfDistinct(m, 9);
    MemberOfDistinct(m, 10);
    MemberOfDistinct(m, 11);
    MemberOfDistinct(m, 12);
  }

  /** Decoding the encoding of an attribute query by key gives the query back. */
  lemma AttributeQueryRoundTrip(q: MispAttributeQuery)
    ensures DecodeAttributeQuery(EncodeAttributeQuery(q)) == Some(q)
  {
    var m := EncodeAttributeQuery(q).members;
    QueryTagsDistinct();
    MemberOfDistinct(m, 0);
    MemberOfDistinct(m, 1);
    MemberOfDistinct(m, 2);
    MemberOfDistinct(m, 3);
    MemberOfDistinct(m, 4);
    MemberOfDistinct(m, 5);
    MemberOfDistinct(m, 6);
    MemberOfDistinct(m, 7);
    MemberOfDistinct(m, 8);
    MemberOfDistinct(m, 9);
  }

  /**
    The request body of an event search: an envelope whose only member is
    "request", holding the query, from which the query can be read back.
   */
  function PrepareEvent(q: MispEventQuery): (j: Json)
    ensures j.JObject? && Keys(j.members) == ["request"]
    ensures var inner := RequestOf(j); inner.Some? && DecodeEventQuery(inner.value) == Some(q)
  {
    EventQueryRoundTrip(q);
    JObject([("request", EncodeEventQuery(q))])
  }

  /**
    The request body of an attribute search: an envelope whose only member is
    "request", holding the query, from which the query can be read back.
   */
  function PrepareAttribute(q: MispAttributeQuery): (j: Json)
    ensures j.JObject? && Keys(j.members) == ["request"]
    ensures var inner := RequestOf(j); inner.Some? && DecodeAttributeQuery(inner.value) == Some(q)
  {
    AttributeQueryRoundTrip(q);
    JObject([("request", EncodeAttributeQuery(q))])
  }

  /** The query interface's Prepare, dispatched on the implementation. */
  function Prepare(q: MispQuery): (j: Json)
    ensures q.EventQuery? ==> RequestOf(j).Some? && DecodeEventQuery(RequestOf(j).value) == Some(q.events)
    ensures q.AttributeQuery? ==> RequestOf(j).Some? && DecodeAttributeQuery(RequestOf(j).value) == Some(q.attributes)
    ensures q.OtherQuery? ==> j == q.prepared
  {
    match q
    case AttributeQuery(aq) => PrepareAttribute(aq)
    case EventQuery(eq) => PrepareEvent(eq)
    case OtherQuery(body) => body
  }

  /**
    Unset filters are still sent: an event query with only `last` set yields
    a request carrying all thirteen keys, the others with empty values.
   */
  lemma UnsetFiltersAreSent(last: string)
    ensures var j := EncodeEventQuery(MispEventQuery("", "", "", "", "", "", "", "", last, "", "", "", 0));
      && Keys(j.members) == EventQueryTags
      && Member(j.members, "last") == Some(JString(last))
      && Member(j.members, "value") == Some(JString(""))
      && Member(j.members, "searchall") == Some(JInt(0))
  {
    var m := EncodeEventQuery(MispEventQuery("", "", "", "", "", "", "", "", last, "", "", "", 0)).members;
    QueryTagsDistinct();
    MemberOfDistinct(m, 8);
    MemberOfDistinct(m, 0);
    MemberOfDistinct(m, 12);
  }

  // ---------------------------------------------------------------------------
  // Records returned by a search
  // ---------------------------------------------------------------------------

  datatype Org = Org(id: string, name: string, uuid: string)

  datatype MispRelatedEvent = MispRelatedEvent(
    id: string, date: string, threatLevelID: string, info: string, published: bool,
    uuid: string, analysis: string, strTimestamp: string, distribution: string,
    orgID: string, orgcID: string, org: Org, orgc: Org)

  /** An attribute record; `typ` is the field received under the key "type". */
  datatype MispAttribute = MispAttribute(
    id: string, eventID: string, uuid: string, sharingGroupID: string, strTimestamp: string,
    distribution: string, category: string, typ: string, value: string, toIDS: bool,
    deleted: bool, comment: string)

  datatype MispEvent = MispEvent(
    id: string, orgcID: string, orgID: string, date: string, threatLevelID: string,
    info: string, published: bool, uuid: string, attributeCount: string, analysis: string,
    strTimestamp: string, distribution: string, proposalEmailLock: bool, locked: bool,
    publishedTimestamp: string, sharingGroupID: string, org: Org, orgc: Org,
    attribute: seq<MispAttribute>, shadowAttribute: seq<MispAttribute>,
    relatedEvent: seq<MispRelatedEvent>, galaxy: seq<MispRelatedEvent>)

  /** The event search envelope: an array of objects, each wrapping one event. */
  datatype MispEventDict = MispEventDict(event: MispEvent)
  datatype MispEventResponse = MispEventResponse(response: seq<MispEventDict>)

  /** The attribute search envelope: one object holding the array of attributes. */
  datatype MispAttributeDict = MispAttributeDict(attribute: seq<MispAttribute>)
  datatype MispAttributeResponse = MispAttributeResponse(response: MispAttributeDict)

  /** The implementations of the response interface. */
  datatype MispResponse =
    | EmptyMispResponse
    | EventResponse(events: MispEventResponse)
    | AttributeResponse(attributes: MispAttributeResponse)

  /** What iterating a response produces. */
  datatype MispObject = EventObject(event: MispEvent) | AttributeObject(attribute: MispAttribute)

  // ---------------------------------------------------------------------------
  // Timestamps
  // ---------------------------------------------------------------------------

  /** Whole seconds since the epoch from a decimal string, panicking when ParseInt fails. */
  function ParseTimestamp(raw: string): (r: Run<int, Panic>)
    ensures r.Done? ==> IsInt64(r.value) && ParseInt64(raw) == Some(r.value)
    ensures r.Abort? ==> ParseInt64(raw) == None && r.cause == BadTimestamp(raw)
    ensures forall n :: IsInt64(n) && raw == IntToDecimal(n) ==> r == Done(n)
  {
    assert forall n | IsInt64(n) && raw == IntToDecimal(n) :: ParseInt64(raw) == Some(n) by {
      forall n | IsInt64(n) && raw == IntToDecimal(n) ensures ParseInt64(raw) == Some(n) {
        ParseIntToDecimal(n);
      }
    }
    match ParseInt64(raw)
    case Some(n) => Done(n)
    case None => Abort(BadTimestamp(raw))
  }

  /** The timestamp of a related event. */
  function RelatedEventTimestamp(mre: MispRelatedEvent): (r: Run<int, Panic>)
    ensures r.Done? ==> IsInt64(r.value) && ParseInt64(mre.strTimestamp) == Some(r.value)
    ensures r.Abort? ==> ParseInt64(mre.strTimestamp) == None
    ensures forall n :: IsInt64(n) && mre.strTimestamp == IntToDecimal(n) ==> r == Done(n)
  {
    ParseTimestamp(mre.strTimestamp)
  }

  /** The timestamp of an event. */
  function EventTimestamp(me: MispEvent): (r: Run<int, Panic>)
    ensures r.Done? ==> IsInt64(r.value) && ParseInt64(me.strTimestamp) == Some(r.value)
    ensures r.Abort? ==> ParseInt64(me.strTimestamp) == None
    ensures forall n :: IsInt64(n) && me.strTimestamp == IntToDecimal(n) ==> r == Done(n)
  {
    ParseTimestamp(me.strTimestamp)
  }

  /** The timestamp of an attribute. */
  function AttributeTimestamp(ma: MispAttribute): (r: Run<int, Panic>)
    ensures r.Done? ==> IsInt64(r.value) && ParseInt64(ma.strTimestamp) == Some(r.value)
    ensures r.Abort? ==> ParseInt64(ma.strTimestamp) == None
    ensures forall n :: IsInt64(n) && ma.strTimestamp == IntToDecimal(n) ==> r == Done(n)
  {
    ParseTimestamp(ma.strTimestamp)
  }

  /**
    A timestamp that is empty or holds a non-digit stops the program; one out
    of range does too, by ParseRejectsOutOfRange and ParseTimestamp's contract.
   */
  lemma TimestampRejects(raw: string)
    requires raw == [] || (exists i :: 0 < i < |raw| && !IsDigit(raw[i])) || (raw[0] != '+' && raw[0] != '-' && !IsDigit(raw[0]))
    ensures ParseTimestamp(raw) == Abort(BadTimestamp(raw))
  {
    if raw == [] {
      ParseRejectsNoDigits(raw);
    } else if raw[0] != '+' && raw[0] != '-' && !IsDigit(raw[0]) {
      ParseRejectsNonDigit(raw, 0);
    } else {
      var i :| 0 < i < |raw| && !IsDigit(raw[i]);
      ParseRejectsNonDigit(raw, i);
    }
  }

  // ---------------------------------------------------------------------------
  // Iteration
  // ---------------------------------------------------------------------------

  /** The events wrapped by an event envelope, in array order. */
  function EventObjects(ds: seq<MispEventDict>): seq<MispObject> {
    if ds == [] then [] else [EventObject(ds[0].event)] + EventObjects(ds[1..])
  }

  /** The attributes of an attribute envelope, in array order. */
  function AttributeObjects(attrs: seq<MispAttribute>): seq<MispObject> {
    if attrs == [] then [] else [AttributeObject(attrs[0])] + AttributeObjects(attrs[1..])
  }

  /** Everything a response yields when iterated. */
  function Objects(r: MispResponse): seq<MispObject> {
    match r
    case EmptyMispResponse => []
    case EventResponse(mer) => EventObjects(mer.response)
    case AttributeResponse(mar) => AttributeObjects(mar.response.attribute)
  }

  lemma {:induction false} EventObjectsAt(ds: seq<MispEventDict>)
    ensures |EventObjects(ds)| == |ds|
    ensures forall i :: 0 <= i < |ds| ==> EventObjects(ds)[i] == EventObject(ds[i].event)
  {
    if ds != [] {
      EventObjectsAt(ds[1..]);
    }
  }

  lemma {:induction false} AttributeObjectsAt(attrs: seq<MispAttribute>)
    ensures |AttributeObjects(attrs)| == |attrs|
    ensures forall i :: 0 <= i < |attrs| ==> AttributeObjects(attrs)[i] == AttributeObject(attrs[i])
  {
    if attrs != [] {
      AttributeObjectsAt(attrs[1..]);
    }
  }

  /** Iterating the empty response yields nothing. */
  method IterEmpty() returns (objs: seq<MispObject>)
    ensures objs == [] && objs == Objects(EmptyMispResponse)
  {
    objs := [];
  }

  /** Iterating an event response yields each wrapped event, in array order. */
  method IterEvents(mer: MispEventResponse) returns (objs: seq<MispObject>)
    ensures |objs| == |mer.response|
    ensures forall i :: 0 <= i < |objs| ==> objs[i] == EventObject(mer.response[i].event)
    ensures objs == Objects(EventResponse(mer))
  {
    objs := [];
    for i := 0 to |mer.response|
      invariant |objs| == i
      invariant forall k :: 0 <= k < i ==> objs[k] == EventObject(mer.response[k].event)
    {
      objs := objs + [EventObject(mer.response[i].event)];
    }
    EventObjectsAt(mer.response);
  }

  /** Iterating an attribute response yields each attribute, in array order. */
  method IterAttributes(mar: MispAttributeResponse) returns (objs: seq<MispObject>)
    ensures |objs| == |mar.response.attribute|
    ensures forall i :: 0 <= i < |objs| ==> objs[i] == AttributeObject(mar.response.attribute[i])
    ensures objs == Objects(AttributeResponse(mar))
  {
    objs := [];
    for i := 0 to |mar.response.attribute|
      invariant |objs| == i
      invariant forall k :: 0 <= k < i ==> objs[k] == AttributeObject(mar.response.attribute[k])
    {
      objs := objs + [AttributeObject(mar.response.attribute[i])];
    }
    AttributeObjectsAt(mar.response.attribute);
  }

  /** The response interface's Iter, dispatched on the implementation. */
  method Iter(r: MispResponse) returns (objs: seq<MispObject>)
    ensures objs == Objects(r)
  {
    match r
    case EmptyMispResponse => objs := IterEmpty();
    case EventResponse(mer) => objs := IterEvents(mer);
    case AttributeResponse(mar) => objs := IterAttributes(mar);
  }

  // ---------------------------------------------------------------------------
  // Posting a search
  // ---------------------------------------------------------------------------

  datatype HttpRequest = HttpRequest(verb: string, url: string, header: seq<(string, string)>, body: Json)

  /**
    What came back from sending a request: it could not be sent, the body
    could not be read, or a status with the body read in full.
   */
  datatype Exchange =
    | ClientFailure(reason: string)
    | BodyUnreadable
    | Replied(status: int, body: Bytes)

  /** The HTTP round trip, as seen by the client. */
  type Transport = HttpRequest -> Exchange

  /** What building a request reports for a URL: the error when the URL is rejected, None when it builds. */
  type RequestCheck = string -> Option<string>

  /** The error a failed post reports: the client's own, or the server's refusal. */
  datatype SearchError = ClientError(reason: string) | RemoteError(err: MispError)

  /** What posting a search returns: a body and an error, one of them empty. */
  datatype Posted = Posted(body: Bytes, err: Option<SearchError>)

  /** The URL of a search of one kind of resource. */
  function SearchURL(con: MispCon, kind: string): (url: string)
    ensures |url| == |con.proto| + 3 + |con.host| + 1 + |kind| + |con.restAPIURL|
    ensures url[..|con.proto|] == con.proto
    ensures url[|con.proto|..|con.proto| + 3] == "://"
    ensures url[|con.proto| + 3..|con.proto| + 3 + |con.host|] == con.host
    ensures url[|con.proto| + 3 + |con.host|] == '/'
    ensures url[|con.proto| + 3 + |con.host| + 1..] == kind + con.restAPIURL
  {
    con.proto + "://" + con.host + "/" + kind + con.restAPIURL
  }

  /** The authenticated POST of a query to the search URL of `kind`. */
  function SearchRequest(con: MispCon, kind: string, q: MispQuery): (r: HttpRequest)
    ensures r.verb == "POST" && r.url == SearchURL(con, kind)
    ensures r.header == [("Authorization", con.apiKey), ("Content-Type", "application/json"), ("Accept", "application/json")]
    ensures q.EventQuery? ==> RequestOf(r.body).Some? && DecodeEventQuery(RequestOf(r.body).value) == Some(q.events)
    ensures q.AttributeQuery? ==> RequestOf(r.body).Some? && DecodeAttributeQuery(RequestOf(r.body).value) == Some(q.attributes)
  {
    HttpRequest("POST", SearchURL(con, kind),
                [("Authorization", con.apiKey), ("Content-Type", "application/json"),
                 ("Accept", "application/json")],
                Prepare(q))
  }

  /** The bytes of a body as a Go string: one character per byte, nothing altered. */
  function BytesToString(b: Bytes): (s: string)
    ensures |s| == |b|
    ensures forall i :: 0 <= i < |b| ==> s[i] as int == b[i] as int
  {
    seq(|b|, i requires 0 <= i < |b| => b[i] as int as char)
  }

  /** The bytes of a string whose characters all fit in a byte. */
  function StringToBytes(s: string): Bytes
    requires forall i :: 0 <= i < |s| ==> s[i] as int < 256
  {
    seq(|s|, i requires 0 <= i < |s| => s[i] as int as byte)
  }

  /** The message of a refused search gives back the body exactly. */
  lemma BodyKeptVerbatim(b: Bytes)
    ensures StringToBytes(BytesToString(b)) == b
  {
  }

  /** A search URL starts with the connection's scheme and names the resource kind. */
  lemma SearchURLShape(con: MispCon, kind: string)
    requires KnownProtocol(con.proto)
    ensures var url := SearchURL(con, kind);
      (con.proto == "http" ==> "http://" <= url) && (con.proto == "https" ==> "https://" <= url) &&
      url[|con.proto| + 3 + |con.host| + 1..] == kind + con.restAPIURL
  {
  }

  /** Attribute and event searches on one connection go to different URLs. */
  lemma SearchURLsDiffer(con: MispCon)
    ensures SearchURL(con, "attributes") != SearchURL(con, "events")
  {
    var k := |con.proto + "://" + con.host + "/"|;
    assert SearchURL(con, "attributes")[k] == 'a';
    assert SearchURL(con, "events")[k] == 'e';
  }

  /**
    What the environment's proxy settings say for a request: no proxy applies
    (the request goes direct), a proxy at some URL, or a setting that does
    not parse.
   */
  datatype Proxy = Direct | ViaProxy(url: string) | BadProxySetting(reason: string)

  /**
    Request logging as written: a proxy lookup error panics, and so does a
    request that goes direct, since the lookup then yields a nil URL whose
    String method is called.
   */
  function LogRequestAsWritten(proxy: Proxy): (r: Run<(), Panic>)
    ensures r.Done? <==> proxy.ViaProxy?
    ensures proxy.Direct? ==> r == Abort(NilProxyURL)
    ensures proxy.BadProxySetting? ==> r == Abort(ProxyLookupFailed(proxy.reason))
  {
    match proxy
    case BadProxySetting(reason) => Abort(ProxyLookupFailed(reason))
    case Direct => Abort(NilProxyURL)
    case ViaProxy(_) => Done(())
  }

  /** Request logging as intended: only a proxy lookup error panics. */
  function LogRequest(proxy: Proxy): (r: Run<(), Panic>)
    ensures r.Done? <==> !proxy.BadProxySetting?
    ensures proxy.BadProxySetting? ==> r == Abort(ProxyLookupFailed(proxy.reason))
  {
    match proxy
    case BadProxySetting(reason) => Abort(ProxyLookupFailed(reason))
    case _ => Done(())
  }

  /** Sends the POST of a query to the search URL of `kind` and sorts out what came back. */
  function SendSearch(con: MispCon, kind: string, q: MispQuery, transport: Transport): (r: Run<Posted, Panic>)
    ensures var x := transport(SearchRequest(con, kind, q));
      && (r.Abort? <==> x.BodyUnreadable?)
      && (r.Abort? ==> r.cause == BodyUnread)
      && (r.Done? ==> (r.value.err.None? <==> x.Replied? && x.status == 200))
      && (r.Done? && r.value.err.None? ==> r.value.body == x.body)
      && (r.Done? && r.value.err.Some? ==> r.value.body == [])
      && (x.Replied? && x.status != 200 ==>
            r.value.err == Some(RemoteError(MispError(x.status, BytesToString(x.body)))))
      && (x.ClientFailure? ==> r.value.err == Some(ClientError(x.reason)))
  {
    match transport(SearchRequest(con, kind, q))
    case ClientFailure(reason) => Done(Posted([], Some(ClientError(reason))))
    case BodyUnreadable => Abort(BodyUnread)
    case Replied(status, body) =>
      if status == 200 then Done(Posted(body, None))
      else Done(Posted([], Some(RemoteError(MispError(status, BytesToString(body))))))
  }

  /**
    Posting a search as written: the request is built, which may fail with
    an error that is returned; then it is logged, then sent.
   */
  function PostSearchAsWritten(con: MispCon, kind: string, q: MispQuery, newRequest: RequestCheck, proxy: Proxy, transport: Transport): (r: Run<Posted, Panic>)
    ensures var built := newRequest(SearchURL(con, kind));
      && (built.Some? ==> r == Done(Posted([], Some(ClientError(built.value)))))
      && (built.None? && !proxy.ViaProxy? ==> r.Abort? && (r.cause == NilProxyURL || r.cause.ProxyLookupFailed?))
      && (built.None? && proxy.ViaProxy? ==> r == SendSearch(con, kind, q, transport))
  {
    match newRequest(SearchURL(con, kind))
    case Some(reason) => Done(Posted([], Some(ClientError(reason))))
    case None =>
      var _ :- LogRequestAsWritten(proxy);
      SendSearch(con, kind, q, transport)
  }

  /**
    Posting a search with the logging corrected: a request that builds and
    goes direct is sent like one through a proxy; only a proxy setting that
    does not parse stops the program before a built request is sent.
   */
  function PostSearch(con: MispCon, kind: string, q: MispQuery, newRequest: RequestCheck, proxy: Proxy, transport: Transport): (r: Run<Posted, Panic>)
    ensures var built := newRequest(SearchURL(con, kind));
      && (built.Some? ==> r == Done(Posted([], Some(ClientError(built.value)))))
      && (built.None? && proxy.BadProxySetting? ==> r == Abort(ProxyLookupFailed(proxy.reason)))
      && (built.None? && !proxy.BadProxySetting? ==> r == SendSearch(con, kind, q, transport))
  {
    match newRequest(SearchURL(con, kind))
    case Some(reason) => Done(Posted([], Some(ClientError(reason))))
    case None =>
      var _ :- LogRequest(proxy);
      SendSearch(con, kind, q, transport)
  }

  /**
    As written, every search whose request builds and goes direct panics
    before it is sent, whatever the server would answer; with the logging
    corrected it is sent, and it panics only when the body cannot be read.
   */
  lemma DirectSearchPanics(con: MispCon, kind: string, q: MispQuery, newRequest: RequestCheck, transport: Transport)
    ensures newRequest(SearchURL(con, kind)).None? ==>
      PostSearchAsWritten(con, kind, q, newRequest, Direct, transport) == Abort(NilProxyURL)
    ensures newRequest(SearchURL(con, kind)).None? ==>
      (PostSearch(con, kind, q, newRequest, Direct, transport).Abort? <==>
       transport(SearchRequest(con, kind, q)).BodyUnreadable?)
  {
  }

  /**
    The correction changes nothing for a request that is rejected when built,
    nor for one that goes through a proxy, nor for a bad proxy setting.
   */
  lemma LoggingCorrectionAgrees(con: MispCon, kind: string, q: MispQuery, newRequest: RequestCheck, proxy: Proxy, transport: Transport)
    ensures newRequest(SearchURL(con, kind)).Some? || !proxy.Direct? ==>
      PostSearchAsWritten(con, kind, q, newRequest, proxy, transport) == PostSearch(con, kind, q, newRequest, proxy, transport)
  {
  }

  // ---------------------------------------------------------------------------
  // Search
  // ---------------------------------------------------------------------------

  /** JSON decoding of a 200 body into each response envelope. */
  datatype Decoders = Decoders(
    attributes: Bytes -> Option<MispAttributeResponse>,
    events: Bytes -> Option<MispEventResponse>)

  /** The resource kind a known query searches. */
  function Kind(q: MispQuery): (kind: string)
    requires !q.OtherQuery?
    ensures q.AttributeQuery? ==> kind == "attributes"
    ensures q.EventQuery? ==> kind == "events"
  {
    if q.AttributeQuery? then "attributes" else "events"
  }

  /**
    Dispatches a query to the search of its kind. A failed post gives the
    empty response; a 200 body that does not decode stops the program.
   */
  function Search(con: MispCon, q: MispQuery, newRequest: RequestCheck, proxy: Proxy, transport: Transport, decoders: Decoders): (r: Run<MispResponse, Panic>)
    ensures r.Done? && r.value.AttributeResponse? ==> q.AttributeQuery?
    ensures r.Done? && r.value.EventResponse? ==> q.EventQuery?
    ensures q.OtherQuery? ==> r == Done(EmptyMispResponse)
    ensures r.Abort? ==> r.cause == BodyUnread || r.cause == UndecodableResponse || (proxy.BadProxySetting? && r.cause == ProxyLookupFailed(proxy.reason))
    ensures !q.OtherQuery? && newRequest(SearchURL(con, Kind(q))).Some? ==> r == Done(EmptyMispResponse)
    ensures !q.OtherQuery? && newRequest(SearchURL(con, Kind(q))).None? && proxy.BadProxySetting? ==>
      r == Abort(ProxyLookupFailed(proxy.reason))
    ensures !q.OtherQuery? && newRequest(SearchURL(con, Kind(q))).None? && !proxy.BadProxySetting? ==>
      (transport(SearchRequest(con, Kind(q), q)).BodyUnreadable? ==> r == Abort(BodyUnread))
  {
    match q
    case AttributeQuery(_) =>
      var posted :- PostSearch(con, Kind(q), q, newRequest, proxy, transport);
      if posted.err.Some? then Done(EmptyMispResponse)
      else
        (match decoders.attributes(posted.body)
         case None => Abort(UndecodableResponse)
         case Some(mar) => Done(AttributeResponse(mar)))
    case EventQuery(_) =>
      var posted :- PostSearch(con, Kind(q), q, newRequest, proxy, transport);
      if posted.err.Some? then Done(EmptyMispResponse)
      else
        (match decoders.events(posted.body)
         case None => Abort(UndecodableResponse)
         case Some(mer) => Done(EventResponse(mer)))
    case OtherQuery(_) => Done(EmptyMispResponse)
  }

  /** The only request a search sends is the POST of the query to the search URL of its kind. */
  lemma SearchSendsOneRequest(con: MispCon, q: MispQuery, newRequest: RequestCheck, proxy: Proxy, t1: Transport, t2: Transport, decoders: Decoders)
    requires !q.OtherQuery?
    requires t1(SearchRequest(con, Kind(q), q)) == t2(SearchRequest(con, Kind(q), q))
    ensures Search(con, q, newRequest, proxy, t1, decoders) == Search(con, q, newRequest, proxy, t2, decoders)
  {
  }

  /**
    A 200 reply that decodes gives the response of the query's kind, and
    iterating it yields exactly the decoded events or attributes, in order.
   */
  lemma SearchYieldsDecoded(con: MispCon, q: MispQuery, newRequest: RequestCheck, proxy: Proxy, transport: Transport, decoders: Decoders, body: Bytes)
    requires !q.OtherQuery? && newRequest(SearchURL(con, Kind(q))).None? && !proxy.BadProxySetting?
    requires transport(SearchRequest(con, Kind(q), q)) == Replied(200, body)
    ensures q.AttributeQuery? && decoders.attributes(body).Some? ==>
      var mar := decoders.attributes(body).value;
      var r := Search(con, q, newRequest, proxy, transport, decoders);
      r == Done(AttributeResponse(mar)) &&
      |Objects(r.value)| == |mar.response.attribute| &&
      forall i :: 0 <= i < |mar.response.attribute| ==> Objects(r.value)[i] == AttributeObject(mar.response.attribute[i])
    ensures q.EventQuery? && decoders.events(body).Some? ==>
      var mer := decoders.events(body).value;
      var r := Search(con, q, newRequest, proxy, transport, decoders);
      r == Done(EventResponse(mer)) &&
      |Objects(r.value)| == |mer.response| &&
      forall i :: 0 <= i < |mer.response| ==> Objects(r.value)[i] == EventObject(mer.response[i].event)
    ensures q.AttributeQuery? && decoders.attributes(body).None? ==>
      Search(con, q, newRequest, proxy, transport, decoders) == Abort(UndecodableResponse)
    ensures q.EventQuery? && decoders.events(body).None? ==>
      Search(con, q, newRequest, proxy, transport, decoders) == Abort(UndecodableResponse)
  {
    if q.AttributeQuery? && decoders.attributes(body).Some? {
      AttributeObjectsAt(decoders.attributes(body).value.response.attribute);
    }
    if q.EventQuery? && decoders.events(body).Some? {
      EventObjectsAt(decoders.events(body).value.response);
    }
  }

  /**
    A request rejected when built, a client failure or a refusal gives the
    empty response, indistinguishable from finding nothing.
   */
  lemma SearchFailureIsEmpty(con: MispCon, q: MispQuery, newRequest: RequestCheck, proxy: Proxy, transport: Transport, decoders: Decoders)
    requires !q.OtherQuery?
    requires var x := transport(SearchRequest(con, Kind(q), q));
      newRequest(SearchURL(con, Kind(q))).Some? ||
      (!proxy.BadProxySetting? && (x.ClientFailure? || (x.Replied? && x.status != 200)))
    ensures Search(con, q, newRequest, proxy, transport, decoders) == Done(EmptyMispResponse)
  {
  }
}
