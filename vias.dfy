/**
 * Via headers and the server-side stamping that `Transport::stampReceived`
 * performs on an arriving request (section 18.2.1 of RFC 3261 and section 4
 * of RFC 3581): the top Via always gets `received` set to the source address
 * in dotted-decimal form, and its `rport` gets the source port only if the
 * client already put an `rport` parameter there.
 */
module Vias {
  import opened Wrappers
  import opened Tuples
  import opened AddressText
  import TransportTypes

  /**
   * A Via entry: its sent-by host and port, and the two parameters the
   * transport may rewrite. `rport` is None when the parameter is absent and
   * Some(port) when present; by this model's convention a present `rport`
   * without a value is Some(0).
   */
  datatype Via = Via(sentHost: string, sentPort: int, received: Option<string>, rport: Option<int>)

  /** The top Via as stamped with the source of the message. */
  function StampVia(v: Via, source: Tuple): Via
  {
    v.(received := Some(DottedQuad(source.ipv4)),
       rport := if v.rport.Some? then Some(source.port) else None)
  }

  /** The Via list of a message after `stampReceived`. */
  function StampTop(isRequest: bool, source: Tuple, vias: seq<Via>): seq<Via>
  {
    if isRequest && |vias| > 0 then [StampVia(vias[0], source)] + vias[1..] else vias
  }

  /**
   * On a request with Vias, only the top entry changes: `received` becomes the
   * dotted source address (whatever the sent-by host says), `rport` becomes the
   * source port when it was present and stays absent otherwise, and the sent-by
   * fields and every later Via are untouched.
   */
  lemma StampTopRequest(source: Tuple, vias: seq<Via>)
    requires |vias| > 0
    ensures var r := StampTop(true, source, vias);
      |r| == |vias| &&
      r[0].received == Some(DottedQuad(source.ipv4)) &&
      (r[0].rport.Some? <==> vias[0].rport.Some?) &&
      (vias[0].rport.Some? ==> r[0].rport == Some(source.port)) &&
      r[0].sentHost == vias[0].sentHost && r[0].sentPort == vias[0].sentPort &&
      r[1..] == vias[1..]
  {
  }

  /** Responses and requests without Vias pass through unchanged. */
  lemma StampTopOtherwiseUnchanged(isRequest: bool, source: Tuple, vias: seq<Via>)
    requires !isRequest || vias == []
    ensures StampTop(isRequest, source, vias) == vias
  {
  }

  /** Stamping twice is stamping once. */
  lemma StampTopIdempotent(isRequest: bool, source: Tuple, vias: seq<Via>)
    ensures StampTop(isRequest, source, StampTop(isRequest, source, vias))
         == StampTop(isRequest, source, vias)
  {
  }

  /**
   * The `received` value identifies the source address: requests stamped from
   * different addresses carry different `received` values.
   */
  lemma StampTopReceivedIdentifiesSource(s1: Tuple, s2: Tuple, vias: seq<Via>)
    requires |vias| > 0
    requires StampTop(true, s1, vias)[0].received == StampTop(true, s2, vias)[0].received
    ensures s1.ipv4 == s2.ipv4
  {
    DottedQuadInjective(s1.ipv4, s2.ipv4);
  }

  /**
   * The example of a request from 198.51.100.7:5061: with `rport` requested the
   * top Via gets received=198.51.100.7 and rport=5061; without it only
   * `received` is set.
   */
  lemma StampTopExample(host: string, rest: seq<Via>)
    ensures var src := MakeTuple([198, 51, 100, 7], 5061, TransportTypes.UDP);
      StampTop(true, src, [Via(host, 5060, None, Some(0))] + rest)
        == [Via(host, 5060, Some("198.51.100.7"), Some(5061))] + rest &&
      StampTop(true, src, [Via(host, 5060, None, None)] + rest)
        == [Via(host, 5060, Some("198.51.100.7"), None)] + rest
  {
    DottedQuadExample();
    var src := MakeTuple([198, 51, 100, 7], 5061, TransportTypes.UDP);
    assert ([Via(host, 5060, None, Some(0))] + rest)[1..] == rest;
    assert ([Via(host, 5060, None, None)] + rest)[1..] == rest;
  }
}
