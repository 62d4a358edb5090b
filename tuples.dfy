/**
 * `Transport::Tuple`: an endpoint address, port and transport kind, plus the
 * owning transport and a connection identity. Equality and ordering follow
 * `operator==` and `operator<`, including their disagreement on `connection`.
 */
module Tuples {
  import opened Octets
  import opened TransportTypes

  /** An IPv4 address as its four bytes in memory (network) order. */
  type IPv4 = s: seq<byte> | |s| == 4 witness [0, 0, 0, 0]

  /** A reference to the owning transport; 0 is the null pointer. */
  type TransportRef = nat

  /** A connection identity; 0 is "no connection". */
  type ConnectionId = nat

  const NoTransport: TransportRef := 0
  const NoConnection: ConnectionId := 0

  datatype Tuple = Tuple(
    ipv4: IPv4,
    port: int,
    transportType: TransportType,
    transport: TransportRef,
    connection: ConnectionId)

  /** The default constructor `Tuple()`. */
  function DefaultTuple(): Tuple
  {
    Tuple([0, 0, 0, 0], 0, Unknown, NoTransport, NoConnection)
  }

  /** The constructor `Tuple(ipv4, port, type)`. */
  function MakeTuple(ipv4: IPv4, port: int, ptype: TransportType): Tuple
  {
    Tuple(ipv4, port, ptype, NoTransport, NoConnection)
  }

  /** `Tuple::operator==`. */
  predicate Equal(a: Tuple, b: Tuple): (r: bool)
    ensures r <==> a.(transport := NoTransport) == b.(transport := NoTransport)
  {
    Memcmp(a.ipv4, b.ipv4) == 0 &&
    a.port == b.port &&
    a.transportType == b.transportType &&
    a.connection == b.connection
  }

  /** `Tuple::operator<`. */
  predicate Less(a: Tuple, b: Tuple): (r: bool)
    ensures r ==> !Equal(a, b) && !SameOrderKey(a, b)
  {
    var c := Memcmp(a.ipv4, b.ipv4);
    if c < 0 then true
    else if c > 0 then false
    else if a.port < b.port then true
    else if a.port > b.port then false
    else Ord(a.transportType) < Ord(b.transportType)
  }

  /** The part of a tuple that `operator<` looks at. */
  predicate SameOrderKey(a: Tuple, b: Tuple)
  {
    a.ipv4 == b.ipv4 && a.port == b.port && a.transportType == b.transportType
  }

  /**
   * Equality compares address bytes, port, kind and connection, and nothing
   * else: it is structural equality once the `transport` field is erased.
   */
  lemma EqualIff(a: Tuple, b: Tuple)
    ensures Equal(a, b) <==>
      (a.ipv4 == b.ipv4 && a.port == b.port &&
       a.transportType == b.transportType && a.connection == b.connection)
    ensures Equal(a, b) <==> a.(transport := NoTransport) == b.(transport := NoTransport)
  {
  }

  /** The `transport` field never affects equality. */
  lemma EqualIgnoresTransport(a: Tuple, b: Tuple, ta: TransportRef, tb: TransportRef)
    ensures Equal(a.(transport := ta), b.(transport := tb)) == Equal(a, b)
  {
  }

  /** Neither `transport` nor `connection` affects the order. */
  lemma LessIgnoresTransportAndConnection(a: Tuple, b: Tuple, ta: TransportRef, ca: ConnectionId)
    ensures Less(a.(transport := ta, connection := ca), b) == Less(a, b)
    ensures Less(b, a.(transport := ta, connection := ca)) == Less(b, a)
  {
  }

  /**
   * `operator<` is the lexicographic order over address bytes, then port, then
   * transport kind.
   */
  lemma {:induction false} LessIsLexicographic(a: Tuple, b: Tuple)
    ensures Less(a, b) <==>
      LexLess(a.ipv4, b.ipv4) ||
      (a.ipv4 == b.ipv4 && a.port < b.port) ||
      (a.ipv4 == b.ipv4 && a.port == b.port && Ord(a.transportType) < Ord(b.transportType))
  {
    MemcmpIsLexicographic(a.ipv4, b.ipv4);
    MemcmpIsLexicographic(b.ipv4, a.ipv4);
    MemcmpAntisymmetric(a.ipv4, b.ipv4);
  }

  lemma LessIrreflexive(a: Tuple)
    ensures !Less(a, a)
  {
  }

  lemma {:induction false} LessAsymmetric(a: Tuple, b: Tuple)
    requires Less(a, b)
    ensures !Less(b, a)
  {
    MemcmpAntisymmetric(a.ipv4, b.ipv4);
  }

  lemma {:induction false} LessTransitive(a: Tuple, b: Tuple, c: Tuple)
    requires Less(a, b) && Less(b, c)
    ensures Less(a, c)
  {
    if Memcmp(a.ipv4, b.ipv4) < 0 && Memcmp(b.ipv4, c.ipv4) < 0 {
      MemcmpTransitive(a.ipv4, b.ipv4, c.ipv4);
    }
  }

  /**
   * Two tuples are unordered by `operator<` exactly when they agree on address,
   * port and kind; so `operator<` is a strict weak order whose ties are those.
   */
  lemma {:induction false} IncomparableIffSameOrderKey(a: Tuple, b: Tuple)
    ensures (!Less(a, b) && !Less(b, a)) <==> SameOrderKey(a, b)
  {
    MemcmpAntisymmetric(a.ipv4, b.ipv4);
    if Ord(a.transportType) == Ord(b.transportType) {
      assert a.transportType == FromOrd(Ord(a.transportType));
      assert b.transportType == FromOrd(Ord(b.transportType));
    }
  }

  /** Equal tuples are never ordered in either direction. */
  lemma EqualIsIncomparable(a: Tuple, b: Tuple)
    requires Equal(a, b)
    ensures !Less(a, b) && !Less(b, a)
  {
  }

  /**
   * The asymmetry kept from the source: tuples that differ only in their
   * connection are unequal, yet neither is less than the other.
   */
  lemma ConnectionSplitsEqualityNotOrder(a: Tuple, c: ConnectionId)
    requires c != a.connection
    ensures !Equal(a, a.(connection := c))
    ensures !Less(a, a.(connection := c)) && !Less(a.(connection := c), a)
  {
  }

  /** The two constructors agree: the default is the all-zero address, port 0, Unknown. */
  lemma DefaultIsZeroTuple()
    ensures DefaultTuple() == MakeTuple([0, 0, 0, 0], 0, Unknown)
    ensures DefaultTuple().transport == NoTransport && DefaultTuple().connection == NoConnection
  {
  }

  /**
   * Constructed tuples carry no transport and no connection, so two of them are
   * equal exactly when their constructor arguments are.
   */
  lemma MakeTupleEqualIff(a: IPv4, p: int, t: TransportType, a': IPv4, p': int, t': TransportType)
    ensures Equal(MakeTuple(a, p, t), MakeTuple(a', p', t')) <==> (a == a' && p == p' && t == t')
    ensures MakeTuple(a, p, t).ipv4 == a && MakeTuple(a, p, t).port == p
    ensures MakeTuple(a, p, t).transportType == t
    ensures MakeTuple(a, p, t).transport == NoTransport && MakeTuple(a, p, t).connection == NoConnection
  {
  }

  /** No tuple with a non-negative port orders below the default tuple. */
  lemma {:induction false} DefaultTupleIsLeast(t: Tuple)
    requires t.port >= 0
    ensures !Less(t, DefaultTuple())
  {
    MemcmpZerosLeast(t.ipv4, DefaultTuple().ipv4);
  }
}
