/**
 * The closed enumeration of transport kinds and its name table
 * (`Transport::transportNames`, `toData`, `toTransport`).
 */
module TransportTypes {
  import opened Wrappers

  /** `Transport::Type`; the declaration order gives the enum values 0 to 5. */
  datatype TransportType = Unknown | UDP | TCP | TLS | SCTP | DCCP

  /** `Transport::MAX_TRANSPORT`, the number of entries in the name table. */
  const MaxTransport: nat := 6

  /** The integer value of an enumerator. */
  function Ord(t: TransportType): (n: nat)
    ensures n < MaxTransport
  {
    match t
    case Unknown => 0
    case UDP => 1
    case TCP => 2
    case TLS => 3
    case SCTP => 4
    case DCCP => 5
  }

  /** The enumerator with a given integer value (the loop counter's cast). */
  function FromOrd(n: nat): (t: TransportType)
    requires n < MaxTransport
    ensures Ord(t) == n
  {
    if n == 0 then Unknown
    else if n == 1 then UDP
    else if n == 2 then TCP
    else if n == 3 then TLS
    else if n == 4 then SCTP
    else DCCP
  }

  /** `Transport::transportNames`, indexed by enum value. */
  const TransportNames: seq<string> := ["Unknown", "UDP", "TCP", "TLS", "SCTP", "DCCP"]

  /** `Transport::toData`: the canonical name of a transport kind. */
  function ToData(t: TransportType): string
  {
    TransportNames[Ord(t)]
  }

  /** ASCII lower-casing, as `tolower` in the C locale. */
  function LowerAscii(c: char): char
  {
    if 'A' <= c <= 'Z' then (c as int + 32) as char else c
  }

  /** `isEqualNoCase`: equal length and equal after ASCII lower-casing. */
  predicate EqualNoCase(a: string, b: string)
  {
    |a| == |b| && forall i :: 0 <= i < |a| ==> LowerAscii(a[i]) == LowerAscii(b[i])
  }

  /**
   * The first table entry at index `i` or later that matches `name` without
   * regard to case.
   */
  function LookupFrom(name: string, i: nat): (r: Option<TransportType>)
    requires i <= MaxTransport
    ensures r.Some? ==> i <= Ord(r.value) && EqualNoCase(name, ToData(r.value))
    ensures r.Some? ==> forall u :: i <= Ord(u) < Ord(r.value) ==> !EqualNoCase(name, ToData(u))
    ensures r.None? ==> forall u :: i <= Ord(u) ==> !EqualNoCase(name, ToData(u))
    decreases MaxTransport - i
  {
    if i == MaxTransport then None
    else if EqualNoCase(name, TransportNames[i]) then Some(FromOrd(i))
    else
      var r := LookupFrom(name, i + 1);
      assert forall u :: Ord(u) == i ==> u == FromOrd(i);
      r
  }

  /**
   * What `Transport::toTransport` returns: the first kind whose name matches
   * `name` ignoring case, or None where the source fails its assertion.
   */
  function Lookup(name: string): (r: Option<TransportType>)
    ensures r.Some? ==> EqualNoCase(name, ToData(r.value))
    ensures r.Some? ==> forall u :: Ord(u) < Ord(r.value) ==> !EqualNoCase(name, ToData(u))
    ensures r.None? <==> forall u :: !EqualNoCase(name, ToData(u))
  {
    LookupFrom(name, 0)
  }

  /** `Transport::toTransport`: a linear search returning on the first match. */
  method ToTransport(name: string) returns (r: Option<TransportType>)
    ensures r == Lookup(name)
  {
    var i: nat := 0;
    while i < MaxTransport
      invariant i <= MaxTransport
      invariant LookupFrom(name, i) == Lookup(name)
    {
      if EqualNoCase(name, TransportNames[i]) {
        return Some(FromOrd(i));
      }
      i := i + 1;
    }
    return None;
  }

  /** No two names in the table are case-insensitive variants of one another. */
  lemma NamesDistinctNoCase(t: TransportType, u: TransportType)
    requires t != u
    ensures !EqualNoCase(ToData(t), ToData(u))
  {
    var a, b := ToData(t), ToData(u);
    if |a| == |b| {
      if |a| == 3 {
        assert LowerAscii(a[0]) != LowerAscii(b[0]) || LowerAscii(a[1]) != LowerAscii(b[1]);
      } else if |a| == 4 {
        assert LowerAscii(a[0]) != LowerAscii(b[0]);
      }
    }
  }

  /** `toTransport(toData(t)) == t` for every kind, `Unknown` included. */
  lemma ToDataRoundTrip(t: TransportType)
    ensures Lookup(ToData(t)) == Some(t)
  {
    var name := ToData(t);
    assert EqualNoCase(name, ToData(t));
    var u := Lookup(name).value;
    if u != t {
      NamesDistinctNoCase(t, u);
    }
  }

  /** Names that differ only in letter case resolve to the same kind. */
  lemma LookupIgnoresCase(a: string, b: string)
    requires EqualNoCase(a, b)
    ensures Lookup(a) == Lookup(b)
  {
  }

  /** Examples: lower- and mixed-case names resolve. */
  lemma LookupExamples()
    ensures Lookup("tcp") == Some(TCP)
    ensures Lookup("Tls") == Some(TLS)
  {
    LookupIgnoresCase("tcp", ToData(TCP));
    ToDataRoundTrip(TCP);
    LookupIgnoresCase("Tls", ToData(TLS));
    ToDataRoundTrip(TLS);
  }

  /** Example: a name outside the table is a miss. */
  lemma LookupMissExample()
    ensures Lookup("SIP") == None
  {
    var s := "SIP";
    assert LowerAscii(s[0]) != LowerAscii(ToData(UDP)[0]);
    assert LowerAscii(s[0]) != LowerAscii(ToData(TCP)[0]);
    assert LowerAscii(s[0]) != LowerAscii(ToData(TLS)[0]);
  }
}
