# Transport core of a SIP stack, modelled in Dafny

This project models the sequential core of `resiprocate/Transport.cxx`, the
transport boundary of a SIP stack:

- `Transport::Tuple`: an endpoint (IPv4 address bytes, port, transport kind)
  plus the owning transport and a connection identity. It has an equality and
  an ordering for use as a map key. Equality looks at the connection but
  ignores the transport. The ordering ignores both. That disagreement is kept
  as written and stated as a lemma.
- The transport-name registry: the name table, `toData` and the
  case-insensitive search `toTransport`.
- `stampReceived`: the server-side Via stamping of section 18.2.1 of RFC 3261
  and section 4 of RFC 3581.
- The queue-facing state of a `Transport`: its send fifo, the fifo it shares
  with the transaction state machine, and its shutdown flag.

Files and modules:

| file | module | contents |
|---|---|---|
| `wrappers.dfy` | `Wrappers` | `Option` |
| `octets.dfy` | `Octets` | bytes; `memcmp` as a sign-valued lexicographic compare |
| `transport_types.dfy` | `TransportTypes` | the transport enumeration, name table, `toData`, `toTransport` |
| `tuples.dfy` | `Tuples` | `Tuple`, its constructors, `operator==`, `operator<` |
| `address_text.dfy` | `AddressText` | `inet_ntop(AF_INET, …)` as a pure dotted-decimal rendering |
| `vias.dfy` | `Vias` | Via entries and the stamping specification |
| `transports.dfy` | `Transports` | `Fifo`, `SendData`, `TransportMessage`, `SipMessage`, the `Transport` class |

Modelling choices:

- An IPv4 address is four bytes in network order, so `memcmp` is lexicographic
  byte comparison.
- `memcmp` is modelled as returning -1, 0 or 1. The source only tests its sign.
- The `transport` pointer and the `connection` identity are naturals; 0 means
  null or none, which is what both constructors store.
- `toTransport` fails an assertion on a name that is not in the table. The model
  returns `None` there. It does not assume a default.
- `send` asserts `dest.port != -1`. That is a contract on the caller, so it is a
  `requires`.
- `isEqualNoCase` comes from the `Data` class, which is not part of this model.
  It is taken to be ASCII case folding on strings of equal length.
- The `Fifo` class is not part of this model either. It is a sequence: `add`
  appends at the back, and `messageAvailable` means "not empty".
- `stampReceived` reads only the message, so the model's `Transport.StampReceived`
  touches nothing but the message.

Behaviour worth knowing, as the code has it:

- The first enumerator is `Unknown`.
- `toTransport(toData(t)) == t` holds for every kind, `Unknown` included.
- `received` is set on every request that has a Via, even when the sent-by
  host already equals the source address.

## Model

| member | source | states |
|---|---|---|
| `Tuples.Equal` | resiprocate/Transport.cxx:178-184 | `operator==`: true exactly when the tuples agree once the `transport` field is erased |
| `Tuples.Less` | resiprocate/Transport.cxx:186-210 | `operator<`: compares address bytes with `memcmp`, then port, then enum value; a true result implies the tuples are unequal and differ in address, port or kind |
| `Tuples.DefaultTuple` | resiprocate/Transport.cxx:158-165 | the default constructor: all-zero address, port 0, Unknown, no transport, no connection (its properties are in `Tuples.DefaultIsZeroTuple`) |
| `Tuples.MakeTuple` | resiprocate/Transport.cxx:167-176 | the 3-argument constructor: the given address, port and kind, no transport, no connection (its properties are in `Tuples.MakeTupleEqualIff`) |
| `TransportTypes.ToData` | resiprocate/Transport.cxx:16-24 | `toData` (lines 109-115): the entry of the name table `TransportNames` at the kind's enum value (its inverse is `TransportTypes.ToDataRoundTrip`) |
| `TransportTypes.EqualNoCase` | resiprocate/Transport.cxx:123 | `isEqualNoCase`: same length and equal characters after ASCII lower-casing |
| `AddressText.DottedQuad` | resiprocate/Transport.cxx:142-144 | `inet_ntop(AF_INET, …)`: the four bytes in decimal joined by dots, 7 to 15 characters long (injective by `AddressText.DottedQuadInjective`) |
| `AddressText.DecimalLength` | resiprocate/Transport.cxx:142-143 | each byte renders in one to three digits, so the text fits the 255-byte buffer |
| `Vias.StampVia` | resiprocate/Transport.cxx:144-153 | the top Via after stamping: `received` is the dotted source address, and `rport` is the source port if it was present |
| `Vias.StampTop` | resiprocate/Transport.cxx:137-153 | the Via list after `stampReceived`: only the top Via of a request is stamped (its properties are in the `Vias.StampTop…` lemmas) |
| `Transports.Fifo.Add` | resiprocate/Transport.cxx:106 | `add` (also at lines 83 and 89): appends the item at the back |
| `Transports.Fifo.MessageAvailable` | resiprocate/Transport.cxx:96 | `messageAvailable`: true exactly when the fifo is non-empty |
| `Octets.Memcmp` | resiprocate/Transport.cxx:186-197 | the sign of `memcmp` on two address images; it is zero exactly when the byte strings are equal |
| `Octets.MemcmpIsLexicographic` | resiprocate/Transport.cxx:186-197 | a negative `memcmp` coincides with the reference lexicographic order (common prefix, then a smaller byte) |
| `Octets.MemcmpAntisymmetric` | resiprocate/Transport.cxx:186-197 | swapping the operands flips the sign |
| `Octets.MemcmpTransitive` | resiprocate/Transport.cxx:186-197 | "below" by `memcmp` is transitive |
| `Octets.MemcmpZerosLeast` | resiprocate/Transport.cxx:164 | no address compares below the all-zero address that the default constructor stores |
| `TransportTypes.LookupFrom` | resiprocate/Transport.cxx:120-127 | the search from position i yields the first entry at or after i that matches ignoring case, or none if no such entry matches |
| `TransportTypes.Lookup` | resiprocate/Transport.cxx:117-130 | `toTransport`'s result: a matching kind with no earlier matching entry, and a miss exactly when no name in the table matches |
| `TransportTypes.ToTransport` | resiprocate/Transport.cxx:117-130 | the loop with early return computes `Lookup` |
| `TransportTypes.NamesDistinctNoCase` | resiprocate/Transport.cxx:16-24 | no two table names are case variants of one another |
| `TransportTypes.ToDataRoundTrip` | resiprocate/Transport.cxx:109-130 | for every kind, Unknown included, `toTransport(toData(t)) == t` |
| `TransportTypes.LookupIgnoresCase` | resiprocate/Transport.cxx:123 | names that differ only in letter case resolve to the same result |
| `TransportTypes.LookupExamples` | resiprocate/Transport.cxx:117-127 | "tcp" resolves to TCP and "Tls" to TLS |
| `TransportTypes.LookupMissExample` | resiprocate/Transport.cxx:128-129 | "SIP" is not in the table and misses |
| `Tuples.EqualIff` | resiprocate/Transport.cxx:178-184 | tuples are equal exactly when address, port, kind and connection agree; equivalently, structural equality with the transport erased |
| `Tuples.EqualIgnoresTransport` | resiprocate/Transport.cxx:178-184 | the transport field never changes the outcome of equality |
| `Tuples.LessIgnoresTransportAndConnection` | resiprocate/Transport.cxx:186-210 | neither the transport nor the connection changes the outcome of `<` |
| `Tuples.LessIsLexicographic` | resiprocate/Transport.cxx:186-210 | `<` orders lexicographically by address bytes, then port, then kind |
| `Tuples.LessIrreflexive` | resiprocate/Transport.cxx:186-210 | no tuple is less than itself |
| `Tuples.LessAsymmetric` | resiprocate/Transport.cxx:186-210 | if a < b then not b < a |
| `Tuples.LessTransitive` | resiprocate/Transport.cxx:186-210 | a < b and b < c give a < c |
| `Tuples.IncomparableIffSameOrderKey` | resiprocate/Transport.cxx:186-210 | two tuples are unordered in both directions exactly when address, port and kind agree |
| `Tuples.EqualIsIncomparable` | resiprocate/Transport.cxx:178-210 | equal tuples are never `<` each other in either direction |
| `Tuples.ConnectionSplitsEqualityNotOrder` | resiprocate/Transport.cxx:178-210 | tuples that differ only in connection are unequal, yet neither is `<` the other |
| `Tuples.DefaultIsZeroTuple` | resiprocate/Transport.cxx:158-176 | the default tuple is the 3-argument tuple with all-zero address, port 0 and Unknown |
| `Tuples.MakeTupleEqualIff` | resiprocate/Transport.cxx:167-176 | the 3-argument constructor keeps its arguments and sets no transport or connection, so constructed tuples are equal exactly when their arguments are |
| `Tuples.DefaultTupleIsLeast` | resiprocate/Transport.cxx:158-165 | no tuple with a non-negative port is `<` the default tuple |
| `AddressText.DecimalIsDigits` | resiprocate/Transport.cxx:143 | a decimal rendering is a non-empty run of digits, one digit long exactly for numbers below ten |
| `AddressText.DecimalInjective` | resiprocate/Transport.cxx:143 | distinct numbers render distinctly |
| `AddressText.DottedQuadInjective` | resiprocate/Transport.cxx:142-144 | distinct addresses give distinct dotted-decimal strings |
| `AddressText.DottedQuadExample` | resiprocate/Transport.cxx:143 | bytes 198, 51, 100, 7 render as "198.51.100.7" |
| `Vias.StampTopRequest` | resiprocate/Transport.cxx:137-153 | on a request with Vias only the top one changes: it gets the dotted source address as `received`, and the source port as `rport` only if `rport` was present; `rport` is never added or removed |
| `Vias.StampTopOtherwiseUnchanged` | resiprocate/Transport.cxx:137 | responses and requests with no Via are left unchanged |
| `Vias.StampTopIdempotent` | resiprocate/Transport.cxx:132-155 | stamping twice gives the same Via list as stamping once |
| `Vias.StampTopReceivedIdentifiesSource` | resiprocate/Transport.cxx:139-144 | requests stamped from different source addresses carry different `received` values |
| `Vias.StampTopExample` | resiprocate/Transport.cxx:132-155 | a request from 198.51.100.7:5061 gets received=198.51.100.7, and rport=5061 only when `rport` was requested |
| `Transports.Transport.constructor` | resiprocate/Transport.cxx:31-38 | keeps host, port, interface and the shared fifo; starts with an empty send fifo and `shutdown` false; leaves the shared fifo's contents alone |
| `Transports.Transport.HasDataToSend` | resiprocate/Transport.cxx:93-97 | true exactly when the send fifo is non-empty |
| `Transports.Transport.Send` | resiprocate/Transport.cxx:100-107 | requires a destination port other than -1; appends exactly one `SendData(dest, d, tid)` at the back, leaves earlier entries and all other state unchanged, and afterwards there is data to send |
| `Transports.Transport.Fail` | resiprocate/Transport.cxx:80-84 | appends `TransportMessage(tid, true)` to the shared fifo and changes nothing else |
| `Transports.Transport.Ok` | resiprocate/Transport.cxx:86-90 | appends `TransportMessage(tid, false)` to the shared fifo and changes nothing else |
| `Transports.Transport.Shutdown` | resiprocate/Transport.cxx:74-78 | sets `shutdown` and changes nothing else |
| `Transports.Transport.StampReceived` | resiprocate/Transport.cxx:132-155 | rewrites the message's Via list in place to the stamped list of `Vias.StampTop` |
| `Transports.ShutdownIsIdempotent` | resiprocate/Transport.cxx:74-78 | on a transport already shut down, a further `shutdown` changes nothing: not the transport, not the shared fifo |
| `Transports.TransportScenario` | resiprocate/Transport.cxx:31-107 | a fresh transport has nothing to send; sends queue in call order; `fail` and `ok` reach the shared fifo in call order, behind what was already there |

## Left out

- `Transport::run` (resiprocate/Transport.cxx:45-72): a readiness-polling loop over a socket whose branches only fail assertions. It is I/O with no behaviour to verify.
- The `hash<Tuple>` and `hash_value` functions (resiprocate/Transport.cxx:237-270): they hash the raw struct image, including padding and the transport pointer, and are compiled only for some compilers. All they depend on is that byte image.
- `operator<<` for `Tuple` (resiprocate/Transport.cxx:212-234): diagnostic output that prints a pointer value.
- `Transport::Exception` and the destructor: trivial.
- The WIN32 branch of `stampReceived`, which uses `inet_ntoa`. Both branches render the same dotted-decimal text, and the model has only that one.
- The debug logging in `send` and the heap allocation and ownership of `SendData` and `TransportMessage` objects.
- Thread safety, blocking and a consumer-side `take` of `Fifo`. The fifos are sequential sequences here.
- Real `inet_ntop` and socket calls. The address rendering is a pure function.
- `Octets.Memcmp`: returns only the sign, not the magnitude a C library may return. The source reads only the sign.
- `TransportTypes.Lookup`: a miss is `None`. A build without assertions would return `Unknown` instead; the model does not capture that.
- `TransportTypes.EqualNoCase`: models ASCII case folding only. It does not model how `strncasecmp` treats embedded NUL bytes.
- Ports are unbounded integers. The source stores them in a C `int` but does no arithmetic on them, so there is no wrap-around to model.
- resip/dumer/PageModePrd.hxx: the page-mode usage holds only declarations, with no function bodies. Its queuing, accept/reject and end behaviour cannot be read off the source, so it is not part of this model.
