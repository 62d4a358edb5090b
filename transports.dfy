/**
 * The queue-facing state of a `Transport`: its own send fifo, the shared fifo
 * into which it publishes for the transaction state machine, the shutdown
 * flag, and the Via stamping it applies to arriving requests.
 */
module Transports {
  import opened Wrappers
  import opened Tuples
  import AddressText
  import opened Vias

  /**
   * `Fifo<T>` reduced to its sequential content: `add` appends at the back,
   * `messageAvailable` is "not empty".
   */
  class Fifo<T> {
    var items: seq<T>

    constructor ()
      ensures items == []
    {
      items := [];
    }

    method Add(x: T)
      modifies this
      ensures items == old(items) + [x]
    {
      items := items + [x];
    }

    function MessageAvailable(): (b: bool)
      reads this
      ensures b <==> items != []
    {
      |items| > 0
    }
  }

  /** `SendData`: destination, payload and transaction id of an outbound message. */
  datatype SendData = SendData(destination: Tuple, data: string, transactionId: string)

  /**
   * What the state-machine fifo carries; `TransportMessage(tid, failed)` is
   * what a transport publishes, `Other` stands for the messages that other
   * producers put into the same fifo.
   */
  datatype Message =
    | TransportMessage(transactionId: string, failed: bool)
    | Other(id: nat)

  /** The parts of a `SipMessage` that `stampReceived` reads and writes. */
  class SipMessage {
    const isRequest: bool
    const source: Tuple
    var vias: seq<Via>

    constructor (isRequest: bool, source: Tuple, vias: seq<Via>)
      ensures this.isRequest == isRequest && this.source == source && this.vias == vias
    {
      this.isRequest := isRequest;
      this.source := source;
      this.vias := vias;
    }
  }

  class Transport {
    const host: string
    const port: int
    const nic: string
    /** The fifo shared with the state machine; the transport only adds to it. */
    const stateMachineFifo: Fifo<Message>
    /** `mTxFifo`: messages waiting to be written, oldest first. */
    var txFifo: seq<SendData>
    var shutdown: bool

    /** `Transport(sendhost, portNum, nic, rxFifo)`. */
    constructor (sendhost: string, portNum: int, nic: string, rxFifo: Fifo<Message>)
      ensures host == sendhost && port == portNum && this.nic == nic
      ensures stateMachineFifo == rxFifo
      ensures txFifo == [] && !shutdown && !HasDataToSend()
      ensures rxFifo.items == old(rxFifo.items)
    {
      host := sendhost;
      port := portNum;
      this.nic := nic;
      stateMachineFifo := rxFifo;
      txFifo := [];
      shutdown := false;
    }

    /** `hasDataToSend`: whether any outbound message is queued. */
    function HasDataToSend(): (b: bool)
      reads this
      ensures b <==> txFifo != []
    {
      |txFifo| > 0
    }

    /**
     * `send`: a destination without a port (-1) violates the source's
     * assertion; otherwise exactly one entry is appended at the back.
     */
    method Send(dest: Tuple, d: string, tid: string)
      requires dest.port != -1
      modifies this`txFifo
      ensures txFifo == old(txFifo) + [SendData(dest, d, tid)]
      ensures HasDataToSend()
    {
      var data := SendData(dest, d, tid);
      txFifo := txFifo + [data];
    }

    /** `fail`: publish a failure notification for `tid`. */
    method Fail(tid: string)
      modifies stateMachineFifo
      ensures stateMachineFifo.items == old(stateMachineFifo.items) + [TransportMessage(tid, true)]
      ensures txFifo == old(txFifo) && shutdown == old(shutdown)
    {
      stateMachineFifo.Add(TransportMessage(tid, true));
    }

    /** `ok`: publish a success notification for `tid`. */
    method Ok(tid: string)
      modifies stateMachineFifo
      ensures stateMachineFifo.items == old(stateMachineFifo.items) + [TransportMessage(tid, false)]
      ensures txFifo == old(txFifo) && shutdown == old(shutdown)
    {
      stateMachineFifo.Add(TransportMessage(tid, false));
    }

    /** `shutdown`: only raises the flag the run loop tests. */
    method Shutdown()
      modifies this`shutdown
      ensures shutdown
    {
      shutdown := true;
    }

    /** `stampReceived`: rewrites the top Via of an arriving request in place. */
    method StampReceived(message: SipMessage)
      modifies message
      ensures message.vias == StampTop(message.isRequest, message.source, old(message.vias))
    {
      if message.isRequest && |message.vias| > 0 {
        var tuple := message.source;
        var top := message.vias[0];
        top := top.(received := Some(AddressText.DottedQuad(tuple.ipv4)));
        if top.rport.Some? {
          top := top.(rport := Some(tuple.port));
        }
        message.vias := [top] + message.vias[1..];
      }
    }
  }

  /**
   * Shutdown is idempotent: on a transport already shut down (the state any
   * call of `Shutdown` leaves behind) a further call changes nothing.
   */
  method ShutdownIsIdempotent(t: Transport)
    requires t.shutdown
    modifies t`shutdown
    ensures unchanged(t) && unchanged(t.stateMachineFifo)
  {
    t.Shutdown();
  }

  /**
   * A client of the contracts above: a fresh transport has nothing to send;
   * two sends are queued in call order; notifications reach the shared fifo
   * in call order behind what was already there.
   */
  method TransportScenario(rx: Fifo<Message>, dest: Tuple, tid1: string, tid2: string)
    requires dest.port != -1
    modifies rx
    ensures rx.items == old(rx.items) + [TransportMessage(tid1, true), TransportMessage(tid2, false)]
  {
    var t := new Transport("example.com", 5060, "eth0", rx);
    assert !t.HasDataToSend();
    t.Send(dest, "A", tid1);
    t.Send(dest, "B", tid2);
    assert t.txFifo == [SendData(dest, "A", tid1), SendData(dest, "B", tid2)];
    t.Fail(tid1);
    t.Ok(tid2);
    t.Shutdown();
  }
}
