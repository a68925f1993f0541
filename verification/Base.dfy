/** Values that cross module boundaries: result codes, wire ids, events and the view of a
    message that a sequence is shown. */
module Base {

  datatype Option<+T> = None | Some(value: T) {
    function GetOr(default: T): T {
      if Some? then value else default
    }
  }

  /** The requester index that stands for a thread outside every module. */
  const EXTERNAL: int := -1

  /** Request ids are 32 bits wide on the wire. */
  const ID_SPACE: nat := 0x1_0000_0000

  newtype Byte = x: int | 0 <= x < 256
  type Bytes = seq<Byte>

  datatype ResultCode = Ignore | Success | Error | RequestTimeout | SequenceTimeout

  /** A request is named here by its serial number, which is never reused. The program only ever
      holds and compares the low 32 bits of it. */
  function Wire(id: nat): nat {
    id % ID_SPACE
  }

  /** The program's cast of an `int` to `uint8_t`. */
  function ToU8(x: int): nat {
    x % 256
  }

  /** What one module posts to another. `author` on a reply is the fiber that made it; it is carried for
      the sake of the provenance statements and no step looks at it. */
  datatype Event =
    | Start(seqIdx: nat, id: nat, requester: int, msg: Bytes)
    | Reply(id: nat, from: int, result: ResultCode, msg: Bytes, author: nat)
    | Notify(category: nat, clientId: nat, from: int, msg: Bytes)

  /** What `coseq_source`, `coseq_request` and `coseq_wait_reply` let a sequence see. */
  datatype Source = Source(thread: nat, seqIdx: nat, id: nat, result: ResultCode, client: nat, msg: Bytes)

  /** A reply that a fiber has been given or will be given. */
  datatype Arrival = Arrival(id: nat, result: ResultCode, msg: Bytes)

  function SeenAs(s: Source): Arrival {
    Arrival(s.id, s.result, s.msg)
  }

  function ArrivalOf(e: Event): Arrival
    requires e.Reply?
  {
    Arrival(e.id, e.result, e.msg)
  }

  /** Ids less than one id space apart never collide on the wire. */
  lemma WireInjective(a: nat, b: nat, next: nat)
    requires a < next <= a + ID_SPACE
    requires b < next <= b + ID_SPACE
    requires Wire(a) == Wire(b)
    ensures a == b
  {
    assert a == a / ID_SPACE * ID_SPACE + Wire(a);
    assert b == b / ID_SPACE * ID_SPACE + Wire(b);
  }
}
