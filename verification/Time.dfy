/** Deadline arithmetic on second/nanosecond pairs. */
module Time {

  const NANOS: int := 1_000_000_000

  datatype Timespec = Timespec(sec: int, nsec: int)

  predicate Normal(t: Timespec) {
    0 <= t.nsec < NANOS
  }

  function Total(t: Timespec): int {
    t.sec * NANOS + t.nsec
  }

  function AddMs(t: Timespec, ms: nat): Timespec {
    var sec := t.sec + ms / 1000;
    var nsec := t.nsec + ms % 1000 * 1_000_000;
    if nsec >= NANOS then Timespec(sec + 1, nsec - NANOS) else Timespec(sec, nsec)
  }

  predicate Before(a: Timespec, b: Timespec) {
    a.sec < b.sec || (a.sec == b.sec && a.nsec < b.nsec)
  }

  /** One carry is enough, and exactly `ms` milliseconds are added. */
  lemma AddMsExact(t: Timespec, ms: nat)
    requires Normal(t)
    ensures Normal(AddMs(t, ms))
    ensures Total(AddMs(t, ms)) == Total(t) + ms * 1_000_000
  {
    assert ms == ms / 1000 * 1000 + ms % 1000;
  }

  /** On normalised times the field-by-field comparison is the order of total nanoseconds. */
  lemma BeforeIsTotalOrder(a: Timespec, b: Timespec)
    requires Normal(a) && Normal(b)
    ensures Before(a, b) <==> Total(a) < Total(b)
    ensures !Before(a, b) && !Before(b, a) <==> a == b
  {
    if a.sec < b.sec {
      assert (a.sec + 1) * NANOS <= b.sec * NANOS;
    } else if b.sec < a.sec {
      assert (b.sec + 1) * NANOS <= a.sec * NANOS;
    }
  }
}
