/** Shared vocabulary: options, bytes, and the numbered events every observer emits. */
module Common {

  datatype Option<+T> = None | Some(value: T)

  type Byte = b: int | 0 <= b < 256

  /** An emitted event: its per-source sequence number and what it says. */
  datatype Event<+P> = Event(sequence: nat, body: P)

  /** Numbers a list of bodies from `from + 1`, the way every observer bumps `sequence` before it appends. */
  function Number<P>(from: nat, bodies: seq<P>): (events: seq<Event<P>>)
    ensures |events| == |bodies|
    ensures forall i :: 0 <= i < |bodies| ==> events[i] == Event(from + 1 + i, bodies[i])
  {
    seq(|bodies|, i requires 0 <= i < |bodies| => Event(from + 1 + i, bodies[i]))
  }

  lemma NumberConcat<P>(from: nat, a: seq<P>, b: seq<P>)
    ensures Number(from, a + b) == Number(from, a) + Number(from + |a|, b)
  {
  }

  function Bodies<P>(events: seq<Event<P>>): (bodies: seq<P>)
    ensures |bodies| == |events|
    ensures forall i :: 0 <= i < |events| ==> bodies[i] == events[i].body
  {
    seq(|events|, i requires 0 <= i < |events| => events[i].body)
  }

  lemma BodiesConcat<P>(a: seq<Event<P>>, b: seq<Event<P>>)
    ensures Bodies(a + b) == Bodies(a) + Bodies(b)
  {
  }

  /** The numbering contract of one observation: it continues at `before` and ends at `after`, without a gap. */
  ghost predicate Consecutive<P>(before: nat, events: seq<Event<P>>, after: nat)
  {
    && after == before + |events|
    && forall i :: 0 <= i < |events| ==> events[i].sequence == before + 1 + i
  }

  /** Cutting twice is cutting once. */
  lemma CutTwice<T>(s: seq<T>, i: nat, n: nat)
    requires i + n <= |s|
    ensures s[i..][..n] == s[i..i + n]
    ensures s[..i + n] == s[..i] + s[i..][..n]
    ensures s[i..][n..] == s[i + n..]
  {
  }

  function Min(a: int, b: int): int { if a < b then a else b }

  function Max(a: int, b: int): int { if a < b then b else a }
}
