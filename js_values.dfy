/**
 * The few JavaScript value rules the drawing compiler relies on: truthiness of
 * its optional and numeric options, the `??` default, and
 * `Array.prototype.filter(Boolean)`. An entry gated with `&&` is an optional
 * entry, `None` when the gate is falsy.
 */
module JsValues {
  import opened Wrappers

  /** A `number | PDFNumber` argument. A PDFNumber is an object, so it is truthy whatever its value. */
  datatype NumArg = Num(v: real) | PdfNumber(v: real)

  /** A `string | PDFName` argument. A PDFName is an object, so it is truthy whatever its text. */
  datatype NameArg = Str(s: string) | PdfName(s: string)

  /** JavaScript truthiness of a numeric argument: a plain number is falsy exactly when it is 0. */
  predicate NumTruthy(n: NumArg)
    ensures !NumTruthy(n) <==> n == Num(0.0)
  {
    n.PdfNumber? || n.v != 0.0
  }

  /** JavaScript truthiness of a name argument: a plain string is falsy exactly when it is empty. */
  predicate NameTruthy(n: NameArg)
    ensures !NameTruthy(n) <==> n == Str("")
  {
    n.PdfName? || n.s != ""
  }

  /** Truthiness of an optional numeric field: `undefined` is falsy. */
  predicate OptNumTruthy(o: Option<NumArg>) {
    o.Some? && NumTruthy(o.value)
  }

  /** Truthiness of an optional name field: `undefined` is falsy. */
  predicate OptNameTruthy(o: Option<NameArg>) {
    o.Some? && NameTruthy(o.value)
  }

  /** `o ?? d`: the default replaces `undefined` only. */
  function Coalesce<T>(o: Option<T>, d: T): T {
    if o.Some? then o.value else d
  }

  /** The entries of an array whose every element is a constructed object (all truthy). */
  function Lift<T>(xs: seq<T>): (r: seq<Option<T>>)
    ensures |r| == |xs|
  {
    seq(|xs|, i requires 0 <= i < |xs| => Some(xs[i]))
  }

  /** The value an entry contributes to `filter(Boolean)`: itself if truthy, nothing otherwise. */
  function Present<T>(o: Option<T>): seq<T> {
    if o.Some? then [o.value] else []
  }

  /** `entries.filter(Boolean)`: keep the truthy entries, in their original order. */
  function Compact<T>(entries: seq<Option<T>>): (r: seq<T>)
    ensures |r| <= |entries|
  {
    if entries == [] then [] else Present(entries[0]) + Compact(entries[1..])
  }

  /** Filtering distributes over concatenation: no entry is moved across another. */
  lemma {:induction false} CompactAppend<T>(a: seq<Option<T>>, b: seq<Option<T>>)
    ensures Compact(a + b) == Compact(a) + Compact(b)
  {
    if a == [] {
      assert a + b == b;
    } else {
      assert (a + b)[1..] == a[1..] + b;
      CompactAppend(a[1..], b);
    }
  }

  /** Filtering an array of constructed objects keeps every one of them, in order. */
  lemma {:induction false} CompactLift<T>(xs: seq<T>)
    ensures Compact(Lift(xs)) == xs
  {
    if xs != [] {
      assert Lift(xs)[1..] == Lift(xs[1..]);
      CompactLift(xs[1..]);
    }
  }

  /** A single entry contributes what `Present` says. */
  lemma CompactSingle<T>(g: Option<T>)
    ensures Compact([g]) == Present(g)
  {
    assert [g][1..] == [];
  }

  /** Filtering an array extended by one entry. */
  lemma CompactSnoc<T>(front: seq<Option<T>>, g: Option<T>)
    ensures Compact(front + [g]) == Compact(front) + Present(g)
  {
    CompactAppend(front, [g]);
    CompactSingle(g);
  }

  /** Filtering an array extended by a run of constructed objects. */
  lemma CompactAppendLift<T>(front: seq<Option<T>>, xs: seq<T>)
    ensures Compact(front + Lift(xs)) == Compact(front) + xs
  {
    CompactAppend(front, Lift(xs));
    CompactLift(xs);
  }

  /** `filter(Boolean)` keeps exactly the truthy entries: nothing is invented, nothing truthy is lost. */
  lemma {:induction false} CompactKeepsTruthy<T>(entries: seq<Option<T>>, x: T)
    ensures x in Compact(entries) <==> Some(x) in entries
  {
    if entries != [] {
      CompactKeepsTruthy(entries[1..], x);
      assert entries == [entries[0]] + entries[1..];
    }
  }
}
