/**
 * The descriptor's fluent setters as steps on the four path properties, and
 * chains of them as a descriptor is configured: d.Index(..).Type(..).Id(..).
 */
module Fluent {
  import opened Wrappers
  import opened Paths

  /** A C# long. */
  newtype int64 = x: int | -0x8000_0000_0000_0000 <= x < 0x8000_0000_0000_0000

  /** One setter call with its argument, after the argument's conversion to a marker. */
  datatype Setter<O> =
    | SetIndex(index: Marker)
    | SetType(typ: Marker)
    | SetId(id: Option<string>)
    | SetIdFrom(idFrom: Option<O>)

  /** The four properties a setter may write. */
  datatype Field = IndexField | TypeField | IdField | IdFromField

  /** The one property a setter writes. */
  function FieldOf<O(!new)>(s: Setter<O>): Field
  {
    match s
    case SetIndex(_) => IndexField
    case SetType(_) => TypeField
    case SetId(_) => IdField
    case SetIdFrom(_) => IdFromField
  }

  /** p and q hold the same value in property f. */
  ghost predicate SameField<O(!new)>(p: PathParts<O>, q: PathParts<O>, f: Field)
  {
    match f
    case IndexField => p.index == q.index
    case TypeField => p.typ == q.typ
    case IdField => p.id == q.id
    case IdFromField => p.idFrom == q.idFrom
  }

  /** Property FieldOf(s) of p holds the value that s writes. */
  ghost predicate Holds<O(!new)>(p: PathParts<O>, s: Setter<O>)
  {
    match s
    case SetIndex(m) => p.index == Some(m)
    case SetType(m) => p.typ == Some(m)
    case SetId(id) => p.id == id
    case SetIdFrom(o) => p.idFrom == o
  }

  /** The effect of one setter call on the descriptor's properties. */
  function Apply<O(!new)>(p: PathParts<O>, s: Setter<O>): (r: PathParts<O>)
    ensures Holds(r, s)
    ensures forall f :: f != FieldOf(s) ==> SameField(r, p, f)
  {
    match s
    case SetIndex(m) => p.(index := Some(m))
    case SetType(m) => p.(typ := Some(m))
    case SetId(id) => p.(id := id)
    case SetIdFrom(o) => p.(idFrom := o)
  }

  /** The effect of a chain of setter calls, made left to right on the same descriptor. */
  function ApplyAll<O(!new)>(p: PathParts<O>, calls: seq<Setter<O>>): PathParts<O>
    decreases |calls|
  {
    if calls == [] then p else ApplyAll(Apply(p, calls[0]), calls[1..])
  }

  /** The last call of the chain that writes property f, if there is one. */
  function LastWrite<O(!new)>(calls: seq<Setter<O>>, f: Field): (w: Option<Setter<O>>)
    ensures w.Some? ==> FieldOf(w.value) == f
    ensures w.Some? ==> exists k :: 0 <= k < |calls| && calls[k] == w.value &&
                                    forall j :: k < j < |calls| ==> FieldOf(calls[j]) != f
    ensures w.None? ==> forall k :: 0 <= k < |calls| ==> FieldOf(calls[k]) != f
    decreases |calls|
  {
    if calls == [] then None
    else
      var later := LastWrite(calls[1..], f);
      if later.Some? then later
      else if FieldOf(calls[0]) == f then Some(calls[0])
      else None
  }

  /** What property f of p should be after the chain: the last write to it, or the old value. */
  function Overwritten<O(!new)>(p: PathParts<O>, calls: seq<Setter<O>>, f: Field): PathParts<O>
  {
    match LastWrite(calls, f)
    case Some(w) => Apply(p, w)
    case None => p
  }

  /**
   * Last write wins: after a chain of fluent calls each property holds the
   * value of the last call that wrote it, and keeps its old value when no
   * call wrote it.
   */
  lemma {:induction false} ChainLastWriteWins<O(!new)>(p: PathParts<O>, calls: seq<Setter<O>>, f: Field)
    ensures SameField(ApplyAll(p, calls), Overwritten(p, calls, f), f)
    decreases |calls|
  {
    if calls != [] {
      var q := Apply(p, calls[0]);
      var rest := calls[1..];
      ChainLastWriteWins(q, rest, f);
      assert ApplyAll(p, calls) == ApplyAll(q, rest);
      match LastWrite(rest, f)
      case Some(w) =>
        assert LastWrite(calls, f) == Some(w);
        SetterOverwrites(q, p, w);
      case None =>
        if FieldOf(calls[0]) == f {
          assert LastWrite(calls, f) == Some(calls[0]);
        } else {
          assert LastWrite(calls, f) == None;
        }
    }
  }

  /** A setter's own property afterwards does not depend on its value before. */
  lemma SetterOverwrites<O(!new)>(p: PathParts<O>, q: PathParts<O>, s: Setter<O>)
    ensures SameField(Apply(p, s), Apply(q, s), FieldOf(s))
  {
  }

  /** Writing one property twice: the second write wins and erases the first. */
  lemma SetTwiceLastWins<O(!new)>(p: PathParts<O>, a: Setter<O>, b: Setter<O>)
    requires FieldOf(a) == FieldOf(b)
    ensures Apply(Apply(p, a), b) == Apply(p, b)
  {
  }

  /** Setters of different properties do not interfere, so their order does not matter. */
  lemma DistinctSettersCommute<O(!new)>(p: PathParts<O>, a: Setter<O>, b: Setter<O>)
    requires FieldOf(a) != FieldOf(b)
    ensures Apply(Apply(p, a), b) == Apply(Apply(p, b), a)
  {
  }

  /**
   * Object(o) sets only IdFrom, so a later resolution derives the id from o
   * exactly when Id is still null; otherwise the explicit Id stays in force.
   */
  lemma ObjectUsedOnlyWhileIdUnset<O(!new)>(p: PathParts<O>, o: Option<O>)
    ensures IdIsInferred(Apply(p, SetIdFrom(o))) <==> p.id.None?
    ensures p.id.Some? ==> IdIsExplicit(Apply(p, SetIdFrom(o)))
    ensures forall inf: Inferrer<O> :: ResolveId(Apply(p, SetIdFrom(o)), inf) == (if p.id.Some? then p.id else inf.id(o))
  {
    IdPrecedence(Apply(p, SetIdFrom(o)));
  }

  /** One decimal digit. */
  function Digit(d: nat): char
    requires d < 10
  {
    "0123456789"[d]
  }

  /** The decimal digits of n, most significant first, without leading zeros. */
  function NatToDecimal(n: nat): (s: string)
    ensures |s| >= 1
    ensures forall k :: 0 <= k < |s| ==> '0' <= s[k] <= '9'
    ensures |s| > 1 ==> s[0] != '0'
    ensures n > 0 ==> s[0] != '0'
    decreases n
  {
    if n < 10 then [Digit(n)] else NatToDecimal(n / 10) + [Digit(n % 10)]
  }

  /** long.ToString(): a minus sign for negative values, then the decimal digits. */
  function LongToString(n: int64): (s: string)
    ensures |s| >= 1
    ensures (s[0] == '-') <==> n < 0
  {
    if n < 0 then "-" + NatToDecimal(-(n as int)) else NatToDecimal(n as int)
  }
}
