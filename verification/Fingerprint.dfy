/** The incident fingerprint (fingerprint.py): a structural canonical form, and the digest taken over it. */
module Fingerprint {
  import opened Json

  type Ignored = set<string>

  /** `_canonicalize`. Sorting the keys has no counterpart here: a mapping has no key order. */
  function Canonicalize(v: Value, ignored: Ignored): Value {
    match v
    case Dict(fields) => Dict(map k | k in fields && k !in ignored :: Canonicalize(fields[k], ignored))
    case Proxy(fields) => Dict(map k | k in fields && k !in ignored :: Canonicalize(fields[k], ignored))
    case List(items) => List(CanonicalItems(items, ignored))
    case Tuple(items) => List(CanonicalItems(items, ignored))
    case _ => v
  }

  function CanonicalItems(items: seq<Value>, ignored: Ignored): (r: seq<Value>)
    ensures |r| == |items|
    ensures forall i | 0 <= i < |items| :: r[i] == Canonicalize(items[i], ignored)
  {
    if items == [] then [] else [Canonicalize(items[0], ignored)] + CanonicalItems(items[1..], ignored)
  }

  predicate IsMapping(v: Value) { v.Dict? || v.Proxy? }

  predicate IsSequence(v: Value) { v.List? || v.Tuple? }

  function Kept(fields: Fields, ignored: Ignored): set<string> { fields.Keys - ignored }

  /**
   Equal once ignored fields are deleted at every mapping depth and list is not told from tuple; no canonical
   form in sight.
   */
  predicate Same(v: Value, w: Value, ignored: Ignored)
    decreases v, 1
  {
    if IsMapping(v) && IsMapping(w) then
      Kept(v.fields, ignored) == Kept(w.fields, ignored)
      && forall k | k in v.fields && k !in ignored && k in w.fields :: Same(v.fields[k], w.fields[k], ignored)
    else if IsSequence(v) && IsSequence(w) then SameItems(v.items, w.items, ignored)
    else v == w
  }

  predicate SameItems(vs: seq<Value>, ws: seq<Value>, ignored: Ignored)
    decreases vs, 0
  {
    |vs| == |ws| && (vs == [] || (Same(vs[0], ws[0], ignored) && SameItems(vs[1..], ws[1..], ignored)))
  }

  lemma {:induction false} CanonicalExactly(v: Value, w: Value, ignored: Ignored)
    ensures Canonicalize(v, ignored) == Canonicalize(w, ignored) <==> Same(v, w, ignored)
    decreases v, 1
  {
    if IsMapping(v) && IsMapping(w) {
      var f, g := Canonicalize(v, ignored).fields, Canonicalize(w, ignored).fields;
      assert f.Keys == Kept(v.fields, ignored) && g.Keys == Kept(w.fields, ignored);
      forall k | k in v.fields && k !in ignored && k in w.fields
        ensures f[k] == g[k] <==> Same(v.fields[k], w.fields[k], ignored)
      {
        CanonicalExactly(v.fields[k], w.fields[k], ignored);
      }
      if Same(v, w, ignored) { assert f == g; }
    } else if IsSequence(v) && IsSequence(w) {
      CanonicalItemsExactly(v.items, w.items, ignored);
    }
  }

  lemma {:induction false} CanonicalItemsExactly(vs: seq<Value>, ws: seq<Value>, ignored: Ignored)
    ensures CanonicalItems(vs, ignored) == CanonicalItems(ws, ignored) <==> SameItems(vs, ws, ignored)
    decreases vs, 0
  {
    var c, d := CanonicalItems(vs, ignored), CanonicalItems(ws, ignored);
    if |vs| == |ws| && vs != [] {
      CanonicalExactly(vs[0], ws[0], ignored);
      CanonicalItemsExactly(vs[1..], ws[1..], ignored);
      assert c[1..] == CanonicalItems(vs[1..], ignored) && d[1..] == CanonicalItems(ws[1..], ignored);
      assert c == [c[0]] + c[1..] && d == [d[0]] + d[1..];
    }
  }

  lemma {:induction false} CanonicalIdempotent(v: Value, ignored: Ignored)
    ensures Canonicalize(Canonicalize(v, ignored), ignored) == Canonicalize(v, ignored)
    ensures Plain(Canonicalize(v, ignored)) == Canonicalize(v, ignored)
    decreases v, 1
  {
    var c := Canonicalize(v, ignored);
    if IsMapping(v) {
      forall k | k in c.fields
        ensures Canonicalize(c.fields[k], ignored) == c.fields[k] && Plain(c.fields[k]) == c.fields[k] {
        CanonicalIdempotent(v.fields[k], ignored);
      }
      assert Canonicalize(c, ignored).fields == c.fields;
    } else if IsSequence(v) {
      CanonicalItemsIdempotent(v.items, ignored);
    }
  }

  lemma {:induction false} CanonicalItemsIdempotent(vs: seq<Value>, ignored: Ignored)
    ensures CanonicalItems(CanonicalItems(vs, ignored), ignored) == CanonicalItems(vs, ignored)
    ensures PlainItems(CanonicalItems(vs, ignored)) == CanonicalItems(vs, ignored)
    decreases vs, 0
  {
    if vs != [] {
      CanonicalIdempotent(vs[0], ignored);
      CanonicalItemsIdempotent(vs[1..], ignored);
    }
  }

  // ---- the fingerprint ----

  function Envelope(algorithm: string, v: Value): Value {
    Dict(map["algorithm" := Str(algorithm), "payload" := v])
  }

  function FingerprintOf(algorithm: string, v: Value, ignored: Ignored): string
    requires Dumpable(Canonicalize(v, ignored))
  {
    algorithm + ":" + DigestOf(Envelope(algorithm, Canonicalize(v, ignored)))
  }

  lemma EnvelopePlain(algorithm: string, v: Value, w: Value)
    requires Plain(v) == v && Plain(w) == w
    ensures Plain(Envelope(algorithm, v)) == Envelope(algorithm, v)
    ensures Envelope(algorithm, v) == Envelope(algorithm, w) <==> v == w
  {
    assert Envelope(algorithm, v).fields["payload"] == v && Envelope(algorithm, w).fields["payload"] == w;
  }

  /**
   Under one algorithm version, two incidents share a fingerprint exactly when they agree outside the ignored
   fields.
   */
  lemma FingerprintExact(algorithm: string, v: Value, w: Value, ignored: Ignored)
    requires Dumpable(Canonicalize(v, ignored)) && Dumpable(Canonicalize(w, ignored))
    ensures FingerprintOf(algorithm, v, ignored) == FingerprintOf(algorithm, w, ignored) <==> Same(v, w, ignored)
  {
    var c, d := Canonicalize(v, ignored), Canonicalize(w, ignored);
    CanonicalIdempotent(v, ignored);
    CanonicalIdempotent(w, ignored);
    CanonicalExactly(v, w, ignored);
    EnvelopePlain(algorithm, c, d);
    EnvelopePlain(algorithm, d, c);
    TextInjective(Envelope(algorithm, c), Envelope(algorithm, d));
    Sha256Exact(Text(Envelope(algorithm, c)), Text(Envelope(algorithm, d)));
    Prefixed(algorithm + ":", DigestOf(Envelope(algorithm, c)), DigestOf(Envelope(algorithm, d)));
  }

  lemma Prefixed(p: string, a: string, b: string)
    ensures p + a == p + b <==> a == b
  {
    assert (p + a)[|p|..] == a && (p + b)[|p|..] == b;
  }
}
