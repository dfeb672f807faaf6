/** Domain names and the canonical order of section 6.1 of RFC 4034.

    A name is kept as its labels from the root downwards and a label as its
    lower-cased octets.  In this form "`n` ends with `d`" is "`d` is a prefix
    of `n`", and the canonical order is lexicographic twice over: on the
    labels of a name and on the octets of a label.
  */
module Names {
  type Octet = o: int | 0 <= o < 256
  type Label = seq<Octet>
  type Name = seq<Label>

  /** `n` is `d` or lies below it. */
  predicate EndsWith(n: Name, d: Name) {
    d <= n
  }

  /** Lexicographic order; a proper prefix comes first. */
  predicate LexLess<T(==)>(less: (T, T) -> bool, a: seq<T>, b: seq<T>) {
    if b == [] then false
    else if a == [] then true
    else if a[0] == b[0] then LexLess(less, a[1..], b[1..])
    else less(a[0], b[0])
  }

  predicate OctetLess(a: Octet, b: Octet) {
    a < b
  }

  predicate LabelLess(a: Label, b: Label) {
    LexLess(OctetLess, a, b)
  }

  predicate NameLess(a: Name, b: Name) {
    LexLess(LabelLess, a, b)
  }

  ghost predicate StrictTotalOrder<T(!new)>(less: (T, T) -> bool) {
    && (forall a :: !less(a, a))
    && (forall a, b, c :: less(a, b) && less(b, c) ==> less(a, c))
    && (forall a, b :: a == b || less(a, b) || less(b, a))
  }

  lemma {:induction false} LexIrreflexive<T>(less: (T, T) -> bool, a: seq<T>)
    ensures !LexLess(less, a, a)
  {
    if a != [] {
      LexIrreflexive(less, a[1..]);
    }
  }

  lemma {:induction false} LexTransitive<T(!new)>(less: (T, T) -> bool, a: seq<T>, b: seq<T>, c: seq<T>)
    requires StrictTotalOrder(less)
    requires LexLess(less, a, b) && LexLess(less, b, c)
    ensures LexLess(less, a, c)
  {
    if a != [] && a[0] == b[0] == c[0] {
      LexTransitive(less, a[1..], b[1..], c[1..]);
    } else if a != [] {
      assert a[0] != c[0];
    }
  }

  lemma {:induction false} LexConnected<T(!new)>(less: (T, T) -> bool, a: seq<T>, b: seq<T>)
    requires StrictTotalOrder(less)
    ensures a == b || LexLess(less, a, b) || LexLess(less, b, a)
  {
    if a != [] && b != [] && a[0] == b[0] {
      LexConnected(less, a[1..], b[1..]);
      assert a == [a[0]] + a[1..] && b == [b[0]] + b[1..];
    }
  }

  lemma {:induction false} LexOrder<T(!new)>(less: (T, T) -> bool)
    requires StrictTotalOrder(less)
    ensures StrictTotalOrder((a: seq<T>, b: seq<T>) => LexLess(less, a, b))
  {
    var lex := (a: seq<T>, b: seq<T>) => LexLess(less, a, b);
    forall a: seq<T> ensures !lex(a, a) {
      LexIrreflexive(less, a);
    }
    forall a: seq<T>, b: seq<T>, c: seq<T> | lex(a, b) && lex(b, c) ensures lex(a, c) {
      LexTransitive(less, a, b, c);
    }
    forall a: seq<T>, b: seq<T> ensures a == b || lex(a, b) || lex(b, a) {
      LexConnected(less, a, b);
    }
  }

  /** The canonical order is a strict total order on names. */
  lemma {:induction false} NameOrder()
    ensures StrictTotalOrder(LabelLess)
    ensures StrictTotalOrder(NameLess)
  {
    LexOrder(OctetLess);
    var labels := (a: Label, b: Label) => LexLess(OctetLess, a, b);
    forall a, b ensures LabelLess(a, b) == labels(a, b) {}
    LexOrder(LabelLess);
    var names := (a: Name, b: Name) => LexLess(LabelLess, a, b);
    forall a, b ensures NameLess(a, b) == names(a, b) {}
  }

  /** An ancestor precedes everything below it. */
  lemma {:induction false} AncestorFirst(d: Name, n: Name)
    requires EndsWith(n, d)
    ensures d == n || NameLess(d, n)
  {
    if d != [] {
      AncestorFirst(d[1..], n[1..]);
    }
  }

  /** Subtrees are contiguous: whatever lies between two names below `d` is below `d`. */
  lemma {:induction false} SubtreeContiguous(d: Name, a: Name, x: Name, b: Name)
    requires EndsWith(a, d) && EndsWith(b, d)
    requires a == x || NameLess(a, x)
    requires x == b || NameLess(x, b)
    ensures EndsWith(x, d)
  {
    if d != [] && a != x && x != b {
      NameOrder();
      assert x[0] == d[0];
      SubtreeContiguous(d[1..], a[1..], x[1..], b[1..]);
    }
  }

  /** Two ancestors of one name are comparable. */
  lemma {:induction false} AncestorsComparable(a: Name, b: Name, n: Name)
    requires EndsWith(n, a) && EndsWith(n, b)
    ensures EndsWith(a, b) || EndsWith(b, a)
  {
    if |a| <= |b| {
      assert b[..|a|] == n[..|a|] == a;
    } else {
      assert a[..|b|] == n[..|b|] == b;
    }
  }
}
