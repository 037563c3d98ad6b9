/** The strings under which a pooled session caches its producers and consumers. */
module CacheKeys {
  import opened Strings
  import opened Destinations

  const SEPARATOR := "]s="

  /** A temporary queue is a cms::Queue and a temporary topic a cms::Topic, so the key shows
      the queue/topic domain and the name but not whether the destination is temporary. */
  function UniqueDestName(d: Destination): string {
    "[" + (if d.IsTopic() then "t:" else "q:") + d.physicalName + "]"
  }

  function ConsumerKey(d: Destination, selector: string, noLocal: bool): string {
    UniqueDestName(d) + "s=" + selector + ",nl=" + (if noLocal then "t" else "f")
  }

  /** What a producer key identifies. */
  ghost predicate SameAddress(a: Destination, b: Destination) {
    a.IsTopic() == b.IsTopic() && a.physicalName == b.physicalName
  }

  /** Two destinations share a producer key exactly when domain and name agree; a plain and a
      temporary destination of one name therefore share one. */
  lemma ProducerKeyExact(a: Destination, b: Destination)
    ensures UniqueDestName(a) == UniqueDestName(b) <==> SameAddress(a, b)
  {
    var x, y := UniqueDestName(a), UniqueDestName(b);
    assert x[1] == if a.IsTopic() then 't' else 'q';
    assert y[1] == if b.IsTopic() then 't' else 'q';
    assert x[3..|x| - 1] == a.physicalName && y[3..|y| - 1] == b.physicalName;
  }

  /** Among plain destinations, and among temporary ones, an address is the destination. */
  lemma AddressIsDestination(a: Destination, b: Destination)
    ensures a == b <==> SameAddress(a, b) && a.IsTemporary() == b.IsTemporary()
  {
  }

  // ---- The consumer key, taken apart ----

  function Tail(selector: string, noLocal: bool): string {
    selector + ",nl=" + (if noLocal then "t" else "f")
  }

  function Domain(d: Destination): string {
    if d.IsTopic() then "[t:" else "[q:"
  }

  lemma ConsumerKeyShape(d: Destination, selector: string, noLocal: bool)
    ensures ConsumerKey(d, selector, noLocal) ==
            Domain(d) + (d.physicalName + SEPARATOR + Tail(selector, noLocal))
  {
    assert Domain(d) == "[" + if d.IsTopic() then "t:" else "q:";
    assert SEPARATOR == "]" + "s=";
  }

  lemma TailInjective(s: string, n: bool, s': string, n': bool)
    requires Tail(s, n) == Tail(s', n')
    ensures s == s' && n == n'
  {
    var x, y := Tail(s, n), Tail(s', n');
    assert x[|x| - 1] == if n then 't' else 'f';
    assert y[|y| - 1] == if n' then 't' else 'f';
    assert x[..|x| - 5] == s && y[..|y| - 5] == s';
  }

  lemma DomainSplit(a: Destination, x: string, b: Destination, y: string)
    requires Domain(a) + x == Domain(b) + y
    ensures a.IsTopic() == b.IsTopic() && x == y
  {
    var s, t := Domain(a) + x, Domain(b) + y;
    assert s[1] == if a.IsTopic() then 't' else 'q';
    assert t[1] == if b.IsTopic() then 't' else 'q';
    assert s[3..] == x && t[3..] == y;
  }

  /** Equal keys split into equal domains and equal remainders. */
  lemma ConsumerKeySplit(a: Destination, s: string, n: bool, b: Destination, s': string, n': bool)
    ensures ConsumerKey(a, s, n) == ConsumerKey(b, s', n') <==>
            a.IsTopic() == b.IsTopic() &&
            a.physicalName + SEPARATOR + Tail(s, n) == b.physicalName + SEPARATOR + Tail(s', n')
  {
    ConsumerKeyShape(a, s, n);
    ConsumerKeyShape(b, s', n');
    var x, y := a.physicalName + SEPARATOR + Tail(s, n), b.physicalName + SEPARATOR + Tail(s', n');
    if Domain(a) + x == Domain(b) + y { DomainSplit(a, x, b, y); }
  }

  /** The separator has no border: cutting one string at two separators, the longer first
      part holds the other separator whole. */
  lemma SplitAtSeparator(n: string, x: string, m: string, y: string)
    requires n + SEPARATOR + x == m + SEPARATOR + y && |n| < |m|
    ensures Contains(m, SEPARATOR)
  {
    var whole := n + SEPARATOR + x;
    assert whole[|n|] == ']' && whole[|n| + 1] == 's' && whole[|n| + 2] == '=';
    assert whole[|m|] == ']' && whole[|m| + 1] == 's';
    assert whole[..|m|] == m;
    assert m[|n|] == whole[|n|] && m[|n| + 1] == whole[|n| + 1] && m[|n| + 2] == whole[|n| + 2];
    assert m[|n|..|n| + 3] == SEPARATOR;
    assert OccursAt(m, SEPARATOR, |n|);
  }

  /** With no separator inside either name, the key determines what it was built from. */
  lemma ConsumerKeyInjective(a: Destination, s: string, n: bool, b: Destination, s': string, n': bool)
    requires !Contains(a.physicalName, SEPARATOR) && !Contains(b.physicalName, SEPARATOR)
    ensures ConsumerKey(a, s, n) == ConsumerKey(b, s', n') <==>
            SameAddress(a, b) && s == s' && n == n'
  {
    ConsumerKeySplit(a, s, n, b, s', n');
    if ConsumerKey(a, s, n) == ConsumerKey(b, s', n') {
      var p, q := a.physicalName, b.physicalName;
      var x, y := Tail(s, n), Tail(s', n');
      if |p| < |q| { SplitAtSeparator(p, x, q, y); }
      if |q| < |p| { SplitAtSeparator(q, y, p, x); }
      SameLengthSplit(p, x, q, y);
      TailInjective(s, n, s', n');
    }
  }

  lemma SameLengthSplit(p: string, x: string, q: string, y: string)
    requires p + SEPARATOR + x == q + SEPARATOR + y && |p| == |q|
    ensures p == q && x == y
  {
    var whole := p + SEPARATOR + x;
    assert whole[..|p|] == p && whole[..|p|] == q;
    assert whole[|p| + 3..] == x && whole[|p| + 3..] == y;
  }

  /** A key is used by one address, selector and flag only, among the names that a destination
      can have. */
  ghost predicate KeyIsUnambiguous(a: Destination, s: string, n: bool) {
    forall b: Destination, s': string, n': bool ::
      '?' !in b.physicalName && ConsumerKey(b, s', n') == ConsumerKey(a, s, n) ==>
        SameAddress(a, b) && s == s' && n == n'
  }

  /** The part of a selector that can pass for the end of a destination's name. */
  function BeforeOption(selector: string): (r: string)
    ensures r <= selector && '?' !in r
    ensures |r| < |selector| ==> selector[|r|] == '?'
  {
    selector[..IndexOf(selector, '?')]
  }

  /** The exact condition, which a caller can check before subscribing: a key is unambiguous if
      and only if "]s=" occurs neither in the destination's name nor in the selector before its
      first '?'. */
  lemma UnambiguousExactly(a: Destination, s: string, n: bool)
    requires '?' !in a.physicalName
    ensures KeyIsUnambiguous(a, s, n) <==>
            !Contains(a.physicalName, SEPARATOR) && !Contains(BeforeOption(s), SEPARATOR)
  {
    if Contains(a.physicalName, SEPARATOR) {
      var i: nat :| OccursAt(a.physicalName, SEPARATOR, i);
      NameCollision(a, s, n, i);
    } else if Contains(BeforeOption(s), SEPARATOR) {
      var i: nat :| OccursAt(BeforeOption(s), SEPARATOR, i);
      SelectorCollision(a, s, n, i);
    } else {
      forall b: Destination, s': string, n': bool
        | '?' !in b.physicalName && ConsumerKey(b, s', n') == ConsumerKey(a, s, n)
        ensures SameAddress(a, b) && s == s' && n == n'
      {
        NoCollision(a, s, n, b, s', n');
      }
    }
  }

  /** A name that holds the separator gives its key to a shorter name with a longer selector. */
  lemma NameCollision(a: Destination, s: string, n: bool, i: nat)
    requires '?' !in a.physicalName && OccursAt(a.physicalName, SEPARATOR, i)
    ensures !KeyIsUnambiguous(a, s, n)
  {
    var name := a.physicalName;
    var b := Destination(a.kind, name[..i]);
    var s' := name[i + 3..] + SEPARATOR + s;
    assert name == name[..i] + SEPARATOR + name[i + 3..];
    assert b.physicalName + SEPARATOR + Tail(s', n) == name + SEPARATOR + Tail(s, n);
    ConsumerKeySplit(b, s', n, a, s, n);
    assert |b.physicalName| < |name|;
  }

  /** A selector that holds the separator before any '?' gives its key to a longer name. */
  lemma SelectorCollision(a: Destination, s: string, n: bool, i: nat)
    requires '?' !in a.physicalName && OccursAt(BeforeOption(s), SEPARATOR, i)
    ensures !KeyIsUnambiguous(a, s, n)
  {
    var b := Destination(a.kind, a.physicalName + SEPARATOR + s[..i]);
    var s' := s[i + 3..];
    assert s[..i] <= BeforeOption(s);
    assert BeforeOption(s)[i..i + 3] == s[i..i + 3];
    assert s == s[..i] + SEPARATOR + s[i + 3..];
    assert b.physicalName + SEPARATOR + Tail(s', n) == a.physicalName + SEPARATOR + Tail(s, n);
    ConsumerKeySplit(b, s', n, a, s, n);
    assert |b.physicalName| > |a.physicalName|;
    assert forall x :: x in s[..i] ==> x in BeforeOption(s);
    assert '?' !in SEPARATOR;
  }

  lemma NoCollision(a: Destination, s: string, n: bool, b: Destination, s': string, n': bool)
    requires '?' !in b.physicalName
    requires !Contains(a.physicalName, SEPARATOR) && !Contains(BeforeOption(s), SEPARATOR)
    requires ConsumerKey(b, s', n') == ConsumerKey(a, s, n)
    ensures SameAddress(a, b) && s == s' && n == n'
  {
    ConsumerKeySplit(b, s', n', a, s, n);
    var p, q := a.physicalName, b.physicalName;
    var x, y := Tail(s, n), Tail(s', n');
    if |q| < |p| { SplitAtSeparator(q, y, p, x); }
    if |q| > |p| {
      var i := SeparatorInTail(p, x, q, y);
      SelectorHoldsSeparator(s, n, i);
    }
    SameLengthSplit(p, x, q, y);
    TailInjective(s, n, s', n');
  }

  /** Where the longer name ends inside the tail that follows the shorter one; what comes
      before belongs to the longer name. */
  lemma SeparatorInTail(p: string, x: string, q: string, y: string) returns (i: nat)
    requires p + SEPARATOR + x == q + SEPARATOR + y && |p| < |q| && '?' !in q
    ensures OccursAt(x, SEPARATOR, i) && '?' !in x[..i]
  {
    var whole := p + SEPARATOR + x;
    assert whole[|p| + 1] == 's' && whole[|p| + 2] == '=';
    assert whole[|q|] == ']' && whole[|q| + 1] == 's' && whole[|q| + 2] == '=';
    i := |q| - |p| - 3;
    assert x[i] == whole[|q|] && x[i + 1] == whole[|q| + 1] && x[i + 2] == whole[|q| + 2];
    assert x[i..i + 3] == SEPARATOR;
    forall j | 0 <= j < i ensures x[..i][j] != '?' {
      assert x[j] == whole[|p| + 3 + j] == q[|p| + 3 + j];
    }
  }

  lemma SelectorHoldsSeparator(s: string, n: bool, i: nat)
    requires OccursAt(Tail(s, n), SEPARATOR, i) && '?' !in Tail(s, n)[..i]
    ensures Contains(BeforeOption(s), SEPARATOR)
  {
    var t := Tail(s, n);
    assert t[i] == ']' && t[i + 1] == 's' && t[i + 2] == '=';
    assert t[|s|] == ',' && t[|s| + 1] == 'n' && t[|s| + 2] == 'l' && t[|s| + 3] == '=';
    assert i + 2 < |s|;
    assert s[i] == t[i] && s[i + 1] == t[i + 1] && s[i + 2] == t[i + 2];
    var front := BeforeOption(s);
    assert forall j :: 0 <= j < i ==> s[j] == t[..i][j];
    assert i + 3 <= |front|;
    assert front[i] == s[i] && front[i + 1] == s[i + 1] && front[i + 2] == s[i + 2];
    assert front[i..i + 3] == SEPARATOR;
    assert OccursAt(front, SEPARATOR, i);
  }
}
