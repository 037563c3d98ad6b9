/** Composite destinations: a comma-separated name stands for a sorted, deduplicated list
    of children, computed once and cached until the name changes. */
module CompositeDestinations {
  import opened Wrappers
  import opened Strings
  import opened Destinations

  predicate IsBlank(c: char) { c == ' ' || c == '\t' }

  function TrimLeft(s: string): (r: string)
    ensures r == [] || !IsBlank(r[0])
    ensures |r| <= |s| && r == s[|s| - |r|..|s|]
  {
    if s == [] || !IsBlank(s[0]) then s else TrimLeft(s[1..])
  }

  function TrimRight(s: string): (r: string)
    ensures r == [] || !IsBlank(r[|r| - 1])
    ensures |r| <= |s| && r == s[0..|r|]
  {
    if s == [] || !IsBlank(s[|s| - 1]) then s else TrimRight(s[..|s| - 1])
  }

  function Trim(s: string): string { TrimRight(TrimLeft(s)) }

  /** The tokens a StringTokenizer on ',' delivers: the non-empty stretches between commas. */
  function Tokens(s: string): (ts: seq<string>)
    ensures forall t :: t in ts ==> t != [] && ',' !in t
    decreases |s|
  {
    if s == [] then []
    else
      var i := IndexOf(s, ',');
      var rest := if i == |s| then [] else Tokens(s[i + 1..]);
      if i == 0 then rest else [s[..i]] + rest
  }

  /** Adding the trimmed non-empty tokens, in order, to a std::set<std::string>. */
  function Components(ts: seq<string>): seq<string> {
    if ts == [] then []
    else
      var cs := Components(ts[..|ts| - 1]);
      var name := Trim(ts[|ts| - 1]);
      if name == [] then cs else Insert(cs, name)
  }

  lemma ComponentsSnoc(ts: seq<string>, i: nat)
    requires i < |ts|
    ensures Components(ts[..i + 1]) ==
            if Trim(ts[i]) == [] then Components(ts[..i]) else Insert(Components(ts[..i]), Trim(ts[i]))
  {
    assert ts[..i + 1][..i] == ts[..i];
  }

  /** The child that a component stands for when the composite has type `k`. */
  function Child(k: Kind, component: string): Destination {
    var r := CreateDestination(CodeOf(k), component);
    if r.Success? then r.value else Destination(k, component)
  }

  function CodeOf(k: Kind): (c: int)
    ensures KindOfCode(c) == Some(k)
  {
    match k case Topic => 0 case Queue => 1 case TemporaryTopic => 2 case TemporaryQueue => 3
  }

  function ChildrenOf(k: Kind, cs: seq<string>): (r: seq<Destination>)
    ensures |r| == |cs|
  {
    if cs == [] then [] else ChildrenOf(k, cs[..|cs| - 1]) + [Child(k, cs[|cs| - 1])]
  }

  lemma {:induction false} ChildAt(k: Kind, cs: seq<string>, i: nat)
    requires i < |cs|
    ensures ChildrenOf(k, cs)[i] == Child(k, cs[i])
  {
    if i < |cs| - 1 { ChildAt(k, cs[..|cs| - 1], i); }
  }

  lemma ChildrenSnoc(k: Kind, cs: seq<string>, i: nat)
    requires i < |cs|
    ensures ChildrenOf(k, cs[..i + 1]) == ChildrenOf(k, cs[..i]) + [Child(k, cs[i])]
  {
    assert cs[..i + 1][..i] == cs[..i];
  }

  /** What getCompositeDestinations answers when it computes from the current name. */
  function Children(d: Destination): seq<Destination> {
    if d.IsComposite() then ChildrenOf(d.kind, Components(Tokens(d.physicalName))) else []
  }

  // ---- Components are a canonical form ----

  function TrimAll(ts: seq<string>): (r: seq<string>)
    ensures |r| == |ts| && forall i :: 0 <= i < |ts| ==> r[i] == Trim(ts[i])
  {
    if ts == [] then [] else TrimAll(ts[..|ts| - 1]) + [Trim(ts[|ts| - 1])]
  }

  lemma {:induction false} ComponentsExact(ts: seq<string>)
    ensures Ascending(Components(ts))
    ensures forall c :: c in Components(ts) <==> c in TrimAll(ts) && c != []
  {
    if ts != [] {
      var front, last := ts[..|ts| - 1], ts[|ts| - 1];
      ComponentsExact(front);
      InsertAscending(Components(front), Trim(last));
    }
  }

  /** One child per distinct non-empty trimmed component, in ascending component order. */
  lemma OneChildPerComponent(d: Destination)
    requires d.IsComposite()
    ensures var cs := Components(Tokens(d.physicalName));
            && Ascending(cs)
            && (forall c :: c in cs <==> c in TrimAll(Tokens(d.physicalName)) && c != [])
            && |Children(d)| == |cs|
            && forall i :: 0 <= i < |cs| ==> Children(d)[i] == Child(d.kind, cs[i])
  {
    var cs := Components(Tokens(d.physicalName));
    ComponentsExact(Tokens(d.physicalName));
    forall i | 0 <= i < |cs| ensures Children(d)[i] == Child(d.kind, cs[i]) { ChildAt(d.kind, cs, i); }
  }

  function Join(parts: seq<string>): string {
    if parts == [] then []
    else if |parts| == 1 then parts[0]
    else parts[0] + "," + Join(parts[1..])
  }

  lemma TokensOfCons(p: string, rest: string)
    requires ',' !in p
    ensures Tokens(p + "," + rest) == (if p == [] then [] else [p]) + Tokens(rest)
  {
    var s := p + "," + rest;
    assert s[..|p|] == p && s[|p| + 1..] == rest;
    IndexOfIs(s, ',', |p|);
  }

  function NonEmpty(parts: seq<string>): (r: seq<string>)
    ensures forall t :: t in r <==> t in parts && t != []
  {
    if parts == [] then []
    else
      assert parts == [parts[0]] + parts[1..];
      (if parts[0] == [] then [] else [parts[0]]) + NonEmpty(parts[1..])
  }

  /** Splitting what was joined gives the non-empty parts back, in order. */
  lemma {:induction false} TokensOfJoin(parts: seq<string>)
    requires forall p :: p in parts ==> ',' !in p
    ensures Tokens(Join(parts)) == NonEmpty(parts)
  {
    if |parts| == 1 {
      TokensOfOne(parts[0]);
      assert NonEmpty(parts[1..]) == [];
    } else if parts != [] {
      TokensOfCons(parts[0], Join(parts[1..]));
      TokensOfJoin(parts[1..]);
    }
  }

  lemma TokensOfOne(p: string)
    requires ',' !in p
    ensures Tokens(p) == if p == [] then [] else [p]
  {
    assert p[..|p|] == p;
  }

  lemma JoinIsComposite(parts: seq<string>)
    requires |parts| >= 2
    ensures ',' in Join(parts)
  {
    assert Join(parts)[|parts[0]|] == ',';
  }

  ghost predicate SameComponents(p: seq<string>, q: seq<string>) {
    && (forall s :: s in p && Trim(s) != [] ==> exists t :: t in q && Trim(t) == Trim(s))
    && (forall s :: s in q && Trim(s) != [] ==> exists t :: t in p && Trim(t) == Trim(s))
  }

  /** Permuting, repeating or blank-padding the parts of a composite name, or adding empty
      parts, leaves its child list unchanged: only the set of trimmed parts matters. */
  lemma ChildrenDependOnComponentSet(k: Kind, p: seq<string>, q: seq<string>)
    requires |p| >= 2 && |q| >= 2
    requires forall s :: s in p || s in q ==> ',' !in s
    requires SameComponents(p, q)
    ensures Children(Destination(k, Join(p))) == Children(Destination(k, Join(q)))
  {
    JoinIsComposite(p);
    JoinIsComposite(q);
    TokensOfJoin(p);
    TokensOfJoin(q);
    var a, b := Components(Tokens(Join(p))), Components(Tokens(Join(q)));
    ComponentsExact(Tokens(Join(p)));
    ComponentsExact(Tokens(Join(q)));
    ComponentsIncluded(p, q);
    ComponentsIncluded(q, p);
    AscendingUnique(a, b);
  }

  predicate AllSpacesOrTabs(s: string) {
    forall c :: c in s ==> c == ' ' || c == '\t'
  }

  lemma {:induction false} TrimLeftCuts(s: string)
    ensures AllSpacesOrTabs(s[..|s| - |TrimLeft(s)|])
    ensures TrimLeft(s) != [] ==> TrimLeft(s)[0] != ' ' && TrimLeft(s)[0] != '\t'
  {
    if s != [] && IsBlank(s[0]) {
      TrimLeftCuts(s[1..]);
      var n := |s| - |TrimLeft(s)|;
      assert s[..n] == [s[0]] + s[1..][..n - 1];
    }
  }

  lemma {:induction false} TrimRightCuts(s: string)
    ensures AllSpacesOrTabs(s[|TrimRight(s)|..])
    ensures TrimRight(s) != [] ==> TrimRight(s)[|TrimRight(s)| - 1] != ' ' && TrimRight(s)[|TrimRight(s)| - 1] != '\t'
  {
    if s != [] && IsBlank(s[|s| - 1]) {
      var front := s[..|s| - 1];
      TrimRightCuts(front);
      assert s[|TrimRight(s)|..] == front[|TrimRight(s)|..] + [s[|s| - 1]];
    }
  }

  /** Trimming cuts spaces and tabs, and nothing else, from both ends, and all of them. */
  lemma TrimExactly(s: string)
    ensures exists left, right ::
              && s == left + Trim(s) + right && AllSpacesOrTabs(left) && AllSpacesOrTabs(right)
    ensures Trim(s) != [] ==>
              && Trim(s)[0] != ' ' && Trim(s)[0] != '\t'
              && Trim(s)[|Trim(s)| - 1] != ' ' && Trim(s)[|Trim(s)| - 1] != '\t'
  {
    hide TrimLeft, TrimRight;
    var l := TrimLeft(s);
    TrimLeftCuts(s);
    TrimRightCuts(l);
    var left, right := s[..|s| - |l|], l[|TrimRight(l)|..];
    assert s == left + l && l == TrimRight(l) + right;
    assert s == left + TrimRight(l) + right;
    if TrimRight(l) != [] { assert TrimRight(l)[0] == l[0]; }
  }

  predicate AllBlank(s: string) { forall c :: c in s ==> IsBlank(c) }

  lemma {:induction false} TrimLeftPadding(pad: string, s: string)
    requires AllBlank(pad)
    ensures TrimLeft(pad + s) == TrimLeft(s)
    decreases |pad|
  {
    if pad == [] {
      assert pad + s == s;
    } else {
      assert pad[0] in pad;
      assert (pad + s)[1..] == pad[1..] + s;
      TrimLeftPadding(pad[1..], s);
    }
  }

  lemma {:induction false} TrimLeftKeepsRight(s: string, pad: string)
    requires AllBlank(pad)
    ensures TrimLeft(s + pad) == if TrimLeft(s) == [] then [] else TrimLeft(s) + pad
    decreases |s|
  {
    if s == [] {
      TrimLeftPadding(pad, []);
      assert s + pad == pad + [];
    } else if IsBlank(s[0]) {
      assert (s + pad)[1..] == s[1..] + pad;
      TrimLeftKeepsRight(s[1..], pad);
    }
  }

  lemma {:induction false} TrimRightPadding(s: string, pad: string)
    requires AllBlank(pad)
    ensures TrimRight(s + pad) == TrimRight(s)
    decreases |pad|
  {
    if pad == [] {
      assert s + pad == s;
    } else {
      var n := |s + pad| - 1;
      assert (s + pad)[n] == pad[|pad| - 1] && pad[|pad| - 1] in pad;
      assert (s + pad)[..n] == s + pad[..|pad| - 1];
      TrimRightPadding(s, pad[..|pad| - 1]);
    }
  }

  /** Blanks around a part do not matter. */
  lemma PaddingIsTrimmed(left: string, s: string, right: string)
    requires AllBlank(left) && AllBlank(right)
    ensures Trim(left + s + right) == Trim(s)
  {
    assert left + s + right == left + (s + right);
    TrimLeftPadding(left, s + right);
    TrimLeftKeepsRight(s, right);
    if TrimLeft(s) != [] { TrimRightPadding(TrimLeft(s), right); }
  }

  lemma TokenOf(ts: seq<string>, c: string) returns (t: string)
    requires c in TrimAll(ts)
    ensures t in ts && Trim(t) == c
  {
    var i :| 0 <= i < |ts| && TrimAll(ts)[i] == c;
    t := ts[i];
  }

  lemma TrimmedIn(ts: seq<string>, t: string)
    requires t in ts
    ensures Trim(t) in TrimAll(ts)
  {
    var i :| 0 <= i < |ts| && ts[i] == t;
    assert TrimAll(ts)[i] == Trim(t);
  }

  lemma TrimEmpty(t: string)
    ensures t == [] ==> Trim(t) == []
  {
  }

  lemma ComponentsIncluded(p: seq<string>, q: seq<string>)
    requires forall s :: s in p || s in q ==> ',' !in s
    requires forall s :: s in p && Trim(s) != [] ==> exists t :: t in q && Trim(t) == Trim(s)
    ensures forall c :: c in Components(Tokens(Join(p))) ==> c in Components(Tokens(Join(q)))
  {
    TokensOfJoin(p);
    TokensOfJoin(q);
    ComponentsExact(Tokens(Join(p)));
    ComponentsExact(Tokens(Join(q)));
    forall c | c in Components(Tokens(Join(p))) ensures c in Components(Tokens(Join(q))) {
      var s := TokenOf(Tokens(Join(p)), c);
      var t :| t in q && Trim(t) == Trim(s);
      assert t in Tokens(Join(q)) by { TrimEmpty(t); }
      TrimmedIn(Tokens(Join(q)), t);
    }
  }

  // ---- Children are simple destinations ----

  lemma TrimIsSlice(s: string)
    ensures forall x :: x in Trim(s) ==> x in s
    ensures Trim(s) == [] || !IsBlank(Trim(s)[|Trim(s)| - 1])
  {
    var l := TrimLeft(s);
    var r := TrimRight(l);
    SliceMembers(s, |s| - |l|, |s|);
    SliceMembers(l, 0, |r|);
  }

  lemma SliceMembers(s: string, i: nat, j: nat)
    requires i <= j <= |s|
    ensures forall x :: x in s[i..j] ==> x in s
  {
  }

  lemma {:induction false} TokensAreSlices(s: string)
    ensures forall t, x :: t in Tokens(s) && x in t ==> x in s
    decreases |s|
  {
    if s != [] {
      var i := IndexOf(s, ',');
      if i < |s| { TokensAreSlices(s[i + 1..]); }
      forall t, x | t in Tokens(s) && x in t ensures x in s {
        if i == |s| || t !in Tokens(s[i + 1..]) { assert t == s[..i]; }
      }
    }
  }

  /** A name that is not composite, carries no options and does not end in a blank. */
  predicate IsSimple(name: string) {
    ',' !in name && '?' !in name && (name == [] || !IsBlank(name[|name| - 1]))
  }

  /** A string that reads as one whole component. */
  predicate IsComponent(s: string) {
    s != [] && ',' !in s && '?' !in s && Trim(s) == s
  }

  /** A parsed name is the argument itself or what follows its qualifier, cut at a '?'. */
  lemma ChildForm(k: Kind, c: string)
    requires '?' !in c
    ensures Child(k, c) == Destination(k, c) ||
            exists q: Kind :: Prefix(q) <= c && Child(k, c) == Destination(q, c[|Prefix(q)|..])
  {
    if q: Kind :| Prefix(q) <= c {
      var rest := c[|Prefix(q)|..];
      assert c == Prefix(q) + rest;
      QualifiedNameWins(CodeOf(k), q, rest);
      assert '?' !in rest;
      assert PhysicalName(rest) == rest;
    } else {
      UnqualifiedNameTakesDefault(CodeOf(k), c);
      assert PhysicalName(c) == c;
    }
  }

  lemma ComponentFacts(d: Destination, c: string)
    requires '?' !in d.physicalName
    requires c in Components(Tokens(d.physicalName))
    ensures c != [] && IsSimple(c)
  {
    ComponentsExact(Tokens(d.physicalName));
    var t := TokenOf(Tokens(d.physicalName), c);
    TokensAreSlices(d.physicalName);
    TrimIsSlice(t);
  }

  lemma PrefixFacts(k: Kind)
    ensures var p := Prefix(k); |p| >= 8 && !IsBlank(p[0]) && !IsBlank(p[|p| - 1]) && ',' !in p && '?' !in p
  {
  }

  lemma PrintedFacts(k: Kind, name: string)
    requires IsSimple(name)
    ensures IsComponent(Prefix(k) + name)
  {
    PrefixFacts(k);
    var p := Prefix(k);
    var s := p + name;
    assert s[0] == p[0];
    assert s[|s| - 1] == if name == [] then p[|p| - 1] else name[|name| - 1];
    assert TrimLeft(s) == s && TrimRight(s) == s;
  }

  lemma ChildIsSimple(k: Kind, c: string)
    requires IsSimple(c)
    ensures IsSimple(Child(k, c).physicalName)
  {
    ChildForm(k, c);
    if Child(k, c) != Destination(k, c) {
      var q: Kind :| Prefix(q) <= c && Child(k, c) == Destination(q, c[|Prefix(q)|..]);
      SuffixIsSimple(c, |Prefix(q)|);
    }
  }

  lemma SuffixIsSimple(c: string, i: nat)
    requires IsSimple(c) && i <= |c|
    ensures IsSimple(c[i..])
  {
    assert i < |c| ==> c[i..][|c| - i - 1] == c[|c| - 1];
  }

  /** No child is itself composite, and no child's name holds an option separator. */
  lemma ChildrenAreSimple(d: Destination, child: Destination)
    requires '?' !in d.physicalName && child in Children(d)
    ensures !child.IsComposite() && IsSimple(child.physicalName)
  {
    var cs := Components(Tokens(d.physicalName));
    var i :| 0 <= i < |cs| && ChildrenOf(d.kind, cs)[i] == child;
    ChildAt(d.kind, cs, i);
    ComponentFacts(d, cs[i]);
    ChildIsSimple(d.kind, cs[i]);
  }

  // ---- Print and parse ----

  function Printed(ds: seq<Destination>): (r: seq<string>)
    ensures |r| == |ds| && forall i :: 0 <= i < |ds| ==> r[i] == ds[i].ToString()
  {
    if ds == [] then [] else [ds[0].ToString()] + Printed(ds[1..])
  }

  lemma ChildOfPrinted(k: Kind, d: Destination)
    requires '?' !in d.physicalName
    ensures Child(k, d.ToString()) == d
  {
    QualifiedNameRoundTrip(CodeOf(k), d);
  }

  lemma PrintedParts(ds: seq<Destination>, p: string)
    requires p in Printed(ds) && forall x :: x in ds ==> IsSimple(x.physicalName)
    ensures IsComponent(p)
    ensures exists x :: x in ds && x.ToString() == p
  {
    var i :| 0 <= i < |ds| && p == Printed(ds)[i];
    assert ds[i] in ds;
    PrintedFacts(ds[i].kind, ds[i].physicalName);
  }

  lemma PrintedIn(ds: seq<Destination>, x: Destination)
    requires x in ds
    ensures x.ToString() in Printed(ds)
  {
    var i :| 0 <= i < |ds| && ds[i] == x;
    assert Printed(ds)[i] == x.ToString();
  }

  /** The components of joined components are exactly those. */
  lemma ComponentsOfJoin(parts: seq<string>)
    requires forall p :: p in parts ==> IsComponent(p)
    ensures forall c :: c in Components(Tokens(Join(parts))) <==> c in parts
  {
    var ts := Tokens(Join(parts));
    TokensOfJoin(parts);
    ComponentsExact(ts);
    forall c ensures c in TrimAll(ts) && c != [] <==> c in parts {
      if c in TrimAll(ts) {
        var t := TokenOf(ts, c);
        assert t in parts;
      }
      if c in parts { TrimmedIn(ts, c); }
    }
  }

  /** Reading components back gives the destinations they were printed from. */
  lemma ReparsedChildren(ds: seq<Destination>, cs: seq<string>, k: Kind)
    requires forall x :: x in ds ==> IsSimple(x.physicalName)
    requires forall c :: c in cs <==> c in Printed(ds)
    ensures forall x :: x in ChildrenOf(k, cs) <==> x in ds
  {
    var back := ChildrenOf(k, cs);
    forall x | x in ds ensures x in back {
      PrintedIn(ds, x);
      var j :| 0 <= j < |cs| && cs[j] == x.ToString();
      ChildOfPrinted(k, x);
      ChildAt(k, cs, j);
      assert back[j] == x;
    }
    forall x | x in back ensures x in ds {
      var j :| 0 <= j < |cs| && back[j] == x;
      ChildAt(k, cs, j);
      ReparsedOne(ds, cs[j], k);
    }
  }

  lemma ReparsedOne(ds: seq<Destination>, c: string, k: Kind)
    requires forall x :: x in ds ==> IsSimple(x.physicalName)
    requires c in Printed(ds)
    ensures Child(k, c) in ds
  {
    PrintedParts(ds, c);
    var y :| y in ds && y.ToString() == c;
    ChildOfPrinted(k, y);
  }

  lemma JoinedName(ds: seq<Destination>, k: Kind)
    requires |ds| >= 2 && forall x :: x in ds ==> IsSimple(x.physicalName)
    ensures var name := Join(Printed(ds)); Named(k, name) == Destination(k, name) && ',' in name
    ensures forall p :: p in Printed(ds) ==> IsComponent(p)
  {
    forall p | p in Printed(ds) ensures IsComponent(p) { PrintedParts(ds, p); }
    JoinIsComposite(Printed(ds));
    JoinHasNoOption(Printed(ds));
  }

  /** Joining the printed children with commas and reading that as the name of a composite
      of any type gives the same set of destinations. */
  lemma CompositePrintParse(d: Destination, k: Kind)
    requires '?' !in d.physicalName && |Children(d)| >= 2
    ensures var again := Named(k, Join(Printed(Children(d))));
            && again.physicalName == Join(Printed(Children(d)))
            && again.IsComposite()
            && forall x :: x in Children(again) <==> x in Children(d)
  {
    var ds := Children(d);
    forall x | x in ds ensures IsSimple(x.physicalName) { ChildrenAreSimple(d, x); }
    JoinedName(ds, k);
    var parts := Printed(ds);
    ComponentsOfJoin(parts);
    ReparsedChildren(ds, Components(Tokens(Join(parts))), k);
  }

  lemma {:induction false} JoinHasNoOption(parts: seq<string>)
    requires forall p :: p in parts ==> '?' !in p
    ensures '?' !in Join(parts)
  {
    if |parts| > 1 { JoinHasNoOption(parts[1..]); assert parts[0] in parts; }
  }

  // ---- When a child list repeats a destination ----

  /** A component that takes the composite's own type. */
  ghost predicate Unqualified(c: string) {
    forall q: Kind :: !(Prefix(q) <= c)
  }

  lemma UnqualifiedChild(k: Kind, c: string)
    requires '?' !in c && Unqualified(c)
    ensures Child(k, c) == Destination(k, c)
  {
    UnqualifiedNameTakesDefault(CodeOf(k), c);
    assert PhysicalName(c) == c;
  }

  lemma QualifiedChild(k: Kind, q: Kind, rest: string)
    requires '?' !in rest
    ensures Child(k, Prefix(q) + rest) == Destination(q, rest)
  {
    QualifiedNameWins(CodeOf(k), q, rest);
    assert PhysicalName(rest) == rest;
  }

  /** Two different components stand for one child exactly when one of them is unqualified and
      the other is it, qualified with the composite's own type. */
  lemma ChildrenCollideExactly(k: Kind, c: string, c': string)
    requires '?' !in c && '?' !in c' && c != c'
    ensures Child(k, c) == Child(k, c') <==>
            (Unqualified(c) && c' == Prefix(k) + c) || (Unqualified(c') && c == Prefix(k) + c')
  {
    if Unqualified(c) && Unqualified(c') {
      UnqualifiedChild(k, c);
      UnqualifiedChild(k, c');
      assert Prefix(k) <= Prefix(k) + c && Prefix(k) <= Prefix(k) + c';
    } else if Unqualified(c) {
      OneQualified(k, c, c');
    } else if Unqualified(c') {
      OneQualified(k, c', c);
    } else {
      var q: Kind :| Prefix(q) <= c;
      var q': Kind :| Prefix(q') <= c';
      QualifiedApart(k, q, c);
      QualifiedApart(k, q', c');
    }
  }

  lemma OneQualified(k: Kind, c: string, c': string)
    requires '?' !in c && '?' !in c' && Unqualified(c) && !Unqualified(c')
    ensures Child(k, c) == Child(k, c') <==> c' == Prefix(k) + c
  {
    var q: Kind :| Prefix(q) <= c';
    UnqualifiedChild(k, c);
    QualifiedApart(k, q, c');
    if c' == Prefix(k) + c {
      assert Prefix(k) <= c';
      PrefixesDisjoint(k, q, c');
    }
  }

  lemma QualifiedApart(k: Kind, q: Kind, c: string)
    requires '?' !in c && Prefix(q) <= c
    ensures Child(k, c) == Destination(q, c[|Prefix(q)|..]) && c == Prefix(q) + c[|Prefix(q)|..]
  {
    assert c == Prefix(q) + c[|Prefix(q)|..];
    QualifiedChild(k, q, c[|Prefix(q)|..]);
  }

  ghost predicate NoRepeats(ds: seq<Destination>) {
    forall i, j :: 0 <= i < j < |ds| ==> ds[i] != ds[j]
  }

  /** A child list names every destination once if and only if no unqualified component stands
      among the components a second time, qualified with the composite's own type. */
  lemma NoRepeatsExactly(d: Destination)
    requires '?' !in d.physicalName && d.IsComposite()
    ensures var cs := Components(Tokens(d.physicalName));
            NoRepeats(Children(d)) <==> (forall c :: c in cs && Unqualified(c) ==> Prefix(d.kind) + c !in cs)
  {
    var cs := Components(Tokens(d.physicalName));
    OneChildPerComponent(d);
    forall c | c in cs ensures '?' !in c { ComponentFacts(d, c); }
    if forall c :: c in cs && Unqualified(c) ==> Prefix(d.kind) + c !in cs {
      forall i, j | 0 <= i < j < |cs| ensures Children(d)[i] != Children(d)[j] {
        assert cs[i] in cs && cs[j] in cs;
        assert Less(cs[i], cs[j]);
        LessIrreflexive(cs[i]);
        ChildrenCollideExactly(d.kind, cs[i], cs[j]);
      }
    } else {
      var c :| c in cs && Unqualified(c) && Prefix(d.kind) + c in cs;
      RepeatedChild(d, cs, c);
    }
  }

  lemma RepeatedChild(d: Destination, cs: seq<string>, c: string)
    requires |Children(d)| == |cs| && forall i :: 0 <= i < |cs| ==> Children(d)[i] == Child(d.kind, cs[i])
    requires c in cs && Unqualified(c) && Prefix(d.kind) + c in cs && '?' !in c
    ensures !NoRepeats(Children(d))
  {
    hide Children, Child, Unqualified;
    var i :| 0 <= i < |cs| && cs[i] == c;
    var j :| 0 <= j < |cs| && cs[j] == Prefix(d.kind) + c;
    UnqualifiedChild(d.kind, c);
    QualifiedChild(d.kind, d.kind, c);
    assert |Prefix(d.kind)| > 0;
    assert Children(d)[i] == Children(d)[j];
  }

  /** Such a name exists for every type and component, "a,queue://a" for queues. */
  lemma RepeatedName(k: Kind, c: string)
    requires IsComponent(c) && Unqualified(c)
    ensures !NoRepeats(Children(Destination(k, c + "," + (Prefix(k) + c))))
  {
    hide Prefix, Tokens, Components, Trim, Children, Unqualified, NoRepeats;
    var parts := [c, Prefix(k) + c];
    var d := Destination(k, Join(parts));
    assert Join(parts) == c + "," + (Prefix(k) + c) by { assert parts[1..] == [Prefix(k) + c]; }
    ComponentIsSimple(c);
    PrintedFacts(k, c);
    ComponentsOfJoin(parts);
    assert parts[0] in parts && parts[1] in parts;
    JoinIsComposite(parts);
    JoinHasNoOption(parts);
    NoRepeatsExactly(d);
  }

  lemma ComponentIsSimple(c: string)
    requires IsComponent(c)
    ensures IsSimple(c)
  {
    TrimIsSlice(c);
  }

  lemma RepeatedQueue()
    ensures !NoRepeats(Children(Destination(Queue, "a" + "," + ("queue://" + "a"))))
  {
    forall q: Kind ensures !(Prefix(q) <= "a") { PrefixFacts(q); }
    RepeatedName(Queue, "a");
  }

  // ---- The destination object and its cached child list ----

  class ActiveMQDestination {
    const kind: Kind
    var physicalName: string
    var compositeDestinations: seq<Destination>

    ghost function Value(): Destination
      reads this
    {
      Destination(kind, physicalName)
    }

    /** The cached list is empty or is what recomputing from the current name would give. */
    ghost predicate Valid()
      reads this
    {
      '?' !in physicalName && (compositeDestinations != [] ==> compositeDestinations == Children(Value()))
    }

    constructor (kind: Kind, name: string)
      ensures Valid() && this.kind == kind && Value() == Named(kind, name)
    {
      this.kind := kind;
      physicalName := PhysicalName(name);
      compositeDestinations := [];
    }

    method SetPhysicalName(name: string)
      modifies this
      ensures Valid() && Value() == Named(kind, name)
    {
      physicalName := name;
      var pos := IndexOf(name, '?');
      if pos < |name| {
        physicalName := name[..pos];
      } else {
        assert name[..pos] == name;
      }
      compositeDestinations := [];
    }

    method CopyDataStructure(src: ActiveMQDestination)
      requires Valid() && src.Valid()
      modifies this
      ensures Valid() && physicalName == old(src.physicalName)
    {
      SetPhysicalName(src.physicalName);
    }

    /** Whatever names were set and lists were read before, the answer is the recomputed one. */
    method GetCompositeDestinations() returns (r: seq<Destination>)
      requires Valid()
      modifies this`compositeDestinations
      ensures Valid() && r == Children(Value()) && r == compositeDestinations
    {
      if compositeDestinations != [] { return compositeDestinations; }
      if ',' in physicalName {
        var tokens := Tokens(physicalName);
        var components := CollectComponents(tokens);
        AddChildren(components);
      }
      return compositeDestinations;
    }

    method AddChildren(components: seq<string>)
      requires compositeDestinations == []
      modifies this`compositeDestinations
      ensures compositeDestinations == ChildrenOf(kind, components)
    {
      for i := 0 to |components|
        invariant compositeDestinations == ChildrenOf(kind, components[..i])
      {
        ChildrenSnoc(kind, components, i);
        compositeDestinations := compositeDestinations + [Child(kind, components[i])];
      }
      assert components[..|components|] == components;
    }

    static method CollectComponents(tokens: seq<string>) returns (components: seq<string>)
      ensures components == Components(tokens)
    {
      components := [];
      for i := 0 to |tokens|
        invariant components == Components(tokens[..i])
      {
        ComponentsSnoc(tokens, i);
        var name := Trim(tokens[i]);
        if |name| == 0 { continue; }
        components := Insert(components, name);
      }
      assert tokens[..|tokens|] == tokens;
    }
  }
}
