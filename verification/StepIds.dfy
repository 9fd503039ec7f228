/** Step ids (ironflow/step.go).

    A step id is the memoization key of a step on both sides of the wire.  It spells the
    scope path of the claim (fan-out name and branch index, outermost first), the step name
    and a per-scope counter.  The main theorem is that the escaped spelling is injective in
    all of these, although the `publish:` and `compensate:` prefixes are left unescaped. */
module StepIds {

  /** One `name:number` element of an id: a fan-out and its branch, or a step and its counter. */
  datatype Element = Element(name: string, index: nat)

  /** What a step claims: the scope it runs in, its name and its occurrence in that scope. */
  datatype Claim = Claim(path: seq<Element>, name: string, index: nat)

  const COMPENSATE := "compensate:"
  const PUBLISH := "publish:"

  // ---------------------------------------------------------------- spelling

  /** strings.NewReplacer(`\`, `\\`, `:`, `\:`). */
  function Escape(s: string): string {
    if s == "" then ""
    else (if s[0] == '\\' then "\\\\" else if s[0] == ':' then "\\:" else [s[0]]) + Escape(s[1..])
  }

  /** escapeStepIDPart: only the leaf after a namespace prefix is escaped. */
  function EscapePart(part: string): string {
    if COMPENSATE <= part then COMPENSATE + Escape(part[|COMPENSATE|..])
    else if PUBLISH <= part then PUBLISH + Escape(part[|PUBLISH|..])
    else Escape(part)
  }

  function Digit(d: nat): char
    requires d < 10
  {
    ('0' as int + d) as char
  }

  /** The `%d` verb. */
  function Decimal(n: nat): string {
    if n < 10 then [Digit(n)] else Decimal(n / 10) + [Digit(n % 10)]
  }

  /** createBranchContext: a scope prefix extends its parent's prefix. */
  function ScopePrefix(run: string, path: seq<Element>): string {
    if path == [] then run
    else
      var last := path[|path| - 1];
      ScopePrefix(run, path[..|path| - 1]) + ":" + EscapePart(last.name) + ":" + Decimal(last.index)
  }

  function LegacyScopePrefix(run: string, path: seq<Element>): string {
    if path == [] then run
    else
      var last := path[|path| - 1];
      LegacyScopePrefix(run, path[..|path| - 1]) + ":" + last.name + ":" + Decimal(last.index)
  }

  /** The escaped id of a claim. */
  function Id(run: string, c: Claim): string {
    ScopePrefix(run, c.path) + ":" + EscapePart(c.name) + ":" + Decimal(c.index)
  }

  /** The id an SDK that did not escape would have written. */
  function LegacyId(run: string, c: Claim): string {
    LegacyScopePrefix(run, c.path) + ":" + c.name + ":" + Decimal(c.index)
  }

  /** The claim reads the row of an unescaped SDK: only that row is in the memo table. */
  predicate Bridged(run: string, keys: set<string>, c: Claim) {
    LegacyId(run, c) != Id(run, c) && Id(run, c) !in keys && LegacyId(run, c) in keys
  }

  /** preferLegacyStepID. */
  function PreferLegacy(keys: set<string>, id: string, legacy: string): string {
    if legacy == id then id
    else if id in keys then id
    else if legacy in keys then legacy
    else id
  }

  /** The id a claim uses: generateStepID against a memo table. */
  function Resolve(run: string, keys: set<string>, c: Claim): string {
    PreferLegacy(keys, Id(run, c), LegacyId(run, c))
  }

  // ------------------------------------------------- unique decoding of segments

  /** Every colon in `s` is escaped and no escape is cut short. */
  predicate Closed(s: string) {
    s == "" ||
    (if s[0] == '\\' then |s| >= 2 && Closed(s[2..]) else s[0] != ':' && Closed(s[1..]))
  }

  predicate Numeric(s: string) {
    s != "" && forall i | 0 <= i < |s| :: '0' <= s[i] <= '9'
  }

  /** A remainder of an id: nothing, or a separator and more. */
  predicate AtSeparator(s: string) {
    s == "" || s[0] == ':'
  }

  function Joined(segments: seq<string>): string {
    if segments == [] then "" else ":" + segments[0] + Joined(segments[1..])
  }

  /** The raw segments of a name: a namespace prefix contributes a segment of its own. */
  function NameSegments(name: string): seq<string> {
    if COMPENSATE <= name then ["compensate", Escape(name[|COMPENSATE|..])]
    else if PUBLISH <= name then ["publish", Escape(name[|PUBLISH|..])]
    else [Escape(name)]
  }

  function Segments(es: seq<Element>): seq<string> {
    if es == [] then []
    else NameSegments(es[0].name) + [Decimal(es[0].index)] + Segments(es[1..])
  }

  lemma {:induction false} EscapeIsClosed(s: string)
    ensures Closed(Escape(s))
  {
    if s != "" {
      EscapeIsClosed(s[1..]);
      var rest := Escape(s[1..]);
      if s[0] == '\\' || s[0] == ':' {
        assert Escape(s)[2..] == rest;
      } else {
        assert Escape(s)[1..] == rest;
      }
    }
  }

  lemma {:induction false} EscapeInjective(s: string, t: string)
    requires Escape(s) == Escape(t)
    ensures s == t
  {
    if s == "" || t == "" {
      assert s != "" ==> Escape(s) != "";
      assert t != "" ==> Escape(t) != "";
    } else {
      var a := if s[0] == '\\' then "\\\\" else if s[0] == ':' then "\\:" else [s[0]];
      var b := if t[0] == '\\' then "\\\\" else if t[0] == ':' then "\\:" else [t[0]];
      assert Escape(s) == a + Escape(s[1..]) && Escape(t) == b + Escape(t[1..]);
      assert Escape(s)[0] == a[0] && Escape(t)[0] == b[0];
      if |a| == 2 { assert Escape(s)[1] == a[1]; }
      if |b| == 2 { assert Escape(t)[1] == b[1]; }
      assert a == b && s[0] == t[0];
      assert Escape(s)[|a|..] == Escape(s[1..]) && Escape(t)[|b|..] == Escape(t[1..]);
      EscapeInjective(s[1..], t[1..]);
      assert s == [s[0]] + s[1..] && t == [t[0]] + t[1..];
    }
  }

  lemma {:induction false} DecimalIsNumeric(n: nat)
    ensures Numeric(Decimal(n))
  {
    if n >= 10 { DecimalIsNumeric(n / 10); }
  }

  lemma {:induction false} DecimalInjective(m: nat, n: nat)
    requires Decimal(m) == Decimal(n)
    ensures m == n
  {
    DecimalIsNumeric(m / 10);
    DecimalIsNumeric(n / 10);
    var a, b := Decimal(m), Decimal(n);
    assert a[|a| - 1] == Digit(m % 10) && b[|b| - 1] == Digit(n % 10);
    if m >= 10 && n >= 10 {
      assert a[..|a| - 1] == Decimal(m / 10) && b[..|b| - 1] == Decimal(n / 10);
      DecimalInjective(m / 10, n / 10);
    }
  }

  lemma {:induction false} NumericIsClosed(s: string)
    requires forall i | 0 <= i < |s| :: '0' <= s[i] <= '9'
    ensures Closed(s)
  {
    if s != "" { NumericIsClosed(s[1..]); }
  }

  /** A closed segment ends where the first unescaped separator stands. */
  lemma {:induction false} ClosedSplit(a: string, u: string, b: string, v: string)
    requires Closed(a) && Closed(b) && AtSeparator(u) && AtSeparator(v)
    requires a + u == b + v
    ensures a == b && u == v
  {
    if a == "" || b == "" {
      assert a == "" ==> u == b + v;
      assert b == "" ==> v == a + u;
    } else {
      assert (a + u)[0] == a[0] && (b + v)[0] == b[0];
      var n := if a[0] == '\\' then 2 else 1;
      assert (a + u)[n..] == a[n..] + u && (b + v)[n..] == b[n..] + v;
      ClosedSplit(a[n..], u, b[n..], v);
      if n == 2 { assert (a + u)[1] == a[1] && (b + v)[1] == b[1]; }
      assert a == a[..n] + a[n..] && b == b[..n] + b[n..];
      assert a[..n] == b[..n];
    }
  }

  lemma {:induction false} JoinedInjective(a: seq<string>, b: seq<string>)
    requires forall i | 0 <= i < |a| :: Closed(a[i])
    requires forall i | 0 <= i < |b| :: Closed(b[i])
    requires Joined(a) == Joined(b)
    ensures a == b
  {
    if a == [] || b == [] {
    } else {
      var u, v := Joined(a[1..]), Joined(b[1..]);
      assert Joined(a)[1..] == a[0] + u && Joined(b)[1..] == b[0] + v;
      ClosedSplit(a[0], u, b[0], v);
      JoinedInjective(a[1..], b[1..]);
      assert a == [a[0]] + a[1..] && b == [b[0]] + b[1..];
    }
  }

  lemma {:induction false} JoinedConcat(a: seq<string>, b: seq<string>)
    ensures Joined(a + b) == Joined(a) + Joined(b)
  {
    if a == [] {
      assert a + b == b;
    } else {
      assert (a + b)[1..] == a[1..] + b;
      JoinedConcat(a[1..], b);
    }
  }

  lemma {:induction false} SegmentsConcat(a: seq<Element>, b: seq<Element>)
    ensures Segments(a + b) == Segments(a) + Segments(b)
  {
    if a == [] {
      assert a + b == b;
    } else {
      assert (a + b)[1..] == a[1..] + b;
      SegmentsConcat(a[1..], b);
    }
  }

  lemma {:induction false} JoinedPair(a: string, b: string)
    ensures Joined([a]) == ":" + a
    ensures Joined([a, b]) == ":" + a + ":" + b
  {
    assert [a][1..] == [] && [a, b][1..] == [b] && [b][1..] == [];
    assert Joined([b]) == ":" + b;
  }

  /** The segments of a name, joined, are its escaped spelling. */
  lemma {:induction false} NameSpelling(name: string)
    ensures Joined(NameSegments(name)) == ":" + EscapePart(name)
  {
    var leaf := Escape(name[if COMPENSATE <= name then |COMPENSATE| else if PUBLISH <= name then |PUBLISH| else 0..]);
    JoinedPair(leaf, "");
    if COMPENSATE <= name {
      JoinedPair("compensate", leaf);
      assert ":" + "compensate" + ":" + leaf == ":" + (COMPENSATE + leaf);
    } else if PUBLISH <= name {
      JoinedPair("publish", leaf);
      assert ":" + "publish" + ":" + leaf == ":" + (PUBLISH + leaf);
    } else {
      assert name[0..] == name;
    }
  }

  lemma {:induction false} ElementSpelling(e: Element)
    ensures Joined(Segments([e])) == ":" + EscapePart(e.name) + ":" + Decimal(e.index)
  {
    var names, d := NameSegments(e.name), Decimal(e.index);
    assert [e][1..] == [];
    assert Segments([e]) == names + [d];
    JoinedConcat(names, [d]);
    NameSpelling(e.name);
    JoinedPair(d, "");
  }

  function Spelled(e: Element): string {
    ":" + EscapePart(e.name) + ":" + Decimal(e.index)
  }

  lemma {:induction false} PrefixLast(run: string, init: seq<Element>, last: Element)
    ensures ScopePrefix(run, init + [last]) == ScopePrefix(run, init) + Spelled(last)
  {
    var path := init + [last];
    assert path[..|path| - 1] == init;
    Regroup(ScopePrefix(run, init), EscapePart(last.name), Decimal(last.index));
  }

  lemma {:induction false} Regroup(prefix: string, name: string, number: string)
    ensures prefix + ":" + name + ":" + number == prefix + (":" + name + ":" + number)
  {
  }

  lemma {:induction false} JoinedLast(init: seq<Element>, last: Element)
    ensures Joined(Segments(init + [last])) == Joined(Segments(init)) + Spelled(last)
  {
    SegmentsConcat(init, [last]);
    JoinedConcat(Segments(init), Segments([last]));
    ElementSpelling(last);
  }

  lemma {:induction false} PrefixSpelling(run: string, path: seq<Element>)
    ensures ScopePrefix(run, path) == run + Joined(Segments(path))
    decreases |path|, 0
  {
    if path != [] {
      var init, last := path[..|path| - 1], path[|path| - 1];
      assert path == init + [last];
      SpellingStep(run, init, last);
    }
  }

  lemma {:induction false} SpellingStep(run: string, init: seq<Element>, last: Element)
    ensures ScopePrefix(run, init + [last]) == run + Joined(Segments(init + [last]))
    decreases |init|, 1
  {
    PrefixSpelling(run, init);
    PrefixLast(run, init, last);
    JoinedLast(init, last);
    Associate(run, Joined(Segments(init)), Spelled(last));
  }

  lemma {:induction false} Associate(a: string, b: string, c: string)
    ensures (a + b) + c == a + (b + c)
  {
  }

  lemma {:induction false} SegmentsClosed(es: seq<Element>)
    ensures forall i | 0 <= i < |Segments(es)| :: Closed(Segments(es)[i])
  {
    if es != [] {
      var name := es[0].name;
      EscapeIsClosed(name);
      if COMPENSATE <= name { EscapeIsClosed(name[|COMPENSATE|..]); LettersClosed(); }
      else if PUBLISH <= name { EscapeIsClosed(name[|PUBLISH|..]); LettersClosed(); }
      DecimalIsNumeric(es[0].index);
      NumericIsClosed(Decimal(es[0].index));
      SegmentsClosed(es[1..]);
    }
  }

  lemma {:induction false} LettersClosed()
    ensures Closed("compensate") && Closed("publish")
  {
    PlainIsClosed("compensate");
    PlainIsClosed("publish");
  }

  lemma {:induction false} PlainIsClosed(s: string)
    requires forall i | 0 <= i < |s| :: s[i] != ':' && s[i] != '\\'
    ensures Closed(s)
  {
    if s != "" { PlainIsClosed(s[1..]); }
  }

  /** Two readings of one segment list that are out of step by one number never meet again:
      the position where one reading expects a name holds a number in the other, so neither
      can start a namespace there, and the lists cannot end together. */
  lemma {:induction false} OutOfPhase(a: seq<Element>, d: nat, b: seq<Element>)
    ensures Segments(a) != [Decimal(d)] + Segments(b)
    decreases |a| + |b|
  {
    if Segments(a) == [Decimal(d)] + Segments(b) {
      assert a != [];
      var ns, rest := NameSegments(a[0].name), Segments(a[1..]);
      assert Segments(a) == ns + [Decimal(a[0].index)] + rest;
      assert ns[0] == Segments(a)[0] == Decimal(d);
      NumberIsNoNamespace(a[0].name, d);
      DropFirst(ns, Decimal(a[0].index), rest, Decimal(d), Segments(b));
      OutOfPhase(b, a[0].index, a[1..]);
    }
  }

  /** A name whose first segment is a number has no namespace. */
  lemma {:induction false} NumberIsNoNamespace(name: string, d: nat)
    requires NameSegments(name)[0] == Decimal(d)
    ensures |NameSegments(name)| == 1
  {
    DecimalIsNumeric(d);
    assert NameSegments(name)[0][0] != 'c' && NameSegments(name)[0][0] != 'p';
  }

  lemma {:induction false} DropFirst(names: seq<string>, d: string, rest: seq<string>, e: string, others: seq<string>)
    requires |names| == 1 && names + [d] + rest == [e] + others
    ensures others == [d] + rest
  {
    assert (names + [d] + rest)[1..] == [d] + rest;
    assert ([e] + others)[1..] == others;
  }

  lemma {:induction false} NameSegmentsInjective(s: string, t: string)
    requires NameSegments(s) == NameSegments(t)
    ensures s == t
  {
    var a, b := NameSegments(s), NameSegments(t);
    assert a[0] == b[0];
    if COMPENSATE <= s {
      assert a[1] == b[1] && COMPENSATE <= t;
      EscapeInjective(s[|COMPENSATE|..], t[|COMPENSATE|..]);
      assert s == COMPENSATE + s[|COMPENSATE|..] && t == COMPENSATE + t[|COMPENSATE|..];
    } else if PUBLISH <= s {
      assert a[1] == b[1] && PUBLISH <= t;
      EscapeInjective(s[|PUBLISH|..], t[|PUBLISH|..]);
      assert s == PUBLISH + s[|PUBLISH|..] && t == PUBLISH + t[|PUBLISH|..];
    } else {
      EscapeInjective(s, t);
    }
  }

  lemma {:induction false} SegmentsInjective(a: seq<Element>, b: seq<Element>)
    requires Segments(a) == Segments(b)
    ensures a == b
    decreases |a|
  {
    if a == [] || b == [] {
    } else {
      var m, n := NameSegments(a[0].name), NameSegments(b[0].name);
      var s, t := Segments(a), Segments(b);
      if |m| != |n| {
        // One reading takes a namespace and a leaf where the other takes a name and a number.
        if |m| == 1 { PhaseClash(a, b); } else { PhaseClash(b, a); }
        assert false;
      }
      assert m == s[..|m|] && n == t[..|n|];
      NameSegmentsInjective(a[0].name, b[0].name);
      assert s[|m|] == Decimal(a[0].index) && t[|n|] == Decimal(b[0].index);
      DecimalInjective(a[0].index, b[0].index);
      assert s[|m| + 1..] == Segments(a[1..]) && t[|n| + 1..] == Segments(b[1..]);
      SegmentsInjective(a[1..], b[1..]);
      assert a == [a[0]] + a[1..] && b == [b[0]] + b[1..];
    }
  }

  lemma {:induction false} PhaseClash(a: seq<Element>, b: seq<Element>)
    requires a != [] && b != []
    requires |NameSegments(a[0].name)| == 1 && |NameSegments(b[0].name)| == 2
    ensures Segments(a) != Segments(b)
  {
    DropName(a);
    DropName(b);
    OutOfPhase(a[1..], b[0].index, b[1..]);
  }

  /** What follows the first name of a list, or its first name and number. */
  lemma {:induction false} DropName(a: seq<Element>)
    requires a != []
    ensures var n := |NameSegments(a[0].name)|;
            n == 1 || n == 2
    ensures |NameSegments(a[0].name)| == 1 ==> |Segments(a)| >= 2 && Segments(a)[2..] == Segments(a[1..])
    ensures |NameSegments(a[0].name)| == 2 ==>
              |Segments(a)| >= 2 && Segments(a)[2..] == [Decimal(a[0].index)] + Segments(a[1..])
  {
    Tail2(NameSegments(a[0].name), Decimal(a[0].index), Segments(a[1..]));
  }

  lemma {:induction false} Tail2(names: seq<string>, d: string, rest: seq<string>)
    ensures |names| == 1 ==> (names + [d] + rest)[2..] == rest
    ensures |names| == 2 ==> (names + [d] + rest)[2..] == [d] + rest
  {
  }

  // ------------------------------------------------------------ main results

  /** The escaped step id determines scope path, step name and counter. */
  lemma {:induction false} IdInjective(run: string, c: Claim, d: Claim)
    requires Id(run, c) == Id(run, d)
    ensures c == d
  {
    var p, q := c.path + [Element(c.name, c.index)], d.path + [Element(d.name, d.index)];
    IdSpelling(run, c);
    IdSpelling(run, d);
    assert Id(run, c)[|run|..] == Joined(Segments(p)) && Id(run, d)[|run|..] == Joined(Segments(q));
    SegmentsClosed(p);
    SegmentsClosed(q);
    JoinedInjective(Segments(p), Segments(q));
    SegmentsInjective(p, q);
    assert p[|p| - 1] == q[|q| - 1] && p[..|p| - 1] == c.path && q[..|q| - 1] == d.path;
  }

  lemma {:induction false} IdSpelling(run: string, c: Claim)
    ensures Id(run, c) == run + Joined(Segments(c.path + [Element(c.name, c.index)]))
  {
    var e := Element(c.name, c.index);
    PrefixLast(run, c.path, e);
    Regroup(ScopePrefix(run, c.path), EscapePart(c.name), Decimal(c.index));
    PrefixSpelling(run, c.path + [e]);
  }

  /** The unescaped spelling is not injective: a root step named `a:0:b` and a step `b`
      inside branch 0 of fan-out `a` share one legacy id. */
  lemma {:induction false} LegacyIdCollides(run: string)
    ensures LegacyId(run, Claim([], "a:0:b", 0)) == LegacyId(run, Claim([Element("a", 0)], "b", 0))
  {
    var path := [Element("a", 0)];
    assert path[..0] == [];
    assert LegacyScopePrefix(run, path) == run + ":" + "a" + ":" + Decimal(0);
    assert Decimal(0) == "0";
    assert run + ":" + "a:0:b" + ":" + "0" == run + ":" + "a" + ":" + "0" + ":" + "b" + ":" + "0";
  }

  /** The collision condition, for any spelling and any injective escaped spelling. */
  lemma {:induction false} PreferLegacyInjectiveIff<T(!new)>(keys: set<string>, id: T -> string, legacy: T -> string)
    requires forall c, d :: id(c) == id(d) ==> c == d
    ensures (forall c, d :: PreferLegacy(keys, id(c), legacy(c)) == PreferLegacy(keys, id(d), legacy(d)) ==> c == d)
       <==> (forall c | legacy(c) != id(c) && id(c) !in keys && legacy(c) in keys ::
               && (forall d :: id(d) != legacy(c))
               && (forall d | id(d) !in keys && legacy(d) == legacy(c) :: d == c))
  {
    if forall c, d :: PreferLegacy(keys, id(c), legacy(c)) == PreferLegacy(keys, id(d), legacy(d)) ==> c == d {
      forall c | legacy(c) != id(c) && id(c) !in keys && legacy(c) in keys
        ensures forall d :: id(d) != legacy(c)
        ensures forall d | id(d) !in keys && legacy(d) == legacy(c) :: d == c
      {
        forall d ensures id(d) != legacy(c) {
          assert id(d) == legacy(c) ==> PreferLegacy(keys, id(d), legacy(d)) == PreferLegacy(keys, id(c), legacy(c));
        }
        forall d | id(d) !in keys && legacy(d) == legacy(c) ensures d == c {
          assert PreferLegacy(keys, id(d), legacy(d)) == PreferLegacy(keys, id(c), legacy(c));
        }
      }
    }
  }

  /** Two claims never resolve to one memo row exactly when no row that a claim reads under
      its legacy spelling is also the escaped id of a claim or the legacy row of another
      claim whose escaped id is missing too. */
  lemma {:induction false} ResolveInjectiveIff(run: string, keys: set<string>)
    ensures (forall c, d :: Resolve(run, keys, c) == Resolve(run, keys, d) ==> c == d)
       <==> (forall c | Bridged(run, keys, c) ::
               && (forall d :: Id(run, d) != LegacyId(run, c))
               && (forall d | Id(run, d) !in keys && LegacyId(run, d) == LegacyId(run, c) :: d == c))
  {
    var id, legacy := (c: Claim) => Id(run, c), (c: Claim) => LegacyId(run, c);
    forall c, d | id(c) == id(d) ensures c == d { IdInjective(run, c, d); }
    PreferLegacyInjectiveIff(keys, id, legacy);
    assert forall c :: id(c) == Id(run, c) && legacy(c) == LegacyId(run, c);
    assert forall c :: Resolve(run, keys, c) == PreferLegacy(keys, id(c), legacy(c));
    assert forall c :: Bridged(run, keys, c) == (legacy(c) != id(c) && id(c) !in keys && legacy(c) in keys);
  }

  /** Rows written under the ids that claims resolve to never displace a legacy row: an
      escaped id that is not in the table enters it only through its own claim. */
  lemma {:induction false} ResolveReachesOnlyOwnId(run: string, keys: set<string>, c: Claim, d: Claim)
    requires Id(run, c) !in keys
    requires Resolve(run, keys, d) == Id(run, c)
    ensures d == c
  {
    if Resolve(run, keys, d) == Id(run, d) { IdInjective(run, c, d); }
  }

  // --------------------------------------------------- what the spelling says

  /** Undoing the escapes. */
  function Unescape(s: string): string {
    if s == "" then ""
    else if s[0] == '\\' && |s| >= 2 then [s[1]] + Unescape(s[2..])
    else [s[0]] + Unescape(s[1..])
  }

  lemma {:induction false} UnescapeEscape(s: string)
    ensures Unescape(Escape(s)) == s
  {
    if s != "" {
      UnescapeEscape(s[1..]);
      var rest := Escape(s[1..]);
      if s[0] == '\\' || s[0] == ':' {
        assert Escape(s)[2..] == rest && Escape(s)[1] == s[0];
      } else {
        assert Escape(s)[1..] == rest;
      }
    }
  }

  lemma {:induction false} UnescapePlain(prefix: string, s: string)
    requires forall i | 0 <= i < |prefix| :: prefix[i] != '\\'
    ensures Unescape(prefix + s) == prefix + Unescape(s)
  {
    if prefix == "" {
      assert prefix + s == s;
    } else {
      assert (prefix + s)[1..] == prefix[1..] + s;
      UnescapePlain(prefix[1..], s);
    }
  }

  /** Undoing the escapes of a part gives the name, namespace prefix included. */
  lemma {:induction false} UnescapePart(part: string)
    ensures Unescape(EscapePart(part)) == part
  {
    if COMPENSATE <= part {
      UnescapePlain(COMPENSATE, Escape(part[|COMPENSATE|..]));
      UnescapeEscape(part[|COMPENSATE|..]);
    } else if PUBLISH <= part {
      UnescapePlain(PUBLISH, Escape(part[|PUBLISH|..]));
      UnescapeEscape(part[|PUBLISH|..]);
    } else {
      UnescapeEscape(part);
    }
  }

  /** Nothing to escape. */
  predicate Plain(s: string) {
    forall i | 0 <= i < |s| :: s[i] != '\\' && s[i] != ':'
  }

  lemma {:induction false} EscapeLength(s: string)
    ensures |Escape(s)| >= |s|
    ensures |Escape(s)| == |s| <==> Plain(s)
  {
    if s != "" {
      EscapeLength(s[1..]);
      assert Plain(s) <==> s[0] != '\\' && s[0] != ':' && Plain(s[1..]) by { assert s == [s[0]] + s[1..]; }
    }
  }

  lemma {:induction false} EscapePlain(s: string)
    ensures Escape(s) == s <==> Plain(s)
  {
    EscapeLength(s);
    if s != "" && Plain(s) {
      EscapePlain(s[1..]);
      assert s == [s[0]] + s[1..];
    }
  }

  /** A part is spelled as it is if and only if what follows its namespace prefix has no colon and no
      backslash: such names keep the ids they had before escaping. */
  lemma {:induction false} PartUnchangedIff(part: string)
    ensures EscapePart(part) == part <==>
              Plain(if COMPENSATE <= part then part[|COMPENSATE|..]
                    else if PUBLISH <= part then part[|PUBLISH|..] else part)
  {
    if COMPENSATE <= part {
      SamePrefix(COMPENSATE, Escape(part[|COMPENSATE|..]), part);
      EscapePlain(part[|COMPENSATE|..]);
    } else if PUBLISH <= part {
      SamePrefix(PUBLISH, Escape(part[|PUBLISH|..]), part);
      EscapePlain(part[|PUBLISH|..]);
    } else {
      EscapePlain(part);
    }
  }

  lemma {:induction false} SamePrefix(prefix: string, leaf: string, part: string)
    requires prefix <= part
    ensures prefix + leaf == part <==> leaf == part[|prefix|..]
  {
    assert part == prefix + part[|prefix|..];
    assert (prefix + leaf)[|prefix|..] == leaf;
  }

  /** Reading digits in base 10. */
  function Number(s: string): nat
    requires forall i | 0 <= i < |s| :: '0' <= s[i] <= '9'
  {
    if s == "" then 0 else 10 * Number(s[..|s| - 1]) + (s[|s| - 1] as int - '0' as int)
  }

  /** A decimal number, without leading zeros. */
  predicate IsDecimal(s: string, n: nat) {
    && s != "" && (forall i | 0 <= i < |s| :: '0' <= s[i] <= '9')
    && Number(s) == n && (|s| > 1 ==> s[0] != '0')
  }

  lemma {:induction false} DecimalReads(n: nat)
    ensures IsDecimal(Decimal(n), n)
    ensures n > 0 ==> Decimal(n)[0] != '0'
  {
    if n >= 10 {
      DecimalReads(n / 10);
      var s := Decimal(n);
      assert s[..|s| - 1] == Decimal(n / 10) && s[0] == Decimal(n / 10)[0];
    } else {
      assert Decimal(n)[..0] == "";
    }
  }

  /** Names and numbers after a run id, each behind a colon. */
  function Spelling(run: string, names: seq<string>, numbers: seq<string>): string
    requires |names| == |numbers|
  {
    if names == [] then run
    else
      var n := |names| - 1;
      Spelling(run, names[..n], numbers[..n]) + ":" + names[n] + ":" + numbers[n]
  }

  /** The names read back as the fan-outs of the path, and the numbers as their branches. */
  predicate ReadAs(names: seq<string>, numbers: seq<string>, es: seq<Element>) {
    && |names| == |numbers| == |es|
    && forall i | 0 <= i < |es| :: Unescape(names[i]) == es[i].name && IsDecimal(numbers[i], es[i].index)
  }

  /** These spell the path, behind the run id. */
  predicate Spells(run: string, path: seq<Element>, names: seq<string>, numbers: seq<string>) {
    ReadAs(names, numbers, path) && ScopePrefix(run, path) == Spelling(run, names, numbers)
  }

  lemma {:induction false} PrefixReadsBack(run: string, path: seq<Element>)
    returns (names: seq<string>, numbers: seq<string>)
    ensures Spells(run, path, names, numbers)
    decreases |path|, 0
  {
    if path == [] {
      names, numbers := [], [];
      NothingSpells(run);
    } else {
      names, numbers := ReadsBackStep(run, path[..|path| - 1], path[|path| - 1], path);
    }
  }

  lemma {:induction false} NothingSpells(run: string)
    ensures Spells(run, [], [], [])
  {
  }

  lemma {:induction false} ReadsBackStep(run: string, init: seq<Element>, last: Element, path: seq<Element>)
    returns (names: seq<string>, numbers: seq<string>)
    requires path == init + [last]
    ensures Spells(run, path, names, numbers)
    decreases |init|, 1
  {
    names, numbers := PrefixReadsBack(run, init);
    var prefix := ScopePrefix(run, init);
    PrefixLast(run, init, last);
    names, numbers := ReadsOn(run, init, last, names, numbers, prefix);
    Regroup(prefix, EscapePart(last.name), Decimal(last.index));
  }

  lemma {:induction false} SpellingMore(
    run: string, names: seq<string>, numbers: seq<string>, name: string, number: string)
    requires |names| == |numbers|
    ensures Spelling(run, names + [name], numbers + [number]) ==
              Spelling(run, names, numbers) + ":" + name + ":" + number
  {
    var n := |names|;
    assert (names + [name])[..n] == names && (numbers + [number])[..n] == numbers;
  }

  lemma {:induction false} ReadsOn(
    run: string, init: seq<Element>, last: Element, names: seq<string>, numbers: seq<string>, prefix: string)
    returns (names': seq<string>, numbers': seq<string>)
    requires ReadAs(names, numbers, init) && prefix == Spelling(run, names, numbers)
    ensures ReadAs(names', numbers', init + [last])
    ensures Spelling(run, names', numbers') == prefix + ":" + EscapePart(last.name) + ":" + Decimal(last.index)
  {
    var name, number := EscapePart(last.name), Decimal(last.index);
    UnescapePart(last.name);
    DecimalReads(last.index);
    names', numbers' := names + [name], numbers + [number];
    SpellingMore(run, names, numbers, name, number);
  }

  /** An id spells its run, then every fan-out and branch of its scope, then the step name and its
      counter: undoing the escapes gives the names, and reading the numbers in base 10 the indices. */
  lemma {:induction false} IdReadsBack(run: string, c: Claim) returns (names: seq<string>, numbers: seq<string>)
    ensures ReadAs(names, numbers, c.path + [Element(c.name, c.index)])
    ensures Id(run, c) == Spelling(run, names, numbers)
  {
    names, numbers := PrefixReadsBack(run, c.path);
    names, numbers :=
      ReadsOn(run, c.path, Element(c.name, c.index), names, numbers, ScopePrefix(run, c.path));
  }

  lemma {:induction false} LegacyPrefixReads(run: string, path: seq<Element>)
    returns (names: seq<string>, numbers: seq<string>)
    ensures |names| == |numbers| == |path| && LegacyScopePrefix(run, path) == Spelling(run, names, numbers)
    ensures forall i | 0 <= i < |path| :: names[i] == path[i].name && IsDecimal(numbers[i], path[i].index)
    decreases |path|
  {
    names, numbers := [], [];
    if path != [] {
      var n := |path| - 1;
      names, numbers := LegacyPrefixReads(run, path[..n]);
      DecimalReads(path[n].index);
      var names', numbers' := names + [path[n].name], numbers + [Decimal(path[n].index)];
      assert names'[..n] == names && numbers'[..n] == numbers;
      names, numbers := names', numbers';
    }
  }

  /** The unescaped spelling is the same with the names as they are. */
  lemma {:induction false} LegacyIdReads(run: string, c: Claim) returns (names: seq<string>, numbers: seq<string>)
    ensures |names| == |numbers| == |c.path| + 1 && LegacyId(run, c) == Spelling(run, names, numbers)
    ensures names[|c.path|] == c.name && IsDecimal(numbers[|c.path|], c.index)
    ensures forall i | 0 <= i < |c.path| :: names[i] == c.path[i].name && IsDecimal(numbers[i], c.path[i].index)
  {
    names, numbers := LegacyPrefixReads(run, c.path);
    DecimalReads(c.index);
    var names', numbers' := names + [c.name], numbers + [Decimal(c.index)];
    assert names'[..|c.path|] == names && numbers'[..|c.path|] == numbers;
    names, numbers := names', numbers';
  }

  lemma {:induction false} PlainPrefix(run: string, path: seq<Element>)
    requires forall i | 0 <= i < |path| :: Plain(path[i].name)
    ensures ScopePrefix(run, path) == LegacyScopePrefix(run, path)
    decreases |path|
  {
    if path != [] {
      var last := path[|path| - 1];
      PlainPrefix(run, path[..|path| - 1]);
      PlainPart(last.name);
    }
  }

  lemma {:induction false} PlainPart(part: string)
    requires Plain(part)
    ensures EscapePart(part) == part
  {
    assert !(COMPENSATE <= part) by { assert COMPENSATE[10] == ':'; }
    assert !(PUBLISH <= part) by { assert PUBLISH[7] == ':'; }
    EscapePlain(part);
  }

  /** Names with neither a colon nor a backslash keep their ids: runs in flight are not affected. */
  lemma {:induction false} PlainIdUnchanged(run: string, c: Claim)
    requires Plain(c.name) && forall i | 0 <= i < |c.path| :: Plain(c.path[i].name)
    ensures Id(run, c) == LegacyId(run, c)
  {
    PlainPrefix(run, c.path);
    PlainPart(c.name);
  }

  // ------------------------------------------------------ counters of a scope

  /** A scope's counter table: the root executionContext or a BranchContext. */
  class Scope {
    const run: string
    const path: seq<Element>
    var stepCounters: map<string, nat>
    ghost var issued: set<Claim>

    ghost predicate Valid()
      reads this
    {
      forall c: Claim :: c in issued <==>
        c.path == path && c.name in stepCounters && c.index < stepCounters[c.name]
    }

    constructor (run: string, path: seq<Element>)
      ensures Valid() && this.run == run && this.path == path && issued == {}
    {
      this.run, this.path, stepCounters, issued := run, path, map[], {};
    }

    /** The next claim of a name in this scope. */
    function Next(name: string): Claim
      reads this
    {
      Claim(path, name, if name in stepCounters then stepCounters[name] else 0)
    }

    /** generateStepID: a claim this scope never issued before, resolved against the memo table. */
    method GenerateStepId(keys: set<string>, name: string) returns (id: string)
      requires Valid()
      modifies this
      ensures Valid()
      ensures id == Resolve(run, keys, old(Next(name)))
      ensures old(Next(name)) !in old(issued) && issued == old(issued) + {old(Next(name))}
    {
      var index := if name in stepCounters then stepCounters[name] else 0;
      stepCounters := stepCounters[name := index + 1];
      issued := issued + {Claim(path, name, index)};
      id := Resolve(run, keys, Claim(path, name, index));
    }
  }
}
