/** The process-local execution permit: one message authentication code over NUL-separated fields. */
module Permit {
  import opened Text

  /** SHA-256 in hexadecimal, the JSON form of arguments, and HMAC-SHA-256 (RFC 2104, section 2)
      under the process's secret. */
  datatype Crypto<!A> = Crypto(digest: string -> string, serialize: A -> string, mac: string -> string)

  predicate Clean(s: string) {
    '\0' !in s
  }

  /** No two inputs share an output, and a digest is free of separators. */
  ghost predicate Ideal<A(!new)>(c: Crypto<A>) {
    && (forall x, y :: c.digest(x) == c.digest(y) ==> x == y)
    && (forall x, y :: c.serialize(x) == c.serialize(y) ==> x == y)
    && (forall x, y :: c.mac(x) == c.mac(y) ==> x == y)
    && (forall x :: Clean(c.digest(x)))
  }

  datatype ExecutionPermit = ExecutionPermit(
    token: string, tool: string, action: string, argumentsDigest: string, capabilitiesDigest: string)

  const SEPARATOR := "\0"

  function Join(parts: seq<string>): string {
    if parts == [] then "" else if |parts| == 1 then parts[0] else parts[0] + SEPARATOR + Join(parts[1..])
  }

  /** The canonical form of a set of capabilities. */
  ghost function Joined(capabilities: set<string>): string {
    Join(Sorted(capabilities))
  }

  function Message(tool: string, action: string, argumentsDigest: string, capabilitiesDigest: string): string {
    tool + SEPARATOR + action + SEPARATOR + argumentsDigest + SEPARATOR + capabilitiesDigest
  }

  ghost function Minted<A>(c: Crypto<A>, tool: string, action: string, arguments: A, capabilities: set<string>): ExecutionPermit {
    var argumentsDigest := c.digest(c.serialize(arguments));
    var capabilitiesDigest := c.digest(Joined(capabilities));
    ExecutionPermit(c.mac(Message(tool, action, argumentsDigest, capabilitiesDigest)),
      tool, action, argumentsDigest, capabilitiesDigest)
  }

  method Mint<A>(c: Crypto<A>, tool: string, action: string, arguments: A, capabilities: set<string>)
    returns (permit: ExecutionPermit)
    ensures permit == Minted(c, tool, action, arguments, capabilities)
  {
    var argumentsDigest := c.digest(c.serialize(arguments));
    var sorted := Sort(capabilities);
    var capabilitiesDigest := c.digest(Join(sorted));
    var token := c.mac(Message(tool, action, argumentsDigest, capabilitiesDigest));
    permit := ExecutionPermit(token, tool, action, argumentsDigest, capabilitiesDigest);
  }

  ghost predicate Accepts<A>(
      c: Crypto<A>, permit: ExecutionPermit, tool: string, action: string, arguments: A, capabilities: set<string>)
  {
    permit.token == Minted(c, tool, action, arguments, capabilities).token
  }

  method Verify<A>(
      c: Crypto<A>, permit: ExecutionPermit, tool: string, action: string, arguments: A, capabilities: set<string>)
    returns (ok: bool)
    ensures ok <==> Accepts(c, permit, tool, action, arguments, capabilities)
  {
    var expected := Mint(c, tool, action, arguments, capabilities);
    ok := permit.token == expected.token;
  }

  // ---- Framing ----

  lemma FirstSeparator(a: string, x: string)
    requires Clean(a)
    ensures
      var s := a + SEPARATOR + x;
      s[|a|] == '\0' && (forall i :: 0 <= i < |a| ==> s[i] != '\0') && a == s[..|a|] && x == s[|a| + 1..]
  {
    var s := a + SEPARATOR + x;
    forall i | 0 <= i < |a| ensures s[i] != '\0' { assert s[i] == a[i]; }
  }

  lemma LastSeparator(x: string, a: string)
    requires Clean(a)
    ensures
      var s := x + SEPARATOR + a;
      s[|x|] == '\0' && (forall i :: |x| < i < |s| ==> s[i] != '\0') && x == s[..|x|] && a == s[|x| + 1..]
  {
    var s := x + SEPARATOR + a;
    forall i | |x| < i < |s| ensures s[i] != '\0' { assert s[i] == a[i - |x| - 1]; }
  }

  /** Up to the first separator: two strings cut there agree in both parts or differ. */
  lemma CutFront(a: string, x: string, b: string, y: string)
    requires Clean(a) && Clean(b) && a + SEPARATOR + x == b + SEPARATOR + y
    ensures a == b && x == y
  {
    FirstSeparator(a, x);
    FirstSeparator(b, y);
    assert |a| == |b|;
  }

  /** And from the last separator on. */
  lemma CutBack(x: string, a: string, y: string, b: string)
    requires Clean(a) && Clean(b) && x + SEPARATOR + a == y + SEPARATOR + b
    ensures a == b && x == y
  {
    LastSeparator(x, a);
    LastSeparator(y, b);
    assert |x| == |y|;
  }

  /** The two digests are framed whatever the tool and the action hold; those two are framed only
      together. */
  lemma MessageIsFramed(t: string, a: string, d: string, e: string, t': string, a': string, d': string, e': string)
    requires Clean(d) && Clean(e) && Clean(d') && Clean(e')
    ensures Message(t, a, d, e) == Message(t', a', d', e') <==>
      t + SEPARATOR + a == t' + SEPARATOR + a' && d == d' && e == e'
  {
    var head, head' := t + SEPARATOR + a, t' + SEPARATOR + a';
    assert Message(t, a, d, e) == (head + SEPARATOR + d) + SEPARATOR + e;
    assert Message(t', a', d', e') == (head' + SEPARATOR + d') + SEPARATOR + e';
    if Message(t, a, d, e) == Message(t', a', d', e') {
      CutBack(head + SEPARATOR + d, e, head' + SEPARATOR + d', e');
      CutBack(head, d, head', d');
    }
  }

  ghost predicate CleanNames(names: seq<string>) {
    forall i :: 0 <= i < |names| ==> names[i] != "" && Clean(names[i])
  }

  lemma {:induction false} JoinIsInjective(xs: seq<string>, ys: seq<string>)
    requires CleanNames(xs) && CleanNames(ys) && Join(xs) == Join(ys)
    ensures xs == ys
  {
    if |xs| > 1 && |ys| > 1 {
      CutFront(xs[0], Join(xs[1..]), ys[0], Join(ys[1..]));
      JoinIsInjective(xs[1..], ys[1..]);
      assert xs == [xs[0]] + xs[1..] && ys == [ys[0]] + ys[1..];
    } else if |xs| > 1 {
      JoinHasSeparator(xs);
    } else if |ys| > 1 {
      JoinHasSeparator(ys);
    }
  }

  lemma JoinHasSeparator(xs: seq<string>)
    requires |xs| > 1
    ensures Join(xs) != "" && !Clean(Join(xs))
  {
    assert Join(xs)[|xs[0]|] == '\0';
  }

  ghost predicate CleanSet(capabilities: set<string>) {
    forall name :: name in capabilities ==> name != "" && Clean(name)
  }

  /** Sorting and joining gives different sets different forms, for names that are not empty and
      hold no separator. */
  lemma JoinedIsInjective(a: set<string>, b: set<string>)
    requires CleanSet(a) && CleanSet(b)
    ensures Joined(a) == Joined(b) <==> a == b
  {
    var xs, ys := Sorted(a), Sorted(b);
    assert Elems(xs) == a && Elems(ys) == b;
    assert forall i :: 0 <= i < |xs| ==> xs[i] in Elems(xs);
    assert forall i :: 0 <= i < |ys| ==> ys[i] in Elems(ys);
    if Joined(a) == Joined(b) { JoinIsInjective(xs, ys); }
  }

  /** For all inputs: a minted permit is accepted exactly when the arguments agree, the joined
      capabilities agree, and tool and action agree once joined. */
  lemma AcceptedExactlyIf<A(!new)>(
      c: Crypto<A>, tool: string, action: string, arguments: A, capabilities: set<string>,
      tool': string, action': string, arguments': A, capabilities': set<string>)
    requires Ideal(c)
    ensures Accepts(c, Minted(c, tool, action, arguments, capabilities), tool', action', arguments', capabilities') <==>
      && tool + SEPARATOR + action == tool' + SEPARATOR + action'
      && arguments == arguments' && Joined(capabilities) == Joined(capabilities')
  {
    MessageIsFramed(
      tool, action, c.digest(c.serialize(arguments)), c.digest(Joined(capabilities)),
      tool', action', c.digest(c.serialize(arguments')), c.digest(Joined(capabilities')));
  }

  /** So for tools without separators and clean capability names it is accepted for the minted call
      alone. */
  lemma AcceptedForTheMintedCallAlone<A(!new)>(
      c: Crypto<A>, tool: string, action: string, arguments: A, capabilities: set<string>,
      tool': string, action': string, arguments': A, capabilities': set<string>)
    requires Ideal(c) && Clean(tool) && Clean(tool') && CleanSet(capabilities) && CleanSet(capabilities')
    ensures Accepts(c, Minted(c, tool, action, arguments, capabilities), tool', action', arguments', capabilities') <==>
      tool == tool' && action == action' && arguments == arguments' && capabilities == capabilities'
  {
    AcceptedExactlyIf(c, tool, action, arguments, capabilities, tool', action', arguments', capabilities');
    JoinedIsInjective(capabilities, capabilities');
    if tool + SEPARATOR + action == tool' + SEPARATOR + action' { CutFront(tool, action, tool', action'); }
  }

  lemma SortedSingle(name: string)
    ensures Sorted({name}) == [name]
  {
    var xs := Sorted({name});
    assert Elems([name]) == {name} && Ascending([name]);
    AscendingIsUnique(xs, [name]);
  }

  /** Outside those inputs it is not: the empty capability name is no capability at all, and a
      separator may move between tool and action. */
  lemma TwoCollisions<A(!new)>(c: Crypto<A>, arguments: A)
    ensures Accepts(c, Minted(c, "t", "a", arguments, {""}), "t", "a", arguments, {})
    ensures Accepts(c, Minted(c, "t\0a", "b", arguments, {}), "t", "a\0b", arguments, {})
  {
    SortedSingle("");
    SortedEmpty();
    assert "t\0a" + SEPARATOR + "b" == "t" + SEPARATOR + "a\0b";
  }

  // ---- The assumptions on the hashes can be met ----

  function Escaped(s: string): string {
    if s == [] then [] else (if s[0] == '\0' then ['0', 'z'] else ['1', s[0]]) + Escaped(s[1..])
  }

  lemma {:induction false} EscapedIsClean(s: string)
    ensures Clean(Escaped(s))
  {
    if s != [] { EscapedIsClean(s[1..]); }
  }

  lemma {:induction false} EscapedIsInjective(a: string, b: string)
    requires Escaped(a) == Escaped(b)
    ensures a == b
  {
    if a != [] && b != [] {
      assert Escaped(a)[..2] == Escaped(b)[..2] && Escaped(a)[0] == Escaped(b)[0] && Escaped(a)[1] == Escaped(b)[1];
      assert Escaped(a[1..]) == Escaped(a)[2..] && Escaped(b[1..]) == Escaped(b)[2..];
      EscapedIsInjective(a[1..], b[1..]);
      assert a == [a[0]] + a[1..] && b == [b[0]] + b[1..];
    }
  }

  lemma IdealCryptoExists()
    ensures Ideal(Crypto((x: string) => Escaped(x), (x: string) => x, (x: string) => x))
  {
    forall x: string ensures Clean(Escaped(x)) { EscapedIsClean(x); }
    forall x: string, y: string | Escaped(x) == Escaped(y) ensures x == y { EscapedIsInjective(x, y); }
  }
}
