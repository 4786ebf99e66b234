/** The four families of bytes that identities sign: registration, souk-connect,
    provider-connect and kyok-call (providers/pod-probe-agent/wire.go). */
module Payloads {
  import opened Text

  /** What a signature states, before it is printed. */
  datatype Statement =
    | Registration(names: seq<string>, timestamp: int)
    | SoukConnect(soukNonce: string, providerNonce: string)
    | ProviderConnect(soukPublicKey: string, soukNonce: string, providerNonce: string, names: seq<string>)
    | KyokCall(bearer: string, timestamp: int, bodyHash: string)

  const REGISTER_TAG := "souk-register:"
  const SOUK_TAG := "souk-connect-souk:"
  const PROVIDER_TAG := "souk-connect-provider:"
  const KYOK_TAG := "souk-kyok-call:"

  function Self(s: string): string
  {
    s
  }

  function Sorted(names: seq<string>): (r: seq<string>)
    ensures multiset(r) == multiset(names) && |r| == |names|
  {
    Sort(names, Self)
  }

  /** A fresh slice, sorted; the caller's list is not touched. */
  method SortedCopy(names: seq<string>) returns (out: seq<string>)
    ensures out == Sorted(names)
    ensures SortedBy(out, Self) && multiset(out) == multiset(names)
  {
    var copy := [] + names;
    out := Sort(copy, Self);
    assert copy == names;
    SortSorts(names, Self);
  }

  lemma SortedIgnoresOrder(a: seq<string>, b: seq<string>)
    requires multiset(a) == multiset(b)
    ensures Sorted(a) == Sorted(b)
  {
    SortIgnoresOrder(a, b, Self);
  }

  /** The names as they stand in a payload. */
  function JoinedNames(names: seq<string>): string
  {
    Join(Sorted(names), ',')
  }

  function Print(s: Statement): string
  {
    match s
    case Registration(names, timestamp) =>
      REGISTER_TAG + (JoinedNames(names) + ":" + Decimal(timestamp))
    case SoukConnect(soukNonce, providerNonce) =>
      SOUK_TAG + (soukNonce + ":" + providerNonce)
    case ProviderConnect(soukPublicKey, soukNonce, providerNonce, names) =>
      PROVIDER_TAG + (soukPublicKey + ":" + (soukNonce + ":" + (providerNonce + ":" + JoinedNames(names))))
    case KyokCall(bearer, timestamp, bodyHash) =>
      KYOK_TAG + ((bearer + ":" + Decimal(timestamp)) + ":" + bodyHash)
  }

  // ---- Reading a payload back

  datatype Parsed = Garbled | Read(statement: Statement)

  function ParseRegistration(body: string): Parsed
  {
    match CutLast(body, ':')
    case NoCut => Garbled
    case CutAt(names, when) =>
      match ParseDecimal(when)
      case NaN => Garbled
      case Num(t) => Read(Registration(Split(names, ','), t))
  }

  function ParseSoukConnect(body: string): Parsed
  {
    match CutFirst(body, ':')
    case NoCut => Garbled
    case CutAt(soukNonce, providerNonce) => Read(SoukConnect(soukNonce, providerNonce))
  }

  function ParseProviderConnect(body: string): Parsed
  {
    match CutFirst(body, ':')
    case NoCut => Garbled
    case CutAt(key, rest) =>
      match CutFirst(rest, ':')
      case NoCut => Garbled
      case CutAt(soukNonce, rest') =>
        match CutFirst(rest', ':')
        case NoCut => Garbled
        case CutAt(providerNonce, names) =>
          Read(ProviderConnect(key, soukNonce, providerNonce, Split(names, ',')))
  }

  function ParseKyokCall(body: string): Parsed
  {
    match CutLast(body, ':')
    case NoCut => Garbled
    case CutAt(rest, bodyHash) =>
      match CutLast(rest, ':')
      case NoCut => Garbled
      case CutAt(bearer, when) =>
        match ParseDecimal(when)
        case NaN => Garbled
        case Num(t) => Read(KyokCall(bearer, t, bodyHash))
  }

  function Parse(bytes: string): Parsed
  {
    if REGISTER_TAG <= bytes then ParseRegistration(bytes[|REGISTER_TAG|..])
    else if SOUK_TAG <= bytes then ParseSoukConnect(bytes[|SOUK_TAG|..])
    else if PROVIDER_TAG <= bytes then ParseProviderConnect(bytes[|PROVIDER_TAG|..])
    else if KYOK_TAG <= bytes then ParseKyokCall(bytes[|KYOK_TAG|..])
    else Garbled
  }

  // ---- Families

  lemma TagsAreExclusive(a: string, b: string, x: string, y: string)
    requires a in {REGISTER_TAG, SOUK_TAG, PROVIDER_TAG, KYOK_TAG}
    requires b in {REGISTER_TAG, SOUK_TAG, PROVIDER_TAG, KYOK_TAG}
    requires a + x == b + y
    ensures a == b && x == y
  {
    assert (a + x)[5] == a[5] && (b + y)[5] == b[5];
    assert (a + x)[6] == a[6] && (b + y)[6] == b[6];
    assert |a| > 13 && |b| > 13;
    assert (a + x)[13] == a[13] && (b + y)[13] == b[13];
    assert a == b;
    assert (a + x)[|a|..] == x && (b + y)[|b|..] == y;
  }

  function Tag(s: Statement): string
  {
    match s
    case Registration(_, _) => REGISTER_TAG
    case SoukConnect(_, _) => SOUK_TAG
    case ProviderConnect(_, _, _, _) => PROVIDER_TAG
    case KyokCall(_, _, _) => KYOK_TAG
  }

  function Body(s: Statement): string
  {
    Print(s)[|Tag(s)|..]
  }

  /** No two families ever produce the same bytes, whatever their fields hold. */
  lemma FamiliesAreDisjoint(s: Statement, t: Statement)
    requires Print(s) == Print(t)
    ensures Tag(s) == Tag(t) && Body(s) == Body(t)
    ensures s.Registration? <==> t.Registration?
    ensures s.SoukConnect? <==> t.SoukConnect?
    ensures s.ProviderConnect? <==> t.ProviderConnect?
    ensures s.KyokCall? <==> t.KyokCall?
  {
    assert Print(s) == Tag(s) + Body(s) && Print(t) == Tag(t) + Body(t);
    TagsAreExclusive(Tag(s), Tag(t), Body(s), Body(t));
    TagsDiffer();
  }

  lemma TagsDiffer()
    ensures REGISTER_TAG != SOUK_TAG && REGISTER_TAG != PROVIDER_TAG && REGISTER_TAG != KYOK_TAG
    ensures SOUK_TAG != PROVIDER_TAG && SOUK_TAG != KYOK_TAG && PROVIDER_TAG != KYOK_TAG
  {
    assert REGISTER_TAG[5] == 'r' && SOUK_TAG[5] == 'c' && PROVIDER_TAG[5] == 'c' && KYOK_TAG[5] == 'k';
    assert SOUK_TAG[13] == 's' && PROVIDER_TAG[13] == 'p';
  }

  // ---- Round trip

  predicate GoodNames(names: seq<string>)
  {
    names != [] && forall i :: 0 <= i < |names| ==> ',' !in names[i]
  }

  /** Colon-free keys and nonces and a non-empty list of comma-free names. Names and the
      bearer may hold colons. */
  predicate WellFormed(s: Statement)
  {
    match s
    case Registration(names, _) => GoodNames(names)
    case SoukConnect(soukNonce, _) => ':' !in soukNonce
    case ProviderConnect(key, soukNonce, providerNonce, names) =>
      ':' !in key && ':' !in soukNonce && ':' !in providerNonce && GoodNames(names)
    case KyokCall(_, _, bodyHash) => ':' !in bodyHash
  }

  /** The same statement with its names in sorted order. */
  function Canonical(s: Statement): Statement
  {
    match s
    case Registration(names, t) => Registration(Sorted(names), t)
    case ProviderConnect(k, a, b, names) => ProviderConnect(k, a, b, Sorted(names))
    case SoukConnect(_, _) => s
    case KyokCall(_, _, _) => s
  }

  lemma SplitRecoversNames(names: seq<string>)
    requires GoodNames(names)
    ensures Split(JoinedNames(names), ',') == Sorted(names)
  {
    var sorted := Sorted(names);
    forall i | 0 <= i < |sorted| ensures ',' !in sorted[i] {
      assert sorted[i] in multiset(sorted);
      assert sorted[i] in names;
    }
    SplitUndoesJoin(sorted, ',');
  }

  lemma OneNameIsItself(name: string)
    ensures JoinedNames([name]) == name
  {
    assert Sorted([name]) == [name] by {
      assert multiset(Sorted([name])) == multiset([name]);
      assert Sorted([name])[0] in multiset([name]);
    }
  }

  /** Two lists that are printed alike, one of them comma-free: they hold the same names
      exactly when both are. */
  lemma NamesReadAlike(a: seq<string>, b: seq<string>)
    requires JoinedNames(a) == JoinedNames(b)
    ensures GoodNames(a) || GoodNames(b) ==> (multiset(a) == multiset(b) <==> GoodNames(a) && GoodNames(b))
  {
    if GoodNames(a) && GoodNames(b) {
      SplitRecoversNames(a);
      SplitRecoversNames(b);
      assert multiset(Sorted(a)) == multiset(Sorted(b));
    }
    if multiset(a) == multiset(b) {
      if GoodNames(a) { SameNamesAreAsGood(a, b); }
      if GoodNames(b) { SameNamesAreAsGood(b, a); }
    }
  }

  lemma SameNamesAreAsGood(a: seq<string>, b: seq<string>)
    requires multiset(a) == multiset(b) && GoodNames(a)
    ensures GoodNames(b)
  {
    forall i | 0 <= i < |b| ensures ',' !in b[i] {
      assert b[i] in multiset(b);
      assert b[i] in a;
    }
    assert a[0] in multiset(a);
  }

  lemma ParseDispatches(s: Statement)
    ensures Parse(Print(s)) ==
      match s
      case Registration(_, _) => ParseRegistration(Body(s))
      case SoukConnect(_, _) => ParseSoukConnect(Body(s))
      case ProviderConnect(_, _, _, _) => ParseProviderConnect(Body(s))
      case KyokCall(_, _, _) => ParseKyokCall(Body(s))
  {
    assert Print(s) == Tag(s) + Body(s);
    OnlyItsOwnTag(REGISTER_TAG, Tag(s), Body(s));
    OnlyItsOwnTag(SOUK_TAG, Tag(s), Body(s));
    OnlyItsOwnTag(PROVIDER_TAG, Tag(s), Body(s));
    OnlyItsOwnTag(KYOK_TAG, Tag(s), Body(s));
    TagsDiffer();
  }

  lemma OnlyItsOwnTag(tag: string, own: string, body: string)
    requires tag in {REGISTER_TAG, SOUK_TAG, PROVIDER_TAG, KYOK_TAG}
    requires own in {REGISTER_TAG, SOUK_TAG, PROVIDER_TAG, KYOK_TAG}
    ensures tag <= own + body <==> tag == own
  {
    if tag <= own + body {
      var rest := (own + body)[|tag|..];
      assert tag + rest == own + body;
      TagsAreExclusive(tag, own, rest, body);
    }
  }

  /** Every family can be read back: its fields, names in sorted order. */
  lemma ParseUndoesPrint(s: Statement)
    requires WellFormed(s)
    ensures Parse(Print(s)) == Read(Canonical(s))
  {
    ParseDispatches(s);
    match s
    case Registration(names, t) =>
      assert Body(s) == JoinedNames(names) + [':'] + Decimal(t);
      CutLastOf(JoinedNames(names), ':', Decimal(t));
      ParseUndoesDecimal(t);
      SplitRecoversNames(names);
    case SoukConnect(a, b) =>
      assert Body(s) == a + [':'] + b;
      CutFirstOf(a, ':', b);
    case ProviderConnect(k, a, b, names) =>
      var tail := JoinedNames(names);
      assert Body(s) == k + [':'] + (a + [':'] + (b + [':'] + tail));
      CutFirstOf(k, ':', a + [':'] + (b + [':'] + tail));
      CutFirstOf(a, ':', b + [':'] + tail);
      CutFirstOf(b, ':', tail);
      SplitRecoversNames(names);
    case KyokCall(bearer, t, h) =>
      assert Body(s) == (bearer + [':'] + Decimal(t)) + [':'] + h;
      CutLastOf(bearer + [':'] + Decimal(t), ':', h);
      CutLastOf(bearer, ':', Decimal(t));
      ParseUndoesDecimal(t);
  }

  ghost predicate SameUpToOrder(s: Statement, t: Statement)
  {
    match (s, t)
    case (Registration(n, a), Registration(m, b)) => a == b && multiset(n) == multiset(m)
    case (ProviderConnect(k, a, b, n), ProviderConnect(k', a', b', m)) =>
      k == k' && a == a' && b == b' && multiset(n) == multiset(m)
    case (_, _) => s == t
  }

  /** The bytes determine the statement up to the order of its names, and nothing else:
      equal bytes exactly when the statements agree. */
  lemma PrintIsInjectiveUpToOrder(s: Statement, t: Statement)
    requires WellFormed(s) && WellFormed(t)
    ensures Print(s) == Print(t) <==> SameUpToOrder(s, t)
  {
    if Print(s) == Print(t) {
      FamiliesAreDisjoint(s, t);
      ParseUndoesPrint(s);
      ParseUndoesPrint(t);
      assert Canonical(s) == Canonical(t);
    }
    if SameUpToOrder(s, t) {
      OrderDoesNotMatter(s, t);
    }
  }

  /** The order a caller lists its names in cannot change the bytes. */
  lemma OrderDoesNotMatter(s: Statement, t: Statement)
    requires SameUpToOrder(s, t)
    ensures Print(s) == Print(t)
  {
    match (s, t)
    case (Registration(n, _), Registration(m, _)) => SortedIgnoresOrder(n, m);
    case (ProviderConnect(_, _, _, n), ProviderConnect(_, _, _, m)) => SortedIgnoresOrder(n, m);
    case (_, _) =>
  }

  // ---- Identity files

  predicate IsSpace(c: char)
  {
    c == '\n' || c == '\r' || c == ' ' || c == '\t'
  }

  predicate AllSpace(s: string)
  {
    forall i :: 0 <= i < |s| ==> IsSpace(s[i])
  }

  /** What is cut off is space, and nothing more could be cut off. */
  method TrimSpace(s: string) returns (t: string, ghost lead: nat, ghost trail: nat)
    ensures lead + |t| + trail == |s| && t == s[lead..lead + |t|]
    ensures AllSpace(s[..lead]) && AllSpace(s[lead + |t|..])
    ensures t != [] ==> !IsSpace(t[0]) && !IsSpace(t[|t| - 1])
  {
    t := s;
    lead, trail := 0, 0;
    while |t| > 0 && IsSpace(t[|t| - 1])
      invariant |t| + trail == |s| && t == s[..|t|] && AllSpace(s[|t|..])
    {
      assert s[|t| - 1..] == [t[|t| - 1]] + s[|t|..];
      t := t[..|t| - 1];
      trail := trail + 1;
    }
    while |t| > 0 && IsSpace(t[0])
      invariant lead + |t| + trail == |s| && t == s[lead..lead + |t|]
      invariant AllSpace(s[..lead]) && AllSpace(s[lead + |t|..])
      invariant t != [] ==> !IsSpace(t[|t| - 1])
    {
      assert s[..lead + 1] == s[..lead] + [t[0]];
      t := t[1..];
      lead := lead + 1;
    }
  }

  lemma Leftwards(a: string, b: string, c: string)
    ensures a + (b + c) == a + b + c
  {}

  lemma PrintedConnect(key: string, s: string, p: string, a: string, b: string)
    requires LexLeq(a, b) && a != b
    ensures Print(ProviderConnect(key, s, p, [b, a]))
         == "souk-connect-provider:" + key + ":" + s + ":" + p + ":" + (a + [','] + b)
  {
    SortedPair(a, b);
    var names := a + [','] + b;
    Leftwards(p, ":", names);
    Leftwards(s, ":", p + ":" + names);
    Leftwards(s + ":" + p, ":", names);
    Leftwards(s + ":", p + ":", names);
    ConnectLeftwards(PROVIDER_TAG, key, s, p, names);
  }

  lemma ConnectLeftwards(tag: string, key: string, s: string, p: string, names: string)
    ensures tag + (key + ":" + (s + ":" + (p + ":" + names))) == tag + key + ":" + s + ":" + p + ":" + names
  {
    var tail := p + ":" + names;
    assert tag + key + ":" + s + ":" + p + ":" + names == tag + key + ":" + s + ":" + tail;
    assert tag + key + ":" + s + ":" + tail == tag + key + ":" + (s + ":" + tail);
    assert tag + key + ":" + (s + ":" + tail) == tag + (key + ":" + (s + ":" + tail));
  }

  lemma PrintedSouk(tag: string, s: string, p: string)
    ensures tag + (s + ":" + p) == tag + s + ":" + p
  {
    Leftwards(tag, s, ":" + p);
    Leftwards(s, ":", p);
  }

  /** The four families as they stand on the wire, names in dictionary order. */
  lemma PrintedForms(key: string, s: string, p: string, a: string, b: string, t: int)
    requires LexLeq(a, b) && a != b
    ensures Print(Registration([b, a], t)) == "souk-register:" + (a + [','] + b + ":" + Decimal(t))
    ensures Print(SoukConnect(s, p)) == "souk-connect-souk:" + s + ":" + p
    ensures Print(ProviderConnect(key, s, p, [b, a]))
         == "souk-connect-provider:" + key + ":" + s + ":" + p + ":" + (a + [','] + b)
    ensures Print(KyokCall(key, t, s)) == "souk-kyok-call:" + (key + ":" + Decimal(t) + ":" + s)
    ensures Decimal(1700) == "1700" && Decimal(-12) == "-12"
  {
    SortedPair(a, b);
    PrintedSouk(SOUK_TAG, s, p);
    PrintedConnect(key, s, p, a, b);
    DecimalsOfKnown();
  }

  lemma DecimalsOfKnown()
    ensures Decimal(1700) == "1700" && Decimal(-12) == "-12"
  {
    assert DecimalNat(1) == "1" && DecimalNat(17) == "17" && DecimalNat(170) == "170" && DecimalNat(1700) == "1700";
    assert DecimalNat(12) == "12";
  }

  lemma SortedPair(a: string, b: string)
    requires LexLeq(a, b) && a != b
    ensures JoinedNames([b, a]) == a + [','] + b
  {
    if LexLeq(b, a) { LexAntisymmetric(a, b); }
    assert [b, a][1..] == [a] && [a][1..] == [];
    assert Sorted([a]) == [a];
    assert [a][1..] == [] && Insert(b, [], Self) == [b];
    assert Sorted([b, a]) == Insert(b, [a], Self) == [a, b];
    assert Join([b], ',') == b;
  }
}
