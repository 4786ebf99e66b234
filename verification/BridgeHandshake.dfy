/** The same four frames as the caller's bridge runs them: it signs whatever challenge it
    is shown (souk-client-sdk/souk_client_sdk/kyok_bridge.py). What its proof still ties
    down, and what it does not. */
module BridgeHandshake {
  import opened Wrappers
  import opened Payloads
  import Text
  import H = Handshake

  datatype Bridge = Bridge(key: string, offering: string)

  datatype Config = Config(souks: map<nat, H.Souk>, bridges: map<nat, Bridge>)

  predicate ValidConfig(cfg: Config)
  {
    forall s :: s in cfg.souks && cfg.souks[s].identity.Some? ==> H.IsKey(cfg.souks[s].identity.value)
  }

  predicate Honest(cfg: Config, key: string)
  {
    exists b :: b in cfg.bridges && cfg.bridges[b].key == key
  }

  datatype BridgePhase = HelloSent | Proved(presented: string, soukNonce: string)

  datatype BridgeSession = BridgeSession(bridge: nat, nonce: string, phase: BridgePhase)

  /** One signature by a bridge's key; `session` is `None` for its HTTP calls. */
  datatype Signing = Signing(key: string, statement: Statement, session: Option<nat>)

  datatype World = World(
    soukSessions: map<nat, H.SoukSession>, bridgeSessions: map<nat, BridgeSession>, log: seq<Signing>)

  const START := World(map[], map[], [])

  datatype Label =
    | HelloArrives(session: nat, souk: nat, hello: H.Hello, nonce: string)
    | ProofArrives(session: nat, proof: H.Signature, registered: bool)
    | BridgeConnects(session: nat, bridge: nat, nonce: string)
    | ChallengeArrives(session: nat, presented: string, nonce: string)
    | BridgeCallsHttp(bridge: nat, statement: Statement)

  ghost predicate Logged(w: World, key: string, bytes: string)
  {
    exists i :: 0 <= i < |w.log| && w.log[i].key == key && Print(w.log[i].statement) == bytes
  }

  predicate FreshNonce(w: World, nonce: string)
  {
    && nonce != "" && ':' !in nonce
    && (forall s :: s in w.soukSessions ==> w.soukSessions[s].nonce != nonce)
    && (forall b :: b in w.bridgeSessions ==> w.bridgeSessions[b].nonce != nonce)
  }

  function IdentityField(cfg: Config, souk: nat): string
    requires souk in cfg.souks
  {
    H.RecipientField(cfg.souks[souk].identity)
  }

  function ProofFor(cfg: Config, s: H.SoukSession): Statement
    requires s.souk in cfg.souks
  {
    ProviderConnect(IdentityField(cfg, s.souk), s.nonce, s.hello.nonce, s.hello.names)
  }

  /** The bridge signs at once, whoever the challenge is from. */
  function AnswerChallenge(cfg: Config, w: World, session: nat, presented: string, nonce: string): World
    requires session in w.bridgeSessions && w.bridgeSessions[session].bridge in cfg.bridges
  {
    var q := w.bridgeSessions[session];
    var b := cfg.bridges[q.bridge];
    w.(bridgeSessions := w.bridgeSessions[session := q.(phase := Proved(presented, nonce))],
       log := w.log + [Signing(b.key, ProviderConnect(presented, nonce, q.nonce, [b.offering]), Some(session))])
  }

  ghost function Step(cfg: Config, w: World, l: Label): World
  {
    match l
    case HelloArrives(session, souk, hello, nonce) =>
      if session !in w.soukSessions && souk in cfg.souks && H.GoodHello(hello) && FreshNonce(w, nonce)
      then w.(soukSessions := w.soukSessions[session := H.SoukSession(souk, hello, nonce, H.Challenged)]) else w
    case ProofArrives(session, proof, registered) =>
      if && session in w.soukSessions && w.soukSessions[session].phase.Challenged?
         && w.soukSessions[session].souk in cfg.souks
         && (Honest(cfg, proof.key) ==> Logged(w, proof.key, proof.payload))
      then
        var s := w.soukSessions[session];
        var ok := registered && H.Verifies(s.hello.publicKey, proof, Print(ProofFor(cfg, s)));
        w.(soukSessions := w.soukSessions[session := s.(phase := if ok then H.Attached else H.Refused)])
      else w
    case BridgeConnects(session, bridge, nonce) =>
      if session !in w.bridgeSessions && bridge in cfg.bridges && FreshNonce(w, nonce)
      then w.(bridgeSessions := w.bridgeSessions[session := BridgeSession(bridge, nonce, HelloSent)]) else w
    case ChallengeArrives(session, presented, nonce) =>
      if && session in w.bridgeSessions && w.bridgeSessions[session].phase.HelloSent?
         && w.bridgeSessions[session].bridge in cfg.bridges
      then AnswerChallenge(cfg, w, session, presented, nonce) else w
    case BridgeCallsHttp(bridge, statement) =>
      if bridge in cfg.bridges && (statement.Registration? || statement.KyokCall?)
      then w.(log := w.log + [Signing(cfg.bridges[bridge].key, statement, None)]) else w
  }

  ghost function Run(cfg: Config, labels: seq<Label>): World
  {
    if labels == [] then START
    else Step(cfg, Run(cfg, labels[..|labels| - 1]), labels[|labels| - 1])
  }

  // ---- What every run keeps

  ghost predicate Justified(cfg: Config, w: World, e: Signing)
  {
    match e.session
    case None => e.statement.Registration? || e.statement.KyokCall?
    case Some(m) =>
      && m in w.bridgeSessions && w.bridgeSessions[m].phase.Proved? && w.bridgeSessions[m].bridge in cfg.bridges
      && var q := w.bridgeSessions[m];
         e.key == cfg.bridges[q.bridge].key
         && e.statement ==
              ProviderConnect(q.phase.presented, q.phase.soukNonce, q.nonce, [cfg.bridges[q.bridge].offering])
  }

  ghost predicate IsProven(cfg: Config, w: World, s: H.SoukSession)
  {
    && s.souk in cfg.souks
    && (s.phase.Attached? && Honest(cfg, H.Decoded(s.hello.publicKey)) ==>
          Logged(w, H.Decoded(s.hello.publicKey), Print(ProofFor(cfg, s))))
  }

  ghost predicate NoncesGood(w: World)
  {
    && (forall s :: s in w.soukSessions ==> ':' !in w.soukSessions[s].nonce)
    && (forall b :: b in w.bridgeSessions ==> ':' !in w.bridgeSessions[b].nonce)
    && (forall s, t :: s in w.soukSessions && t in w.soukSessions && s != t
          ==> w.soukSessions[s].nonce != w.soukSessions[t].nonce)
  }

  ghost predicate Inv(cfg: Config, w: World)
  {
    && (forall e :: e in w.log ==> Justified(cfg, w, e))
    && (forall n :: n in w.soukSessions ==> IsProven(cfg, w, w.soukSessions[n]))
    && NoncesGood(w)
  }

  lemma LoggedGrows(w: World, w': World, key: string, bytes: string)
    requires w.log <= w'.log && Logged(w, key, bytes)
    ensures Logged(w', key, bytes)
  {
    var i :| 0 <= i < |w.log| && w.log[i].key == key && Print(w.log[i].statement) == bytes;
    assert w'.log[i] == w.log[i];
  }

  lemma ProofKeepsInv(cfg: Config, w: World, l: Label)
    requires Inv(cfg, w) && l.ProofArrives?
    ensures Inv(cfg, Step(cfg, w, l))
  {
    var w' := Step(cfg, w, l);
    forall n | n in w'.soukSessions ensures IsProven(cfg, w', w'.soukSessions[n]) {
      assert IsProven(cfg, w, w.soukSessions[n]);
    }
  }

  lemma SigningKeepsInv(cfg: Config, w: World, w': World)
    requires Inv(cfg, w) && NoncesGood(w') && w.log <= w'.log
    requires forall e :: e in w'.log ==> Justified(cfg, w', e)
    requires forall n :: n in w'.soukSessions ==>
               (n in w.soukSessions && w'.soukSessions[n] == w.soukSessions[n])
               || (w'.soukSessions[n].phase.Challenged? && w'.soukSessions[n].souk in cfg.souks)
    ensures Inv(cfg, w')
  {
    forall n | n in w'.soukSessions ensures IsProven(cfg, w', w'.soukSessions[n]) {
      var s := w'.soukSessions[n];
      if !s.phase.Challenged? {
        assert IsProven(cfg, w, s);
        if s.phase.Attached? && Honest(cfg, H.Decoded(s.hello.publicKey)) {
          LoggedGrows(w, w', H.Decoded(s.hello.publicKey), Print(ProofFor(cfg, s)));
        }
      }
    }
  }

  lemma OpeningKeepsInv(cfg: Config, w: World, l: Label)
    requires Inv(cfg, w) && (l.HelloArrives? || l.BridgeConnects?)
    ensures Inv(cfg, Step(cfg, w, l))
  {
    SigningKeepsInv(cfg, w, Step(cfg, w, l));
  }

  lemma StepKeepsInv(cfg: Config, w: World, l: Label)
    requires Inv(cfg, w)
    ensures Inv(cfg, Step(cfg, w, l))
  {
    if l.ProofArrives? {
      ProofKeepsInv(cfg, w, l);
    } else if l.HelloArrives? || l.BridgeConnects? {
      OpeningKeepsInv(cfg, w, l);
    } else {
      SigningKeepsInv(cfg, w, Step(cfg, w, l));
    }
  }

  lemma {:induction false} RunKeepsInv(cfg: Config, labels: seq<Label>)
    ensures Inv(cfg, Run(cfg, labels))
  {
    if labels != [] {
      var n := |labels| - 1;
      RunKeepsInv(cfg, labels[..n]);
      StepKeepsInv(cfg, Run(cfg, labels[..n]), labels[n]);
    }
  }

  lemma RunStep(cfg: Config, labels: seq<Label>, l: Label)
    ensures Run(cfg, labels + [l]) == Step(cfg, Run(cfg, labels), l)
  {
    assert (labels + [l])[..|labels + [l]| - 1] == labels;
  }

  // ---- Who may attach

  /** A proof this souk can be shown answers the challenge of session `n`. */
  ghost predicate IsAnswered(cfg: Config, w: World, l: Label, n: nat)
  {
    && l.ProofArrives? && l.session == n && n in w.soukSessions && w.soukSessions[n].phase.Challenged?
    && w.soukSessions[n].souk in cfg.souks && (Honest(cfg, l.proof.key) ==> Logged(w, l.proof.key, l.proof.payload))
  }

  /** The key has registered the names, and the proof verifies over this very challenge. */
  predicate IsGood(cfg: Config, w: World, l: Label, n: nat)
    requires l.ProofArrives? && n in w.soukSessions && w.soukSessions[n].souk in cfg.souks
  {
    l.registered && H.Verifies(w.soukSessions[n].hello.publicKey, l.proof, Print(ProofFor(cfg, w.soukSessions[n])))
  }

  lemma StepAnswers(cfg: Config, w: World, l: Label, n: nat)
    ensures var w' := Step(cfg, w, l);
            && (n in w.soukSessions ==> n in w'.soukSessions)
            && (n in w.soukSessions ==>
                  w'.soukSessions[n] ==
                    if !IsAnswered(cfg, w, l, n) then w.soukSessions[n]
                    else w.soukSessions[n].(phase := if IsGood(cfg, w, l, n) then H.Attached else H.Refused))
            && (n !in w.soukSessions && n in w'.soukSessions ==>
                  var s := w'.soukSessions[n];
                  s.phase.Challenged? && s.hello.version == 3 && s.hello.nonce != "" && s.hello.names != [])
  {}

  lemma {:induction false} AnswerStands(cfg: Config, labels: seq<Label>, more: seq<Label>, n: nat)
    requires n in Run(cfg, labels).soukSessions && !Run(cfg, labels).soukSessions[n].phase.Challenged?
    ensures n in Run(cfg, labels + more).soukSessions
    ensures Run(cfg, labels + more).soukSessions[n] == Run(cfg, labels).soukSessions[n]
  {
    var all := labels + more;
    if more == [] {
      assert all == labels;
    } else {
      var k := |more| - 1;
      AnswerStands(cfg, labels, more[..k], n);
      assert all[..|all| - 1] == labels + more[..k] && all[|all| - 1] == more[k];
      StepAnswers(cfg, Run(cfg, labels + more[..k]), more[k], n);
    }
  }

  /** The first proof that answers a challenge decides, under every continuation: the
      session is attached exactly when the names are registered to the key and the proof
      verifies over this challenge, and refused otherwise. */
  lemma AnswerIsFinal(cfg: Config, labels: seq<Label>, l: Label, more: seq<Label>, n: nat)
    requires IsAnswered(cfg, Run(cfg, labels), l, n)
    ensures var w := Run(cfg, labels + [l] + more);
            && n in w.soukSessions
            && w.soukSessions[n].phase == if IsGood(cfg, Run(cfg, labels), l, n) then H.Attached else H.Refused
  {
    RunStep(cfg, labels, l);
    StepAnswers(cfg, Run(cfg, labels), l, n);
    AnswerStands(cfg, labels + [l], more, n);
  }

  ghost predicate AnsweredAt(cfg: Config, labels: seq<Label>, i: nat, n: nat)
  {
    i < |labels| && IsAnswered(cfg, Run(cfg, labels[..i]), labels[i], n)
  }

  lemma AnsweredAtGrows(cfg: Config, labels: seq<Label>, i: nat, n: nat)
    requires labels != [] && i < |labels| - 1
    ensures AnsweredAt(cfg, labels[..|labels| - 1], i, n) <==> AnsweredAt(cfg, labels, i, n)
  {
    assert labels[..|labels| - 1][..i] == labels[..i];
  }

  lemma AnsweredIsAnswered(cfg: Config, labels: seq<Label>, i: nat, n: nat)
    requires AnsweredAt(cfg, labels, i, n)
    ensures n in Run(cfg, labels).soukSessions && !Run(cfg, labels).soukSessions[n].phase.Challenged?
  {
    var before, l, more := labels[..i], labels[i], labels[i + 1..];
    assert before + [l] + more == labels;
    AnswerIsFinal(cfg, before, l, more, n);
  }

  lemma AnsweredLast(cfg: Config, labels: seq<Label>, n: nat)
    requires labels != []
    requires var w := Run(cfg, labels[..|labels| - 1]); n in w.soukSessions ==> w.soukSessions[n].phase.Challenged?
    ensures forall j: nat :: AnsweredAt(cfg, labels, j, n) ==> j == |labels| - 1
  {
    forall j: nat | AnsweredAt(cfg, labels, j, n) ensures j == |labels| - 1 {
      if j < |labels| - 1 {
        AnsweredAtGrows(cfg, labels, j, n);
        AnsweredIsAnswered(cfg, labels[..|labels| - 1], j, n);
      }
    }
  }

  lemma AnsweredBefore(cfg: Config, labels: seq<Label>, before: seq<Label>, i: nat, n: nat)
    requires labels != [] && before == labels[..|labels| - 1] && AnsweredAt(cfg, before, i, n)
    requires forall j: nat :: AnsweredAt(cfg, before, j, n) ==> j == i
    ensures AnsweredAt(cfg, labels, i, n) && forall j: nat :: AnsweredAt(cfg, labels, j, n) ==> j == i
  {
    AnsweredAtGrows(cfg, labels, i, n);
    AnsweredIsAnswered(cfg, before, i, n);
    forall j: nat | AnsweredAt(cfg, labels, j, n) ensures j == i {
      if j < |labels| - 1 { AnsweredAtGrows(cfg, labels, j, n); }
    }
  }

  /** Every attached session was earned: one step, and only one, answered its challenge, by
      a proof over that challenge from a key that had registered the names. */
  lemma {:induction false} AttachIsEarned(cfg: Config, labels: seq<Label>, n: nat) returns (i: nat)
    requires n in Run(cfg, labels).soukSessions && Run(cfg, labels).soukSessions[n].phase.Attached?
    ensures AnsweredAt(cfg, labels, i, n) && IsGood(cfg, Run(cfg, labels[..i]), labels[i], n)
    ensures forall j: nat :: AnsweredAt(cfg, labels, j, n) ==> j == i
  {
    i := |labels| - 1;
    var w := Run(cfg, labels[..i]);
    StepAnswers(cfg, w, labels[i], n);
    if w.soukSessions[n].phase.Attached? {
      i := AttachIsEarned(cfg, labels[..i], n);
      assert labels[..|labels| - 1][..i] == labels[..i];
      AnsweredBefore(cfg, labels, labels[..|labels| - 1], i, n);
    } else {
      AnsweredLast(cfg, labels, n);
    }
  }

  /** Only a hello that is in order is ever challenged. */
  lemma {:induction false} EveryHelloIsInOrder(cfg: Config, labels: seq<Label>, n: nat)
    requires n in Run(cfg, labels).soukSessions
    ensures var h := Run(cfg, labels).soukSessions[n].hello;
            h.version == 3 && h.nonce != "" && h.names != []
  {
    if labels != [] {
      var k := |labels| - 1;
      var w := Run(cfg, labels[..k]);
      StepAnswers(cfg, w, labels[k], n);
      if n in w.soukSessions {
        EveryHelloIsInOrder(cfg, labels[..k], n);
      }
    }
  }

  // ---- What a proof ties down

  /** The part of a proof's bytes that follows the tag. */
  function Shown(key: string, soukNonce: string, nonce: string, names: string): string
  {
    key + ":" + (soukNonce + ":" + (nonce + ":" + names))
  }

  /** Bridge session `m` of this very key proved, and what it was shown and claimed reads
      the same, end to end, as what souk session `n` stands for. */
  ghost predicate Agree(cfg: Config, w: World, n: nat, m: nat)
    requires n in w.soukSessions && w.soukSessions[n].souk in cfg.souks
  {
    var s := w.soukSessions[n];
    && m in w.bridgeSessions && w.bridgeSessions[m].phase.Proved? && w.bridgeSessions[m].bridge in cfg.bridges
    && var q := w.bridgeSessions[m];
       var b := cfg.bridges[q.bridge];
       b.key == H.Decoded(s.hello.publicKey)
       && Shown(q.phase.presented, q.phase.soukNonce, q.nonce, b.offering)
          == Shown(IdentityField(cfg, s.souk), s.nonce, s.hello.nonce, JoinedNames(s.hello.names))
  }

  lemma SameBody(a: string, b: string, c: string, names: seq<string>,
                 a': string, b': string, c': string, names': seq<string>)
    requires Print(ProviderConnect(a, b, c, names)) == Print(ProviderConnect(a', b', c', names'))
    ensures Shown(a, b, c, JoinedNames(names)) == Shown(a', b', c', JoinedNames(names'))
  {
    H.SameTail(PROVIDER_TAG, Shown(a, b, c, JoinedNames(names)), Shown(a', b', c', JoinedNames(names')));
  }

  /** A souk that attaches a bridge's key has a proof of that bridge, made for one session
      of its handshake. */
  lemma AttachMeansTheBridgeSigned(cfg: Config, labels: seq<Label>, n: nat) returns (m: nat)
    requires var w := Run(cfg, labels);
             n in w.soukSessions && w.soukSessions[n].phase.Attached? && w.soukSessions[n].souk in cfg.souks
             && Honest(cfg, H.Decoded(w.soukSessions[n].hello.publicKey))
    ensures Agree(cfg, Run(cfg, labels), n, m)
  {
    var w := Run(cfg, labels);
    RunKeepsInv(cfg, labels);
    var s := w.soukSessions[n];
    assert IsProven(cfg, w, s);
    var stated := ProofFor(cfg, s);
    var i :| 0 <= i < |w.log| && w.log[i].key == H.Decoded(s.hello.publicKey)
      && Print(w.log[i].statement) == Print(stated);
    assert w.log[i] in w.log && Justified(cfg, w, w.log[i]);
    FamiliesAreDisjoint(w.log[i].statement, stated);
    m := w.log[i].session.value;
    var q := w.bridgeSessions[m];
    var b := cfg.bridges[q.bridge];
    SameBody(q.phase.presented, q.phase.soukNonce, q.nonce, [b.offering],
             IdentityField(cfg, s.souk), s.nonce, s.hello.nonce, s.hello.names);
    OneNameIsItself(b.offering);
  }

  lemma IdentityHasNoColon(cfg: Config, souk: nat)
    requires ValidConfig(cfg) && souk in cfg.souks
    ensures ':' !in IdentityField(cfg, souk)
  {}

  lemma SplitFromTheFront(a: string, b: string, rest: string, a': string, b': string, rest': string)
    requires a + ":" + (b + ":" + rest) == a' + ":" + (b' + ":" + rest')
    requires ':' !in a && ':' !in a' && ':' !in b && ':' !in b'
    ensures a == a' && b == b' && rest == rest'
  {
    Text.CutFirstOf(a, ':', b + ":" + rest);
    Text.CutFirstOf(a', ':', b' + ":" + rest');
    Text.CutFirstOf(b, ':', rest);
    Text.CutFirstOf(b', ':', rest');
  }

  /** The two ends agree on the souk's key and nonce exactly when what the bridge was shown
      as those holds no colon; on the bridge's nonce as well exactly when the hello's holds
      none either, and then the names, joined, are the offering: they are the offering
      exactly when the hello names one. Names may hold colons throughout. */
  lemma AgreementIsExact(cfg: Config, labels: seq<Label>, n: nat, m: nat)
    requires ValidConfig(cfg)
    requires var w := Run(cfg, labels);
             n in w.soukSessions && w.soukSessions[n].souk in cfg.souks && Agree(cfg, w, n, m)
    ensures var w := Run(cfg, labels);
            var s, q := w.soukSessions[n], w.bridgeSessions[m];
            var offering := cfg.bridges[q.bridge].offering;
            var sameSouk := q.phase.presented == IdentityField(cfg, s.souk) && q.phase.soukNonce == s.nonce;
            && (sameSouk <==> ':' !in q.phase.presented && ':' !in q.phase.soukNonce)
            && (sameSouk && s.hello.nonce == q.nonce <==>
                  ':' !in q.phase.presented && ':' !in q.phase.soukNonce && ':' !in s.hello.nonce)
            && (sameSouk && s.hello.nonce == q.nonce ==>
                  JoinedNames(s.hello.names) == offering && (s.hello.names == [offering] <==> |s.hello.names| == 1))
  {
    var w := Run(cfg, labels);
    RunKeepsInv(cfg, labels);
    var s, q := w.soukSessions[n], w.bridgeSessions[m];
    var key, offering := IdentityField(cfg, s.souk), cfg.bridges[q.bridge].offering;
    var shown, seen := q.phase.presented, q.phase.soukNonce;
    var told, own := s.hello.nonce + ":" + JoinedNames(s.hello.names), q.nonce + ":" + offering;
    IdentityHasNoColon(cfg, s.souk);
    if ':' !in shown && ':' !in seen {
      SplitFromTheFront(shown, seen, own, key, s.nonce, told);
      if ':' !in s.hello.nonce {
        Text.CutFirstOf(q.nonce, ':', offering);
        Text.CutFirstOf(s.hello.nonce, ':', JoinedNames(s.hello.names));
      }
    }
    SameRest(shown, seen, q.nonce, offering, key, s.nonce, s.hello.nonce, JoinedNames(s.hello.names));
    if |s.hello.names| == 1 {
      assert s.hello.names == [s.hello.names[0]];
      OneNameIsItself(s.hello.names[0]);
    }
  }

  lemma SameRest(a: string, b: string, c: string, names: string, a': string, b': string, c': string, names': string)
    requires Shown(a, b, c, names) == Shown(a', b', c', names')
    ensures a == a' && b == b' && c == c' ==> names == names'
  {
    if a == a' && b == b' && c == c' {
      H.SameTail(a + ":", b + ":" + (c + ":" + names), b + ":" + (c + ":" + names'));
      H.SameTail(b + ":", c + ":" + names, c + ":" + names');
      H.SameTail(c + ":", names, names');
    }
  }

  /** Still, one run of the bridge's handshake attaches at most one session anywhere. */
  lemma OneProofOneSession(cfg: Config, labels: seq<Label>, n: nat, n': nat, m: nat)
    requires ValidConfig(cfg)
    requires var w := Run(cfg, labels);
             && n in w.soukSessions && w.soukSessions[n].souk in cfg.souks && Agree(cfg, w, n, m)
             && n' in w.soukSessions && w.soukSessions[n'].souk in cfg.souks && Agree(cfg, w, n', m)
    ensures n == n'
  {
    var w := Run(cfg, labels);
    RunKeepsInv(cfg, labels);
    var s, s' := w.soukSessions[n], w.soukSessions[n'];
    IdentityHasNoColon(cfg, s.souk);
    IdentityHasNoColon(cfg, s'.souk);
    SplitFromTheFront(IdentityField(cfg, s.souk), s.nonce, s.hello.nonce + ":" + JoinedNames(s.hello.names),
                      IdentityField(cfg, s'.souk), s'.nonce, s'.hello.nonce + ":" + JoinedNames(s'.hello.names));
  }

  lemma Regrouped(key: string, soukNonce: string, nonce: string, names: string)
    ensures Shown(key, soukNonce, nonce, names) == ((key + ":" + soukNonce) + [':'] + nonce) + [':'] + names
  {
    assert nonce + ":" + names == nonce + ([':'] + names);
  }

  lemma SplitFromTheBack(a: string, b: string, c: string, names: string,
                         a': string, b': string, c': string, names': string)
    requires Shown(a, b, c, names) == Shown(a', b', c', names')
    requires ':' !in c && ':' !in c' && ':' !in names && ':' !in names'
    ensures names == names' && c == c' && a + ":" + b == a' + ":" + b'
  {
    Regrouped(a, b, c, names);
    Regrouped(a', b', c', names');
    Text.CutLastOf((a + ":" + b) + [':'] + c, ':', names);
    Text.CutLastOf((a' + ":" + b') + [':'] + c', ':', names');
    Text.CutLastOf(a + ":" + b, ':', c);
    Text.CutLastOf(a' + ":" + b', ':', c');
  }

  /** Read from the back: when names, offering and the hello's nonce are colon-free, the two
      ends agree on the bridge's nonce and on the offering, whatever the bridge was shown. */
  lemma ColonFreeNamesAgree(cfg: Config, labels: seq<Label>, n: nat, m: nat)
    requires var w := Run(cfg, labels);
             n in w.soukSessions && w.soukSessions[n].souk in cfg.souks && Agree(cfg, w, n, m)
    ensures var w := Run(cfg, labels);
            var s, q := w.soukSessions[n], w.bridgeSessions[m];
            var offering := cfg.bridges[q.bridge].offering;
            ':' !in s.hello.nonce && ':' !in JoinedNames(s.hello.names) && ':' !in offering ==>
              s.hello.nonce == q.nonce && JoinedNames(s.hello.names) == offering
  {
    var w := Run(cfg, labels);
    RunKeepsInv(cfg, labels);
    var s, q := w.soukSessions[n], w.bridgeSessions[m];
    var offering := cfg.bridges[q.bridge].offering;
    if ':' !in s.hello.nonce && ':' !in JoinedNames(s.hello.names) && ':' !in offering {
      SplitFromTheBack(q.phase.presented, q.phase.soukNonce, q.nonce, offering,
                       IdentityField(cfg, s.souk), s.nonce, s.hello.nonce, JoinedNames(s.hello.names));
    }
  }

  function OnePair(): Config
  {
    Config(map[0 := H.Souk(Some(H.Digits('a')))], map[0 := Bridge(H.Digits('b'), "llama3:8b")])
  }

  const SHIFTED_HELLO := H.Hello(H.HANDSHAKE_VERSION, H.Digits('b'), ["llama3:8b"], "bb:aa")

  function ShiftedProof(): Statement
  {
    ProviderConnect(H.Digits('a'), "cc:bb", "aa", ["llama3:8b"])
  }

  function ShiftedFrames(): seq<Label>
  {
    [BridgeConnects(0, 0, "aa"), HelloArrives(0, 0, SHIFTED_HELLO, "cc"), ChallengeArrives(0, H.Digits('a'), "cc:bb")]
  }

  lemma RunTwo(cfg: Config, a: Label, b: Label)
    ensures Run(cfg, [a, b]) == Step(cfg, Step(cfg, START, a), b)
  {
    RunStep(cfg, [], a);
    RunStep(cfg, [a], b);
    assert [] + [a] == [a] && [a] + [b] == [a, b];
  }

  lemma RunThree(cfg: Config, a: Label, b: Label, c: Label)
    ensures Run(cfg, [a, b, c]) == Step(cfg, Step(cfg, Step(cfg, START, a), b), c)
  {
    RunTwo(cfg, a, b);
    RunStep(cfg, [a, b], c);
    assert [a, b] + [c] == [a, b, c];
  }

  lemma ShiftedHelloArrives()
    ensures var w := Step(OnePair(), Step(OnePair(), START, ShiftedFrames()[0]), ShiftedFrames()[1]);
            && w.soukSessions == map[0 := H.SoukSession(0, SHIFTED_HELLO, "cc", H.Challenged)]
            && w.bridgeSessions == map[0 := BridgeSession(0, "aa", HelloSent)] && w.log == []
  {}

  lemma ShiftedProofIsSent()
    ensures var w := Run(OnePair(), ShiftedFrames());
            && w.soukSessions == map[0 := H.SoukSession(0, SHIFTED_HELLO, "cc", H.Challenged)]
            && w.bridgeSessions == map[0 := BridgeSession(0, "aa", Proved(H.Digits('a'), "cc:bb"))]
            && w.log == [Signing(H.Digits('b'), ShiftedProof(), Some(0))]
  {
    var ls := ShiftedFrames();
    RunThree(OnePair(), ls[0], ls[1], ls[2]);
    ShiftedHelloArrives();
  }

  lemma ShiftedProofVerifies()
    ensures var s := H.SoukSession(0, SHIFTED_HELLO, "cc", H.Challenged);
            H.Verifies(H.Digits('b'), H.Signature(H.Digits('b'), Print(ShiftedProof())), Print(ProofFor(OnePair(), s)))
  {
    H.JoinedAlike("cc", "bb:aa", "cc:bb", "aa", JoinedNames(["llama3:8b"]));
    assert H.Decoded(H.Digits('b')) == H.Digits('b');
  }

  /** A hello that arrives with a colon in its nonce: the session attaches, and the two ends
      hold different nonces. */
  lemma NoncesCanShift() returns (labels: seq<Label>)
    ensures var w := Run(OnePair(), labels);
            && 0 in w.soukSessions && w.soukSessions[0].phase.Attached?
            && 0 in w.bridgeSessions && w.bridgeSessions[0].phase.Proved?
            && w.soukSessions[0].nonce != w.bridgeSessions[0].phase.soukNonce
            && w.soukSessions[0].hello.nonce != w.bridgeSessions[0].nonce
  {
    var last := ProofArrives(0, H.Signature(H.Digits('b'), Print(ShiftedProof())), true);
    labels := ShiftedFrames() + [last];
    ShiftedProofIsSent();
    ShiftedProofVerifies();
    RunStep(OnePair(), ShiftedFrames(), last);
    var w := Run(OnePair(), ShiftedFrames());
    assert w.log[0].statement == ShiftedProof();
  }

  /** Where the two handshakes differ: a provider's proof rests on a signature its souk made
      first, while a bridge answers every challenge, so no souk need have spoken. */
  lemma ProofNeedsNoSouk(cfg: Config, bridge: nat, own: string, presented: string, nonce: string)
    requires bridge in cfg.bridges && own != "" && ':' !in own
    ensures var w := Run(cfg, [BridgeConnects(0, bridge, own), ChallengeArrives(0, presented, nonce)]);
            && w.soukSessions == map[]
            && w.log == [Signing(cfg.bridges[bridge].key,
                                 ProviderConnect(presented, nonce, own, [cfg.bridges[bridge].offering]), Some(0))]
  {
    RunTwo(cfg, BridgeConnects(0, bridge, own), ChallengeArrives(0, presented, nonce));
  }
}
