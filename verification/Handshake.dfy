/** The four-frame mutual challenge-response of the provider socket, with symbolic
    signatures: any number of souks, providers and sessions, and a network that may
    deliver, withhold, replay or invent any frame
    (souk_server/ws_provider.py, souk-agent-sdk/souk_agent_sdk/client.py). */
module Handshake {
  import opened Wrappers
  import opened Payloads
  import Text

  const HANDSHAKE_VERSION := 3

  predicate IsHexDigit(c: char)
  {
    '0' <= c <= '9' || 'a' <= c <= 'f' || 'A' <= c <= 'F'
  }

  /** Hex that decodes to the 32 bytes of an Ed25519 public key. */
  predicate IsHexKey(k: string)
  {
    |k| == 64 && forall i :: 0 <= i < |k| ==> IsHexDigit(k[i])
  }

  function LowerCase(c: char): char
  {
    if 'A' <= c <= 'F' then (c as int + 32) as char else c
  }

  /** The key that hex stands for, written the way keys are printed. */
  function Decoded(k: string): string
  {
    seq(|k|, i requires 0 <= i < |k| => LowerCase(k[i]))
  }

  /** A key as its holder prints it: lower-case hex. */
  predicate IsKey(k: string)
  {
    IsHexKey(k) && Decoded(k) == k
  }

  datatype Signature = Signature(key: string, payload: string)

  /** An ideal signature: it verifies under the key that made it, however that is spelled,
      over the bytes it was made over, and under nothing else. */
  predicate Verifies(key: string, signature: Signature, payload: string)
  {
    IsHexKey(key) && signature == Signature(Decoded(key), payload)
  }

  // ---- What the provider checks before it signs

  /** A challenge frame; `None` for a field that is absent or null. */
  datatype Challenge = Challenge(soukKey: Option<string>, nonce: Option<string>, signature: Option<Signature>)

  /** What a client makes of a challenge: it walks away, or it signs a proof that binds
      this recipient and this nonce. */
  datatype Decision = Raises | Signs(recipient: string, soukNonce: string)

  datatype Trust = Mismatch | Recipient(key: Option<string>)

  /** `SoukProvider._check_souk_identity` */
  function CheckSoukIdentity(
    pin: Option<string>, soukKey: Option<string>, signature: Option<Signature>,
    providerNonce: string, soukNonce: string
  ): Trust
  {
    match soukKey
    case None => if pin.Some? then Mismatch else Recipient(None)
    case Some(k) =>
      if signature.None? || !Verifies(k, signature.value, Print(SoukConnect(soukNonce, providerNonce))) then Mismatch
      else if pin.Some? && k != pin.value then Mismatch
      else Recipient(Some(k))
  }

  /** What a proof binds as its recipient: the proven key, or the empty string. */
  function RecipientField(key: Option<string>): string
  {
    if key.Some? then key.value else ""
  }

  predicate HasNonce(c: Challenge)
  {
    c.nonce.Some? && c.nonce.value != ""
  }

  /** The Python client, from the challenge frame to its proof. */
  function PythonDecides(pin: Option<string>, c: Challenge, providerNonce: string): Decision
  {
    if !HasNonce(c) then Raises
    else
      match CheckSoukIdentity(pin, c.soukKey, c.signature, providerNonce, c.nonce.value)
      case Mismatch => Raises
      case Recipient(key) => Signs(RecipientField(key), c.nonce.value)
  }

  /** `SoukConn.verifySouk` of the Go client, where an absent key is the empty string and
      keys are compared as bytes. True when it returns no error. */
  predicate VerifySouk(
    pin: Option<string>, presented: string, signature: Option<Signature>,
    providerNonce: string, soukNonce: string
  )
  {
    if presented == "" then pin.None?
    else if !IsHexKey(presented) then false
    else if pin.Some? && Decoded(pin.value) != Decoded(presented) then false
    else if signature.None? then false
    else Verifies(presented, signature.value, Print(SoukConnect(soukNonce, providerNonce)))
  }

  /** The Go client, which takes an absent nonce for an empty one and goes on. */
  function GoDecides(pin: Option<string>, c: Challenge, providerNonce: string): Decision
  {
    var presented, nonce := RecipientField(c.soukKey), RecipientField(c.nonce);
    if VerifySouk(pin, presented, c.signature, providerNonce, nonce) then Signs(presented, nonce) else Raises
  }

  // ---- Where the two clients differ

  /** No nonce, from a souk that passes otherwise. */
  predicate LacksNonce(pin: Option<string>, c: Challenge, providerNonce: string)
  {
    !HasNonce(c) && VerifySouk(pin, RecipientField(c.soukKey), c.signature, providerNonce, "")
  }

  /** The empty string as a key, shown to a provider that pins none. */
  predicate HasEmptyKey(pin: Option<string>, c: Challenge)
  {
    c.soukKey == Some("") && pin.None?
  }

  /** The pinned key in another spelling, well signed. */
  predicate RespellsPin(pin: Option<string>, c: Challenge, providerNonce: string)
  {
    && pin.Some? && c.soukKey.Some? && c.soukKey != pin && HasNonce(c)
    && Decoded(c.soukKey.value) == Decoded(pin.value)
    && c.signature.Some?
    && Verifies(c.soukKey.value, c.signature.value, Print(SoukConnect(c.nonce.value, providerNonce)))
  }

  /** The two clients take the same decision about every challenge but those of three
      kinds; of these Python walks away and Go signs. (A pin that is no key keeps the Go
      client from starting.) */
  lemma ClientsDecideAlike(pin: Option<string>, c: Challenge, providerNonce: string)
    requires pin.Some? ==> IsHexKey(pin.value)
    ensures var python, go := PythonDecides(pin, c, providerNonce), GoDecides(pin, c, providerNonce);
            && (python == go <==>
                  !LacksNonce(pin, c, providerNonce) && !HasEmptyKey(pin, c) && !RespellsPin(pin, c, providerNonce))
            && (python != go ==> python.Raises? && go.Signs?)
  {}

  /** Sixty-four times the same digit. */
  function Digits(c: char): (k: string)
    ensures |k| == 64 && forall i :: 0 <= i < |k| ==> k[i] == c
  {
    seq(64, i => c)
  }

  /** There are challenges of each kind, and of only that kind. */
  lemma ClientsDoDiffer(providerNonce: string)
    returns (pin: Option<string>, unnamed: Challenge, empty: Challenge, respelled: Challenge)
    ensures pin.Some? && IsKey(pin.value)
    ensures LacksNonce(None, unnamed, providerNonce) && !HasEmptyKey(None, unnamed)
    ensures HasEmptyKey(None, empty) && HasNonce(empty)
    ensures RespellsPin(pin, respelled, providerNonce)
  {
    var lower, upper := Digits('a'), Digits('A');
    assert Decoded(lower) == lower && Decoded(upper) == lower && upper[0] != lower[0];
    pin := Some(lower);
    unnamed := Challenge(None, None, None);
    empty := Challenge(Some(""), Some("n"), None);
    respelled := Challenge(Some(upper), Some("n"), Some(Signature(lower, Print(SoukConnect("n", providerNonce)))));
  }

  // ---- Parties

  datatype Souk = Souk(identity: Option<string>)

  datatype Client = Python | Go

  datatype Provider = Provider(key: string, pin: Option<string>, names: seq<string>, client: Client)

  datatype Config = Config(souks: map<nat, Souk>, providers: map<nat, Provider>)

  predicate ValidConfig(cfg: Config)
  {
    && (forall s :: s in cfg.souks && cfg.souks[s].identity.Some? ==> IsKey(cfg.souks[s].identity.value))
    && (forall p :: p in cfg.providers ==> IsKey(cfg.providers[p].key))
  }

  /** Keys whose private half only the configured souks and providers hold. */
  predicate Honest(cfg: Config, key: string)
  {
    || (exists s :: s in cfg.souks && cfg.souks[s].identity == Some(key))
    || (exists p :: p in cfg.providers && cfg.providers[p].key == key)
  }

  // ---- Sessions and the log of honest signatures

  datatype Hello = Hello(version: int, publicKey: string, names: seq<string>, nonce: string)

  /** `_hello_error` finds nothing wrong. */
  predicate GoodHello(h: Hello)
  {
    h.version == HANDSHAKE_VERSION && h.nonce != "" && h.names != []
  }

  datatype SoukPhase = Challenged | Attached | Refused

  datatype SoukSession = SoukSession(souk: nat, hello: Hello, nonce: string, phase: SoukPhase)

  datatype ProviderPhase = HelloSent | Proved(recipient: string, soukNonce: string) | Left

  datatype ProviderSession = ProviderSession(provider: nat, nonce: string, phase: ProviderPhase)

  datatype Signer = BySouk(soukSession: nat) | ByProvider(providerSession: nat) | ByHttp

  datatype Signing = Signing(key: string, statement: Statement, signer: Signer)

  datatype World = World(
    soukSessions: map<nat, SoukSession>,
    providerSessions: map<nat, ProviderSession>,
    log: seq<Signing>)

  const START := World(map[], map[], [])

  ghost predicate Logged(log: seq<Signing>, key: string, bytes: string)
  {
    exists i :: 0 <= i < |log| && log[i].key == key && Print(log[i].statement) == bytes
  }

  /** The network can present a signature if an honest party made it, at any time and for
      any purpose, or if its key belongs to nobody honest. */
  ghost predicate Available(cfg: Config, w: World, signature: Signature)
  {
    Honest(cfg, signature.key) ==> Logged(w.log, signature.key, signature.payload)
  }

  predicate FreshNonce(w: World, nonce: string)
  {
    && nonce != "" && ':' !in nonce
    && (forall s :: s in w.soukSessions ==> w.soukSessions[s].nonce != nonce)
    && (forall p :: p in w.providerSessions ==> w.providerSessions[p].nonce != nonce)
  }

  // ---- Steps

  datatype Label =
    | HelloArrives(session: nat, souk: nat, hello: Hello, nonce: string)
    | ProofArrives(session: nat, proof: Signature, registered: bool)
    | ProviderConnects(session: nat, provider: nat, nonce: string)
    | ChallengeArrives(session: nat, challenge: Challenge)
    | ProviderCallsHttp(provider: nat, statement: Statement)

  function ProofBytes(cfg: Config, s: SoukSession): string
    requires s.souk in cfg.souks
  {
    Print(ProviderConnect(RecipientField(cfg.souks[s.souk].identity), s.nonce, s.hello.nonce, s.hello.names))
  }

  /** A souk answers a hello: a fresh challenge, and its own signature when it has an
      identity. */
  function AnswerHello(cfg: Config, w: World, session: nat, souk: nat, hello: Hello, nonce: string): World
    requires souk in cfg.souks
  {
    var w' := w.(soukSessions := w.soukSessions[session := SoukSession(souk, hello, nonce, Challenged)]);
    match cfg.souks[souk].identity
    case None => w'
    case Some(k) => w'.(log := w.log + [Signing(k, SoukConnect(nonce, hello.nonce), BySouk(session))])
  }

  /** Core's attach: the proof must answer this challenge, once, and the key must have
      registered the names. */
  function Attach(cfg: Config, w: World, session: nat, signature: Signature, registered: bool): World
    requires session in w.soukSessions && w.soukSessions[session].souk in cfg.souks
  {
    var s := w.soukSessions[session];
    var phase := if registered && Verifies(s.hello.publicKey, signature, ProofBytes(cfg, s)) then Attached else Refused;
    w.(soukSessions := w.soukSessions[session := s.(phase := phase)])
  }

  function Decides(p: Provider, c: Challenge, providerNonce: string): Decision
  {
    if p.client.Python? then PythonDecides(p.pin, c, providerNonce) else GoDecides(p.pin, c, providerNonce)
  }

  /** The provider checks who it is talking to, and only then signs. */
  function AnswerChallenge(cfg: Config, w: World, session: nat, c: Challenge): World
    requires session in w.providerSessions && w.providerSessions[session].provider in cfg.providers
  {
    var q := w.providerSessions[session];
    var p := cfg.providers[q.provider];
    match Decides(p, c, q.nonce)
    case Raises =>
      w.(providerSessions := w.providerSessions[session := q.(phase := Left)])
    case Signs(recipient, nonce) =>
      var proof := ProviderConnect(recipient, nonce, q.nonce, Sorted(p.names));
      w.(providerSessions := w.providerSessions[session := q.(phase := Proved(recipient, nonce))],
         log := w.log + [Signing(p.key, proof, ByProvider(session))])
  }

  /** One step; a label that is not enabled changes nothing. */
  ghost function Step(cfg: Config, w: World, l: Label): World
  {
    match l
    case HelloArrives(session, souk, hello, nonce) =>
      if session !in w.soukSessions && souk in cfg.souks && GoodHello(hello) && FreshNonce(w, nonce)
      then AnswerHello(cfg, w, session, souk, hello, nonce) else w
    case ProofArrives(session, signature, registered) =>
      if && session in w.soukSessions && w.soukSessions[session].phase.Challenged?
         && w.soukSessions[session].souk in cfg.souks && Available(cfg, w, signature)
      then Attach(cfg, w, session, signature, registered) else w
    case ProviderConnects(session, provider, nonce) =>
      if session !in w.providerSessions && provider in cfg.providers && FreshNonce(w, nonce)
      then w.(providerSessions := w.providerSessions[session := ProviderSession(provider, nonce, HelloSent)]) else w
    case ChallengeArrives(session, c) =>
      if && session in w.providerSessions && w.providerSessions[session].phase.HelloSent?
         && w.providerSessions[session].provider in cfg.providers
         && (c.signature.Some? ==> Available(cfg, w, c.signature.value))
      then AnswerChallenge(cfg, w, session, c) else w
    case ProviderCallsHttp(provider, statement) =>
      if provider in cfg.providers && (statement.Registration? || statement.KyokCall?)
      then w.(log := w.log + [Signing(cfg.providers[provider].key, statement, ByHttp)]) else w
  }

  ghost function Run(cfg: Config, labels: seq<Label>): World
  {
    if labels == [] then START
    else Step(cfg, Run(cfg, labels[..|labels| - 1]), labels[|labels| - 1])
  }

  // ---- What every run keeps

  /** The souk's signature this proof rests on was made before entry `i`. */
  ghost predicate AcceptedBefore(cfg: Config, w: World, q: ProviderSession, i: nat)
    requires q.phase.Proved? && i <= |w.log|
  {
    var k := q.phase.recipient;
    k == "" ||
    (IsHexKey(k) &&
     (Honest(cfg, Decoded(k)) ==> Logged(w.log[..i], Decoded(k), Print(SoukConnect(q.phase.soukNonce, q.nonce)))))
  }

  /** The proof is for the pinned key: as a string in Python, as bytes in Go. */
  predicate RespectsPin(p: Provider, recipient: string)
  {
    p.pin.Some? ==>
      if p.client.Python? then recipient == p.pin.value else Decoded(recipient) == Decoded(p.pin.value)
  }

  ghost predicate Justified(cfg: Config, w: World, i: nat)
    requires i < |w.log|
  {
    var e := w.log[i];
    match e.signer
    case BySouk(n) =>
      && n in w.soukSessions && w.soukSessions[n].souk in cfg.souks
      && cfg.souks[w.soukSessions[n].souk].identity == Some(e.key)
      && e.statement == SoukConnect(w.soukSessions[n].nonce, w.soukSessions[n].hello.nonce)
    case ByProvider(n) =>
      && n in w.providerSessions && w.providerSessions[n].phase.Proved?
      && var q := w.providerSessions[n];
      && q.provider in cfg.providers
      && var p := cfg.providers[q.provider];
      && e.key == p.key
      && e.statement == ProviderConnect(q.phase.recipient, q.phase.soukNonce, q.nonce, Sorted(p.names))
      && RespectsPin(p, q.phase.recipient)
      && AcceptedBefore(cfg, w, q, i)
    case ByHttp => e.statement.Registration? || e.statement.KyokCall?
  }

  ghost predicate NoncesGood(w: World)
  {
    && (forall s :: s in w.soukSessions ==> ':' !in w.soukSessions[s].nonce)
    && (forall p :: p in w.providerSessions ==> ':' !in w.providerSessions[p].nonce)
    && (forall s, t :: s in w.soukSessions && t in w.soukSessions && s != t
          ==> w.soukSessions[s].nonce != w.soukSessions[t].nonce)
  }

  ghost predicate AttachedIsProven(cfg: Config, w: World, n: nat)
    requires n in w.soukSessions
  {
    var s := w.soukSessions[n];
    && s.souk in cfg.souks
    && (s.phase.Attached? && Honest(cfg, Decoded(s.hello.publicKey)) ==>
          Logged(w.log, Decoded(s.hello.publicKey), ProofBytes(cfg, s)))
  }

  ghost predicate Inv(cfg: Config, w: World)
  {
    && (forall i :: 0 <= i < |w.log| ==> Justified(cfg, w, i))
    && NoncesGood(w)
    && (forall n :: n in w.soukSessions ==> AttachedIsProven(cfg, w, n))
  }

  lemma LoggedGrows(log: seq<Signing>, log': seq<Signing>, key: string, bytes: string)
    requires log <= log' && Logged(log, key, bytes)
    ensures Logged(log', key, bytes)
  {
    var i :| 0 <= i < |log| && log[i].key == key && Print(log[i].statement) == bytes;
    assert log'[i] == log[i];
  }

  /** Sessions that have answered stay as they are, and the log only grows. */
  ghost predicate Extends(w: World, w': World)
  {
    && w.log <= w'.log
    && (forall n :: n in w.soukSessions ==>
          n in w'.soukSessions && w'.soukSessions[n] == w.soukSessions[n].(phase := w'.soukSessions[n].phase))
    && (forall n :: n in w.providerSessions && w.providerSessions[n].phase.Proved? ==>
          n in w'.providerSessions && w'.providerSessions[n] == w.providerSessions[n])
  }

  lemma OldEntriesStayJustified(cfg: Config, w: World, w': World, i: nat)
    requires Extends(w, w') && i < |w.log| && Justified(cfg, w, i)
    ensures Justified(cfg, w', i)
  {
    assert w'.log[i] == w.log[i] && w'.log[..i] == w.log[..i];
  }

  lemma OldAttachStaysProven(cfg: Config, w: World, w': World, n: nat)
    requires Extends(w, w') && n in w.soukSessions && AttachedIsProven(cfg, w, n)
    requires w'.soukSessions[n].phase == w.soukSessions[n].phase
    ensures AttachedIsProven(cfg, w', n)
  {
    var s := w.soukSessions[n];
    if s.phase.Attached? && Honest(cfg, Decoded(s.hello.publicKey)) {
      LoggedGrows(w.log, w'.log, Decoded(s.hello.publicKey), ProofBytes(cfg, s));
    }
  }

  /** Carries an invariant over a step that adds at most one justified entry and proves
      whatever it attaches. */
  lemma InvFrom(cfg: Config, w: World, w': World)
    requires Inv(cfg, w) && Extends(w, w') && NoncesGood(w')
    requires forall i :: |w.log| <= i < |w'.log| ==> Justified(cfg, w', i)
    requires forall n :: n in w'.soukSessions ==>
               (n in w.soukSessions && w'.soukSessions[n].phase == w.soukSessions[n].phase)
               || AttachedIsProven(cfg, w', n)
    ensures Inv(cfg, w')
  {
    forall i | 0 <= i < |w'.log| ensures Justified(cfg, w', i) {
      if i < |w.log| { OldEntriesStayJustified(cfg, w, w', i); }
    }
    forall n | n in w'.soukSessions ensures AttachedIsProven(cfg, w', n) {
      if n in w.soukSessions && w'.soukSessions[n].phase == w.soukSessions[n].phase {
        OldAttachStaysProven(cfg, w, w', n);
      }
    }
  }

  lemma FreshNonceIsGood(w: World, session: nat, s: SoukSession)
    requires NoncesGood(w) && session !in w.soukSessions && FreshNonce(w, s.nonce)
    ensures NoncesGood(w.(soukSessions := w.soukSessions[session := s]))
  {}

  lemma HelloIsJustified(cfg: Config, w: World, session: nat, souk: nat, hello: Hello, nonce: string)
    requires souk in cfg.souks && session !in w.soukSessions
    ensures var w' := AnswerHello(cfg, w, session, souk, hello, nonce);
            && Extends(w, w') && forall i :: |w.log| <= i < |w'.log| ==> Justified(cfg, w', i)
  {
    assert AnswerHello(cfg, w, session, souk, hello, nonce).log[..|w.log|] == w.log;
  }

  lemma HelloKeepsInv(cfg: Config, w: World, session: nat, souk: nat, hello: Hello, nonce: string)
    requires Inv(cfg, w) && souk in cfg.souks && session !in w.soukSessions && FreshNonce(w, nonce)
    ensures Inv(cfg, AnswerHello(cfg, w, session, souk, hello, nonce))
  {
    FreshNonceIsGood(w, session, SoukSession(souk, hello, nonce, Challenged));
    HelloIsJustified(cfg, w, session, souk, hello, nonce);
    InvFrom(cfg, w, AnswerHello(cfg, w, session, souk, hello, nonce));
  }

  lemma AttachKeepsInv(cfg: Config, w: World, session: nat, signature: Signature, registered: bool)
    requires Inv(cfg, w) && session in w.soukSessions && w.soukSessions[session].souk in cfg.souks
    requires w.soukSessions[session].phase.Challenged? && Available(cfg, w, signature)
    ensures Inv(cfg, Attach(cfg, w, session, signature, registered))
  {
    var w' := Attach(cfg, w, session, signature, registered);
    assert w'.log[..|w.log|] == w.log;
    InvFrom(cfg, w, w');
  }

  lemma ChallengeIsJustified(cfg: Config, w: World, session: nat, c: Challenge)
    requires session in w.providerSessions && w.providerSessions[session].provider in cfg.providers
    requires w.providerSessions[session].phase.HelloSent?
    requires c.signature.Some? ==> Available(cfg, w, c.signature.value)
    ensures var w' := AnswerChallenge(cfg, w, session, c);
            && Extends(w, w') && w'.soukSessions == w.soukSessions
            && forall i :: |w.log| <= i < |w'.log| ==> Justified(cfg, w', i)
  {
    assert AnswerChallenge(cfg, w, session, c).log[..|w.log|] == w.log;
  }

  lemma ChallengeKeepsNonces(cfg: Config, w: World, session: nat, c: Challenge)
    requires NoncesGood(w) && session in w.providerSessions && w.providerSessions[session].provider in cfg.providers
    ensures NoncesGood(AnswerChallenge(cfg, w, session, c))
  {}

  lemma ChallengeKeepsInv(cfg: Config, w: World, session: nat, c: Challenge)
    requires Inv(cfg, w) && session in w.providerSessions && w.providerSessions[session].provider in cfg.providers
    requires w.providerSessions[session].phase.HelloSent?
    requires c.signature.Some? ==> Available(cfg, w, c.signature.value)
    ensures Inv(cfg, AnswerChallenge(cfg, w, session, c))
  {
    ChallengeIsJustified(cfg, w, session, c);
    ChallengeKeepsNonces(cfg, w, session, c);
    InvFrom(cfg, w, AnswerChallenge(cfg, w, session, c));
  }

  lemma StepKeepsInv(cfg: Config, w: World, l: Label)
    requires Inv(cfg, w)
    ensures Inv(cfg, Step(cfg, w, l))
  {
    var w' := Step(cfg, w, l);
    if w' != w {
      match l
      case HelloArrives(session, souk, hello, nonce) =>
        HelloKeepsInv(cfg, w, session, souk, hello, nonce);
      case ProofArrives(session, signature, registered) =>
        AttachKeepsInv(cfg, w, session, signature, registered);
      case ProviderConnects(session, provider, nonce) =>
        assert w'.log[..|w.log|] == w.log;
        InvFrom(cfg, w, w');
      case ChallengeArrives(session, c) =>
        ChallengeKeepsInv(cfg, w, session, c);
      case ProviderCallsHttp(provider, statement) =>
        assert w'.log[..|w.log|] == w.log;
        InvFrom(cfg, w, w');
    }
  }

  lemma {:induction false} RunKeepsInv(cfg: Config, labels: seq<Label>)
    ensures Inv(cfg, Run(cfg, labels))
  {
    if labels != [] {
      RunKeepsInv(cfg, labels[..|labels| - 1]);
      StepKeepsInv(cfg, Run(cfg, labels[..|labels| - 1]), labels[|labels| - 1]);
    }
  }

  // ---- Agreement

  lemma KeyHasNoColon(k: string)
    requires IsHexKey(k)
    ensures ':' !in k && k != ""
  {}

  /** Reading the recipient off a proof that was made for `s` of identity `k`. */
  lemma ProofNamesItsRecipient(key: string, soukNonce: string, rest: string, q: string, qNonce: string, qRest: string)
    requires IsHexKey(key) && (q == "" || IsHexKey(q))
    requires key + ":" + (soukNonce + ":" + rest) == q + ":" + (qNonce + ":" + qRest)
    ensures q == key && soukNonce + ":" + rest == qNonce + ":" + qRest
  {
    KeyHasNoColon(key);
    if q != "" { KeyHasNoColon(q); }
    Text.CutFirstOf(key, ':', soukNonce + ":" + rest);
    Text.CutFirstOf(q, ':', qNonce + ":" + qRest);
  }

  /** Both transcripts start with the same souk nonce, and then go on alike. */
  lemma TranscriptsAgree(n: string, b: string, n': string, hello: string, names: string, names': string, t: string)
    requires ':' !in n && ':' !in n'
    requires t == n + ":" + b
    requires n' + ":" + (hello + ":" + names) == t + ":" + names'
    ensures n == n'
    ensures hello + ":" + names == b + ":" + names'
  {
    Text.CutFirstOf(n', ':', hello + ":" + names);
    Text.CutFirstOf(n, ':', b + ":" + names');
    assert t + ":" + names' == n + [':'] + (b + ":" + names');
  }

  /** What the two ends agree on once souk session `n` is attached: provider session `m`
      of this very key proved to this very souk, over the same transcript of nonces,
      claiming the same names, and the souk's own signature was made first. */
  ghost predicate Agree(cfg: Config, w: World, n: nat, m: nat)
    requires n in w.soukSessions && w.soukSessions[n].souk in cfg.souks
    requires cfg.souks[w.soukSessions[n].souk].identity.Some?
  {
    var s := w.soukSessions[n];
    var key := cfg.souks[s.souk].identity.value;
    && m in w.providerSessions
    && var q := w.providerSessions[m];
    && q.phase.Proved? && q.provider in cfg.providers
    && var p := cfg.providers[q.provider];
    && p.key == Decoded(s.hello.publicKey)
    && q.phase.recipient == key && RespectsPin(p, key)
    && s.nonce + ":" + s.hello.nonce == q.phase.soukNonce + ":" + q.nonce
    && JoinedNames(s.hello.names) == JoinedNames(p.names)
    && (exists j :: 0 <= j < |w.log| && w.log[j].signer == ByProvider(m)
          && SoukSignedBefore(w, n, key, j))
  }

  /** Session `n` put its own signature over both nonces before log entry `j`. */
  ghost predicate SoukSignedBefore(w: World, n: nat, key: string, j: nat)
  {
    exists i :: 0 <= i < j && i < |w.log| && w.log[i].signer == BySouk(n) && w.log[i].key == key
  }

  lemma SoukSignatureIsItsOwn(cfg: Config, w: World, key: string, bytes: Statement, i: nat)
    requires Inv(cfg, w) && i < |w.log| && bytes.SoukConnect?
    requires w.log[i].key == key && Print(w.log[i].statement) == Print(bytes)
    ensures w.log[i].signer.BySouk?
    ensures var n := w.log[i].signer.soukSession;
            n in w.soukSessions &&
            w.soukSessions[n].nonce + ":" + w.soukSessions[n].hello.nonce
              == bytes.soukNonce + ":" + bytes.providerNonce
  {
    assert Justified(cfg, w, i);
    FamiliesAreDisjoint(w.log[i].statement, bytes);
  }

  lemma ProofIsItsOwn(cfg: Config, w: World, bytes: Statement, j: nat)
    requires Inv(cfg, w) && j < |w.log| && bytes.ProviderConnect?
    requires Print(w.log[j].statement) == Print(bytes)
    ensures w.log[j].signer.ByProvider? && w.log[j].statement.ProviderConnect?
    ensures var e := w.log[j].statement;
            e.soukPublicKey + ":" + (e.soukNonce + ":" + (e.providerNonce + ":" + JoinedNames(e.names)))
              == bytes.soukPublicKey + ":"
                 + (bytes.soukNonce + ":" + (bytes.providerNonce + ":" + JoinedNames(bytes.names)))
  {
    assert Justified(cfg, w, j);
    FamiliesAreDisjoint(w.log[j].statement, bytes);
  }

  lemma SortedTwice(names: seq<string>)
    ensures JoinedNames(Sorted(names)) == JoinedNames(names)
  {
    SortedIgnoresOrder(Sorted(names), names);
  }

  /** The agreement theorem. */
  lemma AttachMeansAgreement(cfg: Config, labels: seq<Label>, n: nat) returns (m: nat)
    requires ValidConfig(cfg)
    requires var w := Run(cfg, labels);
             && n in w.soukSessions && w.soukSessions[n].phase.Attached?
             && w.soukSessions[n].souk in cfg.souks
             && cfg.souks[w.soukSessions[n].souk].identity.Some?
             && Honest(cfg, Decoded(w.soukSessions[n].hello.publicKey))
    ensures Agree(cfg, Run(cfg, labels), n, m)
  {
    var w := Run(cfg, labels);
    RunKeepsInv(cfg, labels);
    var s := w.soukSessions[n];
    var key := cfg.souks[s.souk].identity.value;
    assert AttachedIsProven(cfg, w, n);
    var stated := ProviderConnect(key, s.nonce, s.hello.nonce, s.hello.names);
    var j :| 0 <= j < |w.log| && w.log[j].key == Decoded(s.hello.publicKey)
      && Print(w.log[j].statement) == Print(stated);
    assert Justified(cfg, w, j);
    ProofIsItsOwn(cfg, w, stated, j);
    m := w.log[j].signer.providerSession;
    var q := w.providerSessions[m];
    var p := cfg.providers[q.provider];
    SortedTwice(p.names);
    ProofNamesItsRecipient(key, s.nonce, s.hello.nonce + ":" + JoinedNames(s.hello.names),
                           q.phase.recipient, q.phase.soukNonce, q.nonce + ":" + JoinedNames(p.names));
    var i := SoukHalf(cfg, w, n, m, j, key);
  }

  /** Behind every proof to an honest souk stands a signature of that souk, made before
      it, by a session with the same transcript of nonces. */
  lemma ProofRestsOnSoukSignature(cfg: Config, w: World, m: nat, j: nat, key: string) returns (i: nat)
    requires Inv(cfg, w) && m in w.providerSessions && j < |w.log| && Honest(cfg, key) && IsKey(key)
    requires w.log[j].signer == ByProvider(m)
    requires w.providerSessions[m].phase.Proved? && w.providerSessions[m].phase.recipient == key
    ensures i < j && w.log[i].key == key && w.log[i].signer.BySouk?
    ensures var n, q := w.log[i].signer.soukSession, w.providerSessions[m];
            && n in w.soukSessions
            && w.soukSessions[n].nonce + ":" + w.soukSessions[n].hello.nonce == q.phase.soukNonce + ":" + q.nonce
  {
    var q := w.providerSessions[m];
    assert Justified(cfg, w, j) && AcceptedBefore(cfg, w, q, j);
    var heard := SoukConnect(q.phase.soukNonce, q.nonce);
    i :| 0 <= i < j && w.log[..j][i].key == key && Print(w.log[..j][i].statement) == Print(heard);
    SoukSignatureIsItsOwn(cfg, w, key, heard, i);
  }

  /** The souk's half: the signature the provider accepted is this session's own. */
  lemma SoukHalf(cfg: Config, w: World, n: nat, m: nat, j: nat, key: string) returns (i: nat)
    requires Inv(cfg, w) && n in w.soukSessions && m in w.providerSessions && j < |w.log|
    requires Honest(cfg, key) && IsKey(key) && w.log[j].signer == ByProvider(m)
    requires w.providerSessions[m].provider in cfg.providers
    requires w.providerSessions[m].phase.Proved? && w.providerSessions[m].phase.recipient == key
    requires var s, q := w.soukSessions[n], w.providerSessions[m];
             s.nonce + ":" + (s.hello.nonce + ":" + JoinedNames(s.hello.names))
               == q.phase.soukNonce + ":" + (q.nonce + ":" + JoinedNames(cfg.providers[q.provider].names))
    ensures i < j && w.log[i].signer == BySouk(n) && w.log[i].key == key
    ensures var s, q := w.soukSessions[n], w.providerSessions[m];
            && s.nonce + ":" + s.hello.nonce == q.phase.soukNonce + ":" + q.nonce
            && JoinedNames(s.hello.names) == JoinedNames(cfg.providers[q.provider].names)
  {
    i := ProofRestsOnSoukSignature(cfg, w, m, j, key);
    var s, q := w.soukSessions[n], w.providerSessions[m];
    var n' := w.log[i].signer.soukSession;
    var s' := w.soukSessions[n'];
    SameChallenge(s.nonce, s.hello.nonce, JoinedNames(s.hello.names), s'.nonce, s'.hello.nonce,
                  q.phase.soukNonce, q.nonce, JoinedNames(cfg.providers[q.provider].names));
    assert n' == n;
    SameTail(s.hello.nonce + ":", JoinedNames(s.hello.names), JoinedNames(cfg.providers[q.provider].names));
  }

  /** `n`, `h`, `x`: what the attached session claims; `n'`, `h'`: what the souk signed;
      `a`, `b`, `y`: what the provider saw. */
  lemma SameChallenge(n: string, h: string, x: string, n': string, h': string, a: string, b: string, y: string)
    requires ':' !in n && ':' !in n'
    requires n' + ":" + h' == a + ":" + b
    requires n + ":" + (h + ":" + x) == a + ":" + (b + ":" + y)
    ensures n == n' && h + ":" + x == h' + ":" + y
  {
    var t := a + ":" + b;
    assert a + ":" + (b + ":" + y) == t + ":" + y;
    TranscriptsAgree(n', h', n, h, x, y, t);
  }

  lemma SameTail(a: string, x: string, y: string)
    requires a + x == a + y
    ensures x == y
  {
    assert (a + x)[|a|..] == x && (a + y)[|a|..] == y;
  }

  /** The two ends agree on each nonce exactly when the hello carries a colon-free one; and
      if either list of names is comma-free, they agree on the names up to order exactly
      when both are. */
  lemma AgreementIsExact(cfg: Config, labels: seq<Label>, n: nat, m: nat)
    requires var w := Run(cfg, labels);
             && n in w.soukSessions && w.soukSessions[n].souk in cfg.souks
             && cfg.souks[w.soukSessions[n].souk].identity.Some? && Agree(cfg, w, n, m)
    ensures var w := Run(cfg, labels);
            var s, q := w.soukSessions[n], w.providerSessions[m];
            var p := cfg.providers[q.provider];
            && (':' !in s.hello.nonce <==> s.nonce == q.phase.soukNonce && s.hello.nonce == q.nonce)
            && (GoodNames(s.hello.names) || GoodNames(p.names) ==>
                  (multiset(s.hello.names) == multiset(p.names) <==> GoodNames(s.hello.names) && GoodNames(p.names)))
  {
    var w := Run(cfg, labels);
    RunKeepsInv(cfg, labels);
    var s, q := w.soukSessions[n], w.providerSessions[m];
    if ':' !in s.hello.nonce {
      Text.CutLastOf(s.nonce, ':', s.hello.nonce);
      Text.CutLastOf(q.phase.soukNonce, ':', q.nonce);
    }
    NamesReadAlike(s.hello.names, cfg.providers[q.provider].names);
  }

  /** One run of the provider's handshake attaches at most one session anywhere: nothing
      recorded from it opens a second. */
  lemma AgreementIsInjective(cfg: Config, labels: seq<Label>, n: nat, n': nat, m: nat)
    requires var w := Run(cfg, labels);
             && n in w.soukSessions && w.soukSessions[n].souk in cfg.souks
             && cfg.souks[w.soukSessions[n].souk].identity.Some? && Agree(cfg, w, n, m)
             && n' in w.soukSessions && w.soukSessions[n'].souk in cfg.souks
             && cfg.souks[w.soukSessions[n'].souk].identity.Some? && Agree(cfg, w, n', m)
    ensures n == n'
  {
    var w := Run(cfg, labels);
    RunKeepsInv(cfg, labels);
    var s, s' := w.soukSessions[n], w.soukSessions[n'];
    Text.CutFirstOf(s.nonce, ':', s.hello.nonce);
    Text.CutFirstOf(s'.nonce, ':', s'.hello.nonce);
  }

  lemma RunStep(cfg: Config, labels: seq<Label>, l: Label)
    ensures Run(cfg, labels + [l]) == Step(cfg, Run(cfg, labels), l)
  {
    assert (labels + [l])[..|labels + [l]| - 1] == labels;
  }

  // ---- Who may attach

  /** A proof this souk can be shown answers the challenge of session `n`. */
  ghost predicate IsAnswered(cfg: Config, w: World, l: Label, n: nat)
  {
    && l.ProofArrives? && l.session == n && n in w.soukSessions && w.soukSessions[n].phase.Challenged?
    && w.soukSessions[n].souk in cfg.souks && Available(cfg, w, l.proof)
  }

  /** The key has registered the names, and the proof verifies over this very challenge. */
  predicate IsGood(cfg: Config, w: World, l: Label, n: nat)
    requires l.ProofArrives? && n in w.soukSessions && w.soukSessions[n].souk in cfg.souks
  {
    l.registered && Verifies(w.soukSessions[n].hello.publicKey, l.proof, ProofBytes(cfg, w.soukSessions[n]))
  }

  lemma StepAnswers(cfg: Config, w: World, l: Label, n: nat)
    ensures var w' := Step(cfg, w, l);
            && (n in w.soukSessions ==> n in w'.soukSessions)
            && (n in w.soukSessions ==>
                  w'.soukSessions[n] ==
                    if !IsAnswered(cfg, w, l, n) then w.soukSessions[n]
                    else w.soukSessions[n].(phase := if IsGood(cfg, w, l, n) then Attached else Refused))
            && (n !in w.soukSessions && n in w'.soukSessions ==>
                  var s := w'.soukSessions[n];
                  s.phase.Challenged? && s.hello.version == 3 && s.hello.nonce != "" && s.hello.names != [])
  {}

  lemma {:induction false} AnswerStands(cfg: Config, labels: seq<Label>, more: seq<Label>, n: nat)
    requires n in Run(cfg, labels).soukSessions && !Run(cfg, labels).soukSessions[n].phase.Challenged?
    ensures n in Run(cfg, labels + more).soukSessions
    ensures Run(cfg, labels + more).soukSessions[n] == Run(cfg, labels).soukSessions[n]
  {
    var all := labels + more;
    if more == [] {
      assert all == labels;
    } else {
      var k := |more| - 1;
      AnswerStands(cfg, labels, more[..k], n);
      assert all[..|all| - 1] == labels + more[..k] && all[|all| - 1] == more[k];
      StepAnswers(cfg, Run(cfg, labels + more[..k]), more[k], n);
    }
  }

  /** The first proof that answers a challenge decides, under every continuation: the
      session is attached exactly when the names are registered to the key and the proof
      verifies over this challenge, and refused otherwise. */
  lemma AnswerIsFinal(cfg: Config, labels: seq<Label>, l: Label, more: seq<Label>, n: nat)
    requires IsAnswered(cfg, Run(cfg, labels), l, n)
    ensures var w := Run(cfg, labels + [l] + more);
            && n in w.soukSessions
            && w.soukSessions[n].phase == if IsGood(cfg, Run(cfg, labels), l, n) then Attached else Refused
  {
    RunStep(cfg, labels, l);
    StepAnswers(cfg, Run(cfg, labels), l, n);
    AnswerStands(cfg, labels + [l], more, n);
  }

  ghost predicate AnsweredAt(cfg: Config, labels: seq<Label>, i: nat, n: nat)
  {
    i < |labels| && IsAnswered(cfg, Run(cfg, labels[..i]), labels[i], n)
  }

  lemma AnsweredAtGrows(cfg: Config, labels: seq<Label>, i: nat, n: nat)
    requires labels != [] && i < |labels| - 1
    ensures AnsweredAt(cfg, labels[..|labels| - 1], i, n) <==> AnsweredAt(cfg, labels, i, n)
  {
    assert labels[..|labels| - 1][..i] == labels[..i];
  }

  lemma AnsweredIsAnswered(cfg: Config, labels: seq<Label>, i: nat, n: nat)
    requires AnsweredAt(cfg, labels, i, n)
    ensures n in Run(cfg, labels).soukSessions && !Run(cfg, labels).soukSessions[n].phase.Challenged?
  {
    var before, l, more := labels[..i], labels[i], labels[i + 1..];
    assert before + [l] + more == labels;
    AnswerIsFinal(cfg, before, l, more, n);
  }

  lemma AnsweredLast(cfg: Config, labels: seq<Label>, n: nat)
    requires labels != []
    requires var w := Run(cfg, labels[..|labels| - 1]); n in w.soukSessions ==> w.soukSessions[n].phase.Challenged?
    ensures forall j: nat :: AnsweredAt(cfg, labels, j, n) ==> j == |labels| - 1
  {
    forall j: nat | AnsweredAt(cfg, labels, j, n) ensures j == |labels| - 1 {
      if j < |labels| - 1 {
        AnsweredAtGrows(cfg, labels, j, n);
        AnsweredIsAnswered(cfg, labels[..|labels| - 1], j, n);
      }
    }
  }

  lemma AnsweredBefore(cfg: Config, labels: seq<Label>, before: seq<Label>, i: nat, n: nat)
    requires labels != [] && before == labels[..|labels| - 1] && AnsweredAt(cfg, before, i, n)
    requires forall j: nat :: AnsweredAt(cfg, before, j, n) ==> j == i
    ensures AnsweredAt(cfg, labels, i, n) && forall j: nat :: AnsweredAt(cfg, labels, j, n) ==> j == i
  {
    AnsweredAtGrows(cfg, labels, i, n);
    AnsweredIsAnswered(cfg, before, i, n);
    forall j: nat | AnsweredAt(cfg, labels, j, n) ensures j == i {
      if j < |labels| - 1 { AnsweredAtGrows(cfg, labels, j, n); }
    }
  }

  /** Every attached session was earned: one step, and only one, answered its challenge, by
      a proof over that challenge from a key that had registered the names. */
  lemma {:induction false} AttachIsEarned(cfg: Config, labels: seq<Label>, n: nat) returns (i: nat)
    requires n in Run(cfg, labels).soukSessions && Run(cfg, labels).soukSessions[n].phase.Attached?
    ensures AnsweredAt(cfg, labels, i, n) && IsGood(cfg, Run(cfg, labels[..i]), labels[i], n)
    ensures forall j: nat :: AnsweredAt(cfg, labels, j, n) ==> j == i
  {
    i := |labels| - 1;
    var w := Run(cfg, labels[..i]);
    StepAnswers(cfg, w, labels[i], n);
    if w.soukSessions[n].phase.Attached? {
      i := AttachIsEarned(cfg, labels[..i], n);
      assert labels[..|labels| - 1][..i] == labels[..i];
      AnsweredBefore(cfg, labels, labels[..|labels| - 1], i, n);
    } else {
      AnsweredLast(cfg, labels, n);
    }
  }

  /** Only a hello that is in order is ever challenged. */
  lemma {:induction false} EveryHelloIsInOrder(cfg: Config, labels: seq<Label>, n: nat)
    requires n in Run(cfg, labels).soukSessions
    ensures var h := Run(cfg, labels).soukSessions[n].hello;
            h.version == 3 && h.nonce != "" && h.names != []
  {
    if labels != [] {
      var k := |labels| - 1;
      var w := Run(cfg, labels[..k]);
      StepAnswers(cfg, w, labels[k], n);
      if n in w.soukSessions {
        EveryHelloIsInOrder(cfg, labels[..k], n);
      }
    }
  }

  // ---- And it does open

  /** What is on the wire of one exchange: what the hello says, and the nonce the provider
      is shown. */
  datatype Exchange = Exchange(
    souk: nat, provider: nat, soukNonce: string, providerNonce: string,
    helloNonce: string, helloNames: seq<string>, shownNonce: string)

  predicate IsPinned(cfg: Config, souk: nat, p: Provider)
    requires souk in cfg.souks
  {
    cfg.souks[souk].identity.Some? && RespectsPin(p, cfg.souks[souk].identity.value)
  }

  /** Four frames that read alike at both ends: the souk answers the hello that arrives, and
      its signature, over the nonces joined, is good for the nonce the provider is shown. */
  ghost predicate ReadsAlike(cfg: Config, x: Exchange)
  {
    && ValidConfig(cfg) && x.souk in cfg.souks && x.provider in cfg.providers
    && var p := cfg.providers[x.provider];
    && (p.pin.Some? ==> IsPinned(cfg, x.souk, p))
    && x.helloNames != [] && JoinedNames(x.helloNames) == JoinedNames(p.names)
    && x.soukNonce != x.providerNonce && x.soukNonce != "" && x.providerNonce != ""
    && ':' !in x.soukNonce && ':' !in x.providerNonce
    && x.helloNonce != "" && x.shownNonce != ""
    && x.soukNonce + ":" + x.helloNonce == x.shownNonce + ":" + x.providerNonce
  }

  function TheHello(cfg: Config, x: Exchange): Hello
    requires x.provider in cfg.providers
  {
    Hello(HANDSHAKE_VERSION, cfg.providers[x.provider].key, x.helloNames, x.helloNonce)
  }

  /** The challenge frame as the provider receives it, with the signature the souk made. */
  function TheChallenge(cfg: Config, x: Exchange): Challenge
    requires x.souk in cfg.souks
  {
    var identity := cfg.souks[x.souk].identity;
    Challenge(identity, Some(x.shownNonce),
              if identity.None? then None
              else Some(Signature(identity.value, Print(SoukConnect(x.soukNonce, x.helloNonce)))))
  }

  function TheProof(cfg: Config, x: Exchange): Statement
    requires x.souk in cfg.souks && x.provider in cfg.providers
  {
    ProviderConnect(RecipientField(cfg.souks[x.souk].identity), x.shownNonce, x.providerNonce,
                    Sorted(cfg.providers[x.provider].names))
  }

  function TheSignature(cfg: Config, x: Exchange): Signature
    requires x.souk in cfg.souks && x.provider in cfg.providers
  {
    Signature(cfg.providers[x.provider].key, Print(TheProof(cfg, x)))
  }

  function FourFrames(cfg: Config, x: Exchange): seq<Label>
    requires x.souk in cfg.souks && x.provider in cfg.providers
  {
    [ ProviderConnects(0, x.provider, x.providerNonce),
      HelloArrives(0, x.souk, TheHello(cfg, x), x.soukNonce),
      ChallengeArrives(0, TheChallenge(cfg, x)),
      ProofArrives(0, TheSignature(cfg, x), true) ]
  }

  lemma RunTwo(cfg: Config, a: Label, b: Label)
    ensures Run(cfg, [a, b]) == Step(cfg, Step(cfg, START, a), b)
  {
    RunStep(cfg, [], a);
    RunStep(cfg, [a], b);
    assert [] + [a] == [a] && [a] + [b] == [a, b];
  }

  lemma RunFour(cfg: Config, a: Label, b: Label, c: Label, d: Label)
    ensures Run(cfg, [a, b, c, d]) == Step(cfg, Step(cfg, Step(cfg, Step(cfg, START, a), b), c), d)
  {
    RunTwo(cfg, a, b);
    RunStep(cfg, [a, b], c);
    RunStep(cfg, [a, b] + [c], d);
    assert [a, b] + [c] + [d] == [a, b, c, d];
  }

  /** The provider has said hello. */
  ghost predicate IsConnected(w: World, x: Exchange)
  {
    && w.soukSessions == map[] && w.log == []
    && w.providerSessions == map[0 := ProviderSession(x.provider, x.providerNonce, HelloSent)]
  }

  /** The challenge frame is on the wire. */
  ghost predicate IsChallenged(cfg: Config, w: World, x: Exchange)
    requires x.souk in cfg.souks && x.provider in cfg.providers
  {
    && w.soukSessions == map[0 := SoukSession(x.souk, TheHello(cfg, x), x.soukNonce, Challenged)]
    && w.providerSessions == map[0 := ProviderSession(x.provider, x.providerNonce, HelloSent)]
    && (TheChallenge(cfg, x).signature.Some? ==> Available(cfg, w, TheChallenge(cfg, x).signature.value))
  }

  /** The proof frame is on the wire. */
  ghost predicate IsProved(cfg: Config, w: World, x: Exchange)
    requires x.souk in cfg.souks && x.provider in cfg.providers
  {
    && w.soukSessions == map[0 := SoukSession(x.souk, TheHello(cfg, x), x.soukNonce, Challenged)]
    && w.providerSessions == map[0 := ProviderSession(x.provider, x.providerNonce,
         Proved(RecipientField(cfg.souks[x.souk].identity), x.shownNonce))]
    && Available(cfg, w, TheSignature(cfg, x))
  }

  lemma HelloIsSent(cfg: Config, x: Exchange)
    requires ReadsAlike(cfg, x)
    ensures IsConnected(Step(cfg, START, ProviderConnects(0, x.provider, x.providerNonce)), x)
  {}

  lemma ChallengeIsSent(cfg: Config, x: Exchange, w: World)
    requires ReadsAlike(cfg, x) && IsConnected(w, x)
    ensures IsChallenged(cfg, AnswerHello(cfg, w, 0, x.souk, TheHello(cfg, x), x.soukNonce), x)
  {
    var w' := AnswerHello(cfg, w, 0, x.souk, TheHello(cfg, x), x.soukNonce);
    if cfg.souks[x.souk].identity.Some? {
      assert w'.log[0].statement == SoukConnect(x.soukNonce, x.helloNonce);
    }
  }

  /** The provider, on either client, is satisfied with that challenge. */
  lemma ChallengeIsTrusted(cfg: Config, x: Exchange)
    requires ReadsAlike(cfg, x)
    ensures Decides(cfg.providers[x.provider], TheChallenge(cfg, x), x.providerNonce)
         == Signs(RecipientField(cfg.souks[x.souk].identity), x.shownNonce)
  {
    assert Print(SoukConnect(x.soukNonce, x.helloNonce)) == Print(SoukConnect(x.shownNonce, x.providerNonce));
  }

  lemma ProofIsSigned(cfg: Config, x: Exchange, w: World)
    requires ReadsAlike(cfg, x) && IsChallenged(cfg, w, x)
    ensures var w' := AnswerChallenge(cfg, w, 0, TheChallenge(cfg, x));
            && w'.soukSessions == w.soukSessions
            && w'.providerSessions == map[0 := ProviderSession(x.provider, x.providerNonce,
                 Proved(RecipientField(cfg.souks[x.souk].identity), x.shownNonce))]
            && w'.log == w.log + [Signing(cfg.providers[x.provider].key, TheProof(cfg, x), ByProvider(0))]
  {
    ChallengeIsTrusted(cfg, x);
  }

  lemma LastIsLogged(log: seq<Signing>, e: Signing)
    ensures Logged(log + [e], e.key, Print(e.statement))
  {
    assert (log + [e])[|log|] == e;
  }

  lemma ProofIsSent(cfg: Config, x: Exchange, w: World)
    requires ReadsAlike(cfg, x) && IsChallenged(cfg, w, x)
    ensures IsProved(cfg, AnswerChallenge(cfg, w, 0, TheChallenge(cfg, x)), x)
  {
    ProofIsSigned(cfg, x, w);
    LastIsLogged(w.log, Signing(cfg.providers[x.provider].key, TheProof(cfg, x), ByProvider(0)));
  }

  lemma JoinedAlike(a: string, b: string, c: string, d: string, names: string)
    requires a + ":" + b == c + ":" + d
    ensures c + ":" + (d + ":" + names) == a + ":" + (b + ":" + names)
  {
    assert c + ":" + (d + ":" + names) == (c + ":" + d) + (":" + names);
    assert a + ":" + (b + ":" + names) == (a + ":" + b) + (":" + names);
  }

  lemma ProofReadsAlike(cfg: Config, x: Exchange)
    requires ReadsAlike(cfg, x)
    ensures Print(TheProof(cfg, x))
         == Print(ProviderConnect(RecipientField(cfg.souks[x.souk].identity), x.soukNonce, x.helloNonce, x.helloNames))
  {
    SortedTwice(cfg.providers[x.provider].names);
    JoinedAlike(x.soukNonce, x.helloNonce, x.shownNonce, x.providerNonce, JoinedNames(x.helloNames));
  }

  lemma MatchingProofVerifies(cfg: Config, x: Exchange, s: SoukSession)
    requires ReadsAlike(cfg, x) && s == SoukSession(x.souk, TheHello(cfg, x), x.soukNonce, Challenged)
    ensures Verifies(s.hello.publicKey, TheSignature(cfg, x), ProofBytes(cfg, s))
  {
    ProofReadsAlike(cfg, x);
    assert IsKey(cfg.providers[x.provider].key);
  }

  lemma GoodProofAttaches(cfg: Config, w: World, s: SoukSession, proof: Signature)
    requires w.soukSessions == map[0 := s] && s.souk in cfg.souks
    requires Verifies(s.hello.publicKey, proof, ProofBytes(cfg, s))
    ensures Attach(cfg, w, 0, proof, true) == w.(soukSessions := map[0 := s.(phase := Attached)])
  {}

  lemma MatchingProofAttaches(cfg: Config, x: Exchange, w: World)
    requires ReadsAlike(cfg, x) && IsProved(cfg, w, x)
    ensures var w' := Attach(cfg, w, 0, TheSignature(cfg, x), true);
            && w'.soukSessions == map[0 := SoukSession(x.souk, TheHello(cfg, x), x.soukNonce, Attached)]
            && w'.providerSessions == w.providerSessions
  {
    var s := SoukSession(x.souk, TheHello(cfg, x), x.soukNonce, Challenged);
    MatchingProofVerifies(cfg, x, s);
    GoodProofAttaches(cfg, w, s, TheSignature(cfg, x));
  }

  lemma HelloSteps(cfg: Config, x: Exchange, w: World)
    requires ReadsAlike(cfg, x) && IsConnected(w, x)
    ensures Step(cfg, w, HelloArrives(0, x.souk, TheHello(cfg, x), x.soukNonce))
         == AnswerHello(cfg, w, 0, x.souk, TheHello(cfg, x), x.soukNonce)
  {}

  lemma ChallengeSteps(cfg: Config, x: Exchange, w: World)
    requires ReadsAlike(cfg, x) && IsChallenged(cfg, w, x)
    ensures Step(cfg, w, ChallengeArrives(0, TheChallenge(cfg, x))) == AnswerChallenge(cfg, w, 0, TheChallenge(cfg, x))
  {}

  lemma ProofSteps(cfg: Config, x: Exchange, w: World)
    requires ReadsAlike(cfg, x) && IsProved(cfg, w, x)
    ensures Step(cfg, w, ProofArrives(0, TheSignature(cfg, x), true)) == Attach(cfg, w, 0, TheSignature(cfg, x), true)
  {}

  /** Any provider that pins nothing, or pins this very souk, attaches when the four frames
      read alike at both ends, with or without a souk identity. */
  lemma MatchingFramesAttach(cfg: Config, x: Exchange)
    requires ReadsAlike(cfg, x)
    ensures var w := Run(cfg, FourFrames(cfg, x));
            && w.soukSessions == map[0 := SoukSession(x.souk, TheHello(cfg, x), x.soukNonce, Attached)]
            && w.providerSessions == map[0 := ProviderSession(x.provider, x.providerNonce,
                 Proved(RecipientField(cfg.souks[x.souk].identity), x.shownNonce))]
  {
    var w1 := Step(cfg, START, ProviderConnects(0, x.provider, x.providerNonce));
    HelloIsSent(cfg, x);
    HelloSteps(cfg, x, w1);
    var w2 := AnswerHello(cfg, w1, 0, x.souk, TheHello(cfg, x), x.soukNonce);
    ChallengeIsSent(cfg, x, w1);
    ChallengeSteps(cfg, x, w2);
    var w3 := AnswerChallenge(cfg, w2, 0, TheChallenge(cfg, x));
    ProofIsSent(cfg, x, w2);
    ProofSteps(cfg, x, w3);
    MatchingProofAttaches(cfg, x, w3);
    RunFour(cfg, ProviderConnects(0, x.provider, x.providerNonce),
            HelloArrives(0, x.souk, TheHello(cfg, x), x.soukNonce),
            ChallengeArrives(0, TheChallenge(cfg, x)), ProofArrives(0, TheSignature(cfg, x), true));
  }

  /** An exchange in which every frame arrives as it was sent. */
  predicate IsUntouched(cfg: Config, x: Exchange)
  {
    && x.provider in cfg.providers && x.helloNames == Sorted(cfg.providers[x.provider].names)
    && x.helloNonce == x.providerNonce && x.shownNonce == x.soukNonce
  }

  /** Four frames delivered untouched open the socket. */
  lemma HonestExchangeAttaches(cfg: Config, x: Exchange)
    requires ValidConfig(cfg) && x.souk in cfg.souks && IsUntouched(cfg, x) && x.helloNames != []
    requires var p := cfg.providers[x.provider]; p.pin.Some? ==> IsPinned(cfg, x.souk, p)
    requires x.soukNonce != x.providerNonce && x.soukNonce != "" && x.providerNonce != ""
    requires ':' !in x.soukNonce && ':' !in x.providerNonce
    ensures var w := Run(cfg, FourFrames(cfg, x));
            0 in w.soukSessions && w.soukSessions[0].phase == Attached
  {
    SortedTwice(cfg.providers[x.provider].names);
    MatchingFramesAttach(cfg, x);
  }

  // ---- Where agreement stops

  function OnePair(names: seq<string>): Config
  {
    Config(map[0 := Souk(Some(Digits('a')))], map[0 := Provider(Digits('b'), None, names, Python)])
  }

  /** Between these two, an exchange reads alike when its nonces and its names do. */
  lemma OnePairReadsAlike(names: seq<string>, x: Exchange)
    requires x.souk == 0 && x.provider == 0 && x.helloNames != []
    requires JoinedNames(x.helloNames) == JoinedNames(names)
    requires x.soukNonce != x.providerNonce && x.soukNonce != "" && x.providerNonce != ""
    requires ':' !in x.soukNonce && ':' !in x.providerNonce && x.helloNonce != "" && x.shownNonce != ""
    requires x.soukNonce + ":" + x.helloNonce == x.shownNonce + ":" + x.providerNonce
    ensures ReadsAlike(OnePair(names), x)
  {
    assert Decoded(Digits('a')) == Digits('a') && Decoded(Digits('b')) == Digits('b');
  }

  /** A hello that arrives with a colon in its nonce: the session attaches, and the two ends
      hold different nonces. */
  lemma NoncesCanShift() returns (cfg: Config, x: Exchange)
    ensures ReadsAlike(cfg, x) && ':' in x.helloNonce
    ensures var w := Run(cfg, FourFrames(cfg, x));
            && 0 in w.soukSessions && w.soukSessions[0].phase.Attached?
            && 0 in w.providerSessions && w.providerSessions[0].phase.Proved?
            && w.soukSessions[0].nonce != w.providerSessions[0].phase.soukNonce
            && w.soukSessions[0].hello.nonce != w.providerSessions[0].nonce
  {
    cfg, x := OnePair(["n"]), Exchange(0, 0, "cc", "aa", "bb:aa", ["n"], "cc:bb");
    assert "cc" + ":" + "bb:aa" == "cc:bb" + ":" + "aa";
    OnePairReadsAlike(["n"], x);
    MatchingFramesAttach(cfg, x);
  }

  lemma JoinedPair(a: string, b: string)
    requires Text.LexLeq(a, b)
    ensures JoinedNames([a, b]) == a + [','] + b
  {
    assert [a, b][1..] == [b] && [b][1..] == [];
    assert Sorted([b]) == [b];
    assert Sorted([a, b]) == Text.Insert(a, [b], Self) == [a, b];
    assert Text.Join([b], ',') == b;
  }

  lemma PairIsNotItsJoin(a: string, b: string)
    ensures multiset([a, b]) != multiset([a + [','] + b])
  {
    assert |multiset([a, b])| == 2 && |multiset([a + [','] + b])| == 1;
  }

  /** A hello that names two agents attaches on the proof of a provider of one, whose name
      has the comma the two are joined with. */
  lemma NamesCanJoin(a: string, b: string) returns (cfg: Config, x: Exchange)
    requires Text.LexLeq(a, b) && ',' !in a && ',' !in b
    ensures ReadsAlike(cfg, x) && GoodNames(x.helloNames)
    ensures var w := Run(cfg, FourFrames(cfg, x));
            && 0 in w.soukSessions && w.soukSessions[0].phase.Attached?
            && multiset(w.soukSessions[0].hello.names) != multiset(cfg.providers[x.provider].names)
  {
    cfg, x := OnePair([a + [','] + b]), Exchange(0, 0, "c", "d", "d", [a, b], "c");
    JoinedPair(a, b);
    OneNameIsItself(a + [','] + b);
    PairIsNotItsJoin(a, b);
    OnePairReadsAlike([a + [','] + b], x);
    MatchingFramesAttach(cfg, x);
  }
}
