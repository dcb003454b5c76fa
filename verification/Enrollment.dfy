/** Node enrolment: an identity made once, and one-time claim tokens for the controller. */
module Enrollment {
  import opened Options

  type Time = int
  type Token = string

  /** Times are in nanoseconds; the store keeps whole seconds. */
  const SECOND: int := 1_000_000_000
  const TOKEN_TTL: int := 86_400 * SECOND

  const NODE_ID := "node_id"
  const PUBLIC_KEY := "node_public_key"
  const PRIVATE_KEY := "node_private_key"
  const CONTROLLER_URL := "controller_url"
  const CONTROLLER_KEY := "controller_public_key"
  const CERTIFICATE := "node_certificate"
  const CONTROLLER_CA := "controller_ca"
  const QUOTA_KEY := "quota_public_key"
  const COMPLIANCE_KEY := "compliance_public_key"

  datatype Identity = Identity(id: string, public: string, private: string)

  /** The one enrolment row. `expires` and `claimed` are in seconds. */
  datatype Slot = Slot(token: Token, expires: int, claimed: Option<int>)

  datatype Db = Db(kv: map<string, string>, slot: Option<Slot>)

  /** A claim. `wellFormed` stands for the checks on the URL, the keys and the certificate
      chain; `certificateKey` is the public key in the node certificate. */
  datatype Claim = Claim(
    token: Token, blank: bool, wellFormed: bool, certificateKey: string,
    url: string, controllerKey: string, certificate: string, ca: string,
    quotaKey: string, complianceKey: string)

  datatype Answer = Error | AlreadyClaimed | Bundle(token: Token)

  function Unix(t: Time): int
  {
    t / SECOND
  }

  predicate Complete(kv: map<string, string>)
  {
    PRIVATE_KEY in kv && PUBLIC_KEY in kv && NODE_ID in kv && kv[PRIVATE_KEY] != ""
  }

  predicate Absent(kv: map<string, string>)
  {
    PRIVATE_KEY !in kv && PUBLIC_KEY !in kv && NODE_ID !in kv
  }

  function Written(kv: map<string, string>, i: Identity): map<string, string>
  {
    kv[NODE_ID := i.id][PUBLIC_KEY := i.public][PRIVATE_KEY := i.private]
  }

  /** The key-value rows once the identity was looked for; nothing if it is incomplete. */
  function WithIdentity(kv: map<string, string>, i: Identity): Option<map<string, string>>
  {
    if Complete(kv) then Some(kv)
    else if Absent(kv) then Some(Written(kv, i))
    else None
  }

  /** `stored` says whether the second transaction, with the enrolment row, went through; the
      identity is written before it. */
  function Reenroll(db: Db, i: Identity, token: Token, now: Time, stored: bool): (Db, Answer)
  {
    var kv := WithIdentity(db.kv, i);
    if kv.None? then (db, Error)
    else if !stored then (db.(kv := kv.value), Error)
    else (Db(kv.value, Some(Slot(token, Unix(now + TOKEN_TTL), None))), Bundle(token))
  }

  /** Hand out the current token while it lasts, else a new one. */
  function Ensure(db: Db, i: Identity, token: Token, now: Time, stored: bool): (Db, Answer)
  {
    var kv := WithIdentity(db.kv, i);
    if kv.None? then (db, Error)
    else
      var n := db.(kv := kv.value);
      if n.slot.Some? && n.slot.value.claimed.Some? then (n, AlreadyClaimed)
      else if n.slot.None? || n.slot.value.expires * SECOND <= now then Reenroll(n, i, token, now, stored)
      else (n, Bundle(n.slot.value.token))
  }

  /** The token is the current one, unclaimed and in its time. */
  predicate Open(db: Db, token: Token, now: Time)
  {
    && db.slot.Some? && db.slot.value.token == token && db.slot.value.claimed.None?
    && db.slot.value.expires >= Unix(now)
  }

  predicate Acceptable(db: Db, c: Claim, now: Time)
  {
    && !c.blank && c.wellFormed
    && PUBLIC_KEY in db.kv && db.kv[PUBLIC_KEY] == c.certificateKey
    && Open(db, c.token, now)
  }

  function Linked(kv: map<string, string>, c: Claim): map<string, string>
  {
    kv[CONTROLLER_URL := c.url][CONTROLLER_KEY := c.controllerKey][CERTIFICATE := c.certificate][CONTROLLER_CA := c.ca]
  }

  function Keyed(kv: map<string, string>, c: Claim): map<string, string>
  {
    var q := if c.quotaKey != "" then kv[QUOTA_KEY := c.quotaKey] else kv;
    if c.complianceKey != "" then q[COMPLIANCE_KEY := c.complianceKey] else q
  }

  /** `saved` says whether the second transaction, with the optional keys, went through. */
  function ClaimNode(db: Db, c: Claim, now: Time, saved: bool): Db
  {
    if !Acceptable(db, c, now) then db
    else
      var kv := Linked(db.kv, c);
      Db(if saved then Keyed(kv, c) else kv, Some(db.slot.value.(claimed := Some(Unix(now)))))
  }

  // ---- Objects ------------------------------------------------------------

  class Service {
    var kv: map<string, string>
    var slot: Option<Slot>

    function Value(): Db
      reads this
    {
      Db(kv, slot)
    }

    constructor ()
      ensures Value() == Db(map[], None)
    {
      kv, slot := map[], None;
    }

    method EnsureIdentity(i: Identity) returns (ok: bool)
      modifies this
      ensures slot == old(slot)
      ensures var w := WithIdentity(old(kv), i);
              (ok <==> w.Some?) && kv == if ok then w.value else old(kv)
    {
      var hasPrivate, hasPublic, hasId := PRIVATE_KEY in kv, PUBLIC_KEY in kv, NODE_ID in kv;
      if hasPrivate || hasPublic || hasId {
        return hasPrivate && hasPublic && hasId && kv[PRIVATE_KEY] != "";
      }
      kv := kv[NODE_ID := i.id][PUBLIC_KEY := i.public][PRIVATE_KEY := i.private];
      return true;
    }

    method ReenrollNode(i: Identity, token: Token, now: Time, stored: bool) returns (a: Answer)
      modifies this
      ensures (Value(), a) == Reenroll(old(Value()), i, token, now, stored)
    {
      var ok := EnsureIdentity(i);
      if !ok {
        return Error;
      }
      if !stored {
        return Error;
      }
      slot := Some(Slot(token, Unix(now + TOKEN_TTL), None));
      return Bundle(token);
    }

    method EnsureNode(i: Identity, token: Token, now: Time, stored: bool) returns (a: Answer)
      modifies this
      ensures (Value(), a) == Ensure(old(Value()), i, token, now, stored)
    {
      var ok := EnsureIdentity(i);
      if !ok {
        return Error;
      }
      if slot.Some? && slot.value.claimed.Some? {
        return AlreadyClaimed;
      }
      if slot.None? || slot.value.expires * SECOND <= now {
        a := ReenrollNode(i, token, now, stored);
        return;
      }
      return Bundle(slot.value.token);
    }

    method ClaimOnce(c: Claim, now: Time, saved: bool) returns (claimed: bool)
      modifies this
      ensures Value() == ClaimNode(old(Value()), c, now, saved)
      ensures claimed <==> Acceptable(old(Value()), c, now) && (saved || (c.quotaKey == "" && c.complianceKey == ""))
    {
      if c.blank || !c.wellFormed {
        return false;
      }
      if PUBLIC_KEY !in kv || kv[PUBLIC_KEY] != c.certificateKey {
        return false;
      }
      if slot.None? || slot.value.token != c.token || slot.value.claimed.Some? || slot.value.expires < Unix(now) {
        return false;
      }
      slot := Some(slot.value.(claimed := Some(Unix(now))));
      kv := kv[CONTROLLER_URL := c.url][CONTROLLER_KEY := c.controllerKey][CERTIFICATE := c.certificate][CONTROLLER_CA := c.ca];
      if c.quotaKey == "" && c.complianceKey == "" {
        return true;
      }
      if !saved {
        return false;
      }
      if c.quotaKey != "" {
        kv := kv[QUOTA_KEY := c.quotaKey];
      }
      if c.complianceKey != "" {
        kv := kv[COMPLIANCE_KEY := c.complianceKey];
      }
      return true;
    }
  }

  // ---- Runs ---------------------------------------------------------------

  datatype Event = Issued(token: Token, t: Time) | Taken(token: Token, t: Time)

  /** The store with the history of tokens issued and claims that went through. */
  datatype State = State(db: Db, log: seq<Event>, clock: Time)

  const START := State(Db(map[], None), [], 0)

  datatype Action =
    | DoEnsure(i: Identity, token: Token, stored: bool, t: Time)
    | DoReenroll(i: Identity, token: Token, stored: bool, t: Time)
    | DoClaim(c: Claim, saved: bool, t: Time)

  predicate Used(log: seq<Event>, token: Token)
  {
    exists i :: 0 <= i < |log| && log[i].token == token
  }

  /** A new token is random, so never one that was used; a new private key is not empty. */
  predicate Fresh(s: State, i: Identity, token: Token)
  {
    i.private != "" && !Used(s.log, token)
  }

  function Record(s: State, db: Db, token: Token): State
  {
    s.(db := db, log := if db.slot != s.db.slot then s.log + [Issued(token, s.clock)] else s.log)
  }

  function StepClaim(s: State, c: Claim, saved: bool): State
  {
    s.(db := ClaimNode(s.db, c, s.clock, saved),
       log := if Acceptable(s.db, c, s.clock) then s.log + [Taken(c.token, s.clock)] else s.log)
  }

  function Step(s: State, a: Action): State
  {
    if a.t < s.clock then s
    else
      var n := s.(clock := a.t);
      match a
      case DoEnsure(i, token, stored, t) =>
        if Fresh(s, i, token) then Record(n, Ensure(n.db, i, token, t, stored).0, token) else n
      case DoReenroll(i, token, stored, t) =>
        if Fresh(s, i, token) then Record(n, Reenroll(n.db, i, token, t, stored).0, token) else n
      case DoClaim(c, saved, t) => StepClaim(n, c, saved)
  }

  function Run(s: State, run: seq<Action>): State
    decreases |run|
  {
    if run == [] then s else Run(Step(s, run[0]), run[1..])
  }

  /** Which event of the history last issued the token in the slot, and whether it was taken. */
  ghost predicate SlotOk(s: State)
  {
    match s.db.slot
    case None => s.log == []
    case Some(x) =>
      var n := |s.log|;
      if x.claimed.None?
      then n > 0 && s.log[n - 1].Issued? && s.log[n - 1].token == x.token && x.expires == Unix(s.log[n - 1].t + TOKEN_TTL)
      else n > 1 && s.log[n - 1].Taken? && s.log[n - 1].token == x.token
  }

  /** A claim comes right after the issue of its token, and in its time. */
  ghost predicate TakenOk(log: seq<Event>, i: nat)
    requires i < |log|
  {
    log[i].Taken? ==>
      && i > 0 && log[i - 1].Issued? && log[i - 1].token == log[i].token
      && log[i - 1].t <= log[i].t && Unix(log[i].t) <= Unix(log[i - 1].t + TOKEN_TTL)
  }

  ghost predicate IssuedOnce(log: seq<Event>)
  {
    forall i, j :: 0 <= i < j < |log| && log[i].Issued? && log[j].Issued? ==> log[i].token != log[j].token
  }

  ghost predicate Inv(s: State)
  {
    && (Complete(s.db.kv) || Absent(s.db.kv))
    && SlotOk(s)
    && (forall i :: 0 <= i < |s.log| ==> TakenOk(s.log, i))
    && (forall i :: 0 <= i < |s.log| ==> s.log[i].t <= s.clock)
    && IssuedOnce(s.log)
  }

  lemma KeysDiffer()
    ensures NODE_ID != PUBLIC_KEY && NODE_ID != PRIVATE_KEY && PUBLIC_KEY != PRIVATE_KEY
  {
    assert |NODE_ID| == 7 && |PUBLIC_KEY| == 15 && |PRIVATE_KEY| == 16;
  }

  /** No key that a claim writes is part of the identity. */
  lemma ClaimKeys(key: string)
    requires key in {CONTROLLER_URL, CONTROLLER_KEY, CERTIFICATE, CONTROLLER_CA, QUOTA_KEY, COMPLIANCE_KEY}
    ensures key != NODE_ID && key != PUBLIC_KEY && key != PRIVATE_KEY
  {
    assert NODE_ID[0] == 'n' && PUBLIC_KEY[0] == 'n' && PRIVATE_KEY[0] == 'n';
    assert CONTROLLER_URL[0] == 'c' && CONTROLLER_KEY[0] == 'c' && CONTROLLER_CA[0] == 'c';
    assert QUOTA_KEY[0] == 'q' && COMPLIANCE_KEY[0] == 'c';
    assert CERTIFICATE[5] == 'c' && PUBLIC_KEY[5] == 'p' && PRIVATE_KEY[5] == 'p' && NODE_ID[5] == 'i';
  }

  ghost predicate SameIdentity(a: map<string, string>, b: map<string, string>)
  {
    && (NODE_ID in a <==> NODE_ID in b) && (NODE_ID in a ==> a[NODE_ID] == b[NODE_ID])
    && (PUBLIC_KEY in a <==> PUBLIC_KEY in b) && (PUBLIC_KEY in a ==> a[PUBLIC_KEY] == b[PUBLIC_KEY])
    && (PRIVATE_KEY in a <==> PRIVATE_KEY in b) && (PRIVATE_KEY in a ==> a[PRIVATE_KEY] == b[PRIVATE_KEY])
  }

  lemma ClaimIdentity(db: Db, c: Claim, now: Time, saved: bool)
    ensures SameIdentity(db.kv, ClaimNode(db, c, now, saved).kv)
  {
    ClaimKeys(CONTROLLER_URL);
    ClaimKeys(CONTROLLER_KEY);
    ClaimKeys(CERTIFICATE);
    ClaimKeys(CONTROLLER_CA);
    ClaimKeys(QUOTA_KEY);
    ClaimKeys(COMPLIANCE_KEY);
  }

  lemma WrittenComplete(kv: map<string, string>, i: Identity)
    requires i.private != ""
    ensures Complete(Written(kv, i))
  {
    KeysDiffer();
  }

  lemma IssueOk(s: State, token: Token, kv: map<string, string>)
    requires Inv(s) && !Used(s.log, token) && Complete(kv)
    ensures Inv(Record(s, Db(kv, Some(Slot(token, Unix(s.clock + TOKEN_TTL), None))), token))
  {
    var s' := Record(s, Db(kv, Some(Slot(token, Unix(s.clock + TOKEN_TTL), None))), token);
    assert s.db.slot.Some? ==> Used(s.log, s.db.slot.value.token) by {
      if s.db.slot.Some? { assert s.log[|s.log| - 1].token == s.db.slot.value.token; }
    }
    assert s'.log == s.log + [Issued(token, s.clock)];
    forall i | 0 <= i < |s'.log| ensures TakenOk(s'.log, i) {
      assert i < |s.log| ==> TakenOk(s.log, i);
    }
    forall i, j | 0 <= i < j < |s'.log| && s'.log[i].Issued? && s'.log[j].Issued?
      ensures s'.log[i].token != s'.log[j].token
    {
      assert s'.log[i] == s.log[i];
    }
  }

  lemma ClaimOk(s: State, c: Claim, saved: bool)
    requires Inv(s)
    ensures Inv(StepClaim(s, c, saved))
  {
    ClaimIdentity(s.db, c, s.clock, saved);
    var s' := StepClaim(s, c, saved);
    if Acceptable(s.db, c, s.clock) {
      forall i | 0 <= i < |s'.log| ensures TakenOk(s'.log, i) {
        assert i < |s.log| ==> TakenOk(s.log, i);
      }
      assert IssuedOnce(s'.log);
    }
  }

  lemma IdentityOk(s: State, kv: map<string, string>, token: Token)
    requires Inv(s) && Complete(kv)
    ensures Inv(Record(s, s.db.(kv := kv), token))
  {
  }

  lemma EnsureOk(s: State, i: Identity, token: Token, stored: bool)
    requires Inv(s) && Fresh(s, i, token)
    ensures Inv(Record(s, Ensure(s.db, i, token, s.clock, stored).0, token))
    ensures Inv(Record(s, Reenroll(s.db, i, token, s.clock, stored).0, token))
  {
    WrittenComplete(s.db.kv, i);
    var kv := WithIdentity(s.db.kv, i).value;
    IssueOk(s, token, kv);
    IdentityOk(s, kv, token);
  }

  lemma StepOk(s: State, a: Action)
    requires Inv(s)
    ensures Inv(Step(s, a))
  {
    if a.t >= s.clock {
      var n := s.(clock := a.t);
      assert Inv(n);
      match a
      case DoEnsure(i, token, stored, _) => if Fresh(s, i, token) { EnsureOk(n, i, token, stored); }
      case DoReenroll(i, token, stored, _) => if Fresh(s, i, token) { EnsureOk(n, i, token, stored); }
      case DoClaim(c, saved, _) => ClaimOk(n, c, saved);
    }
  }

  lemma {:induction false} RunOk(s: State, run: seq<Action>)
    requires Inv(s)
    ensures Inv(Run(s, run))
    decreases |run|
  {
    if run != [] {
      StepOk(s, run[0]);
      RunOk(Step(s, run[0]), run[1..]);
    }
  }

  // ---- Main results -------------------------------------------------------

  lemma StepIdentity(s: State, a: Action)
    requires Complete(s.db.kv)
    ensures SameIdentity(s.db.kv, Step(s, a).db.kv)
  {
    if a.DoClaim? && a.t >= s.clock {
      ClaimIdentity(s.db, a.c, a.t, a.saved);
    }
  }

  /** The identity is there as a whole or not at all, and once it is there it never changes. */
  lemma {:induction false} IdentityStays(s: State, run: seq<Action>)
    requires Inv(s)
    ensures Complete(Run(s, run).db.kv) || Absent(Run(s, run).db.kv)
    ensures Complete(s.db.kv) ==> SameIdentity(s.db.kv, Run(s, run).db.kv)
    decreases |run|
  {
    RunOk(s, run);
    if run != [] && Complete(s.db.kv) {
      StepIdentity(s, run[0]);
      StepOk(s, run[0]);
      IdentityStays(Step(s, run[0]), run[1..]);
    }
  }

  /** Every token is claimed at most once, directly after it was issued with no other token
      issued between, and less than a day and a second later. */
  lemma ClaimedOnce(run: seq<Action>, i: nat)
    requires i < |Run(START, run).log| && Run(START, run).log[i].Taken?
    ensures var log := Run(START, run).log;
            && i > 0 && log[i - 1].Issued? && log[i - 1].token == log[i].token
            && log[i - 1].t <= log[i].t < log[i - 1].t + TOKEN_TTL + SECOND
            && (forall j :: 0 <= j < |log| && j != i && log[j].Taken? ==> log[j].token != log[i].token)
  {
    RunOk(START, run);
    var log := Run(START, run).log;
    assert TakenOk(log, i);
    SameSecond(log[i].t, log[i - 1].t + TOKEN_TTL);
    forall j | 0 <= j < |log| && j != i && log[j].Taken?
      ensures log[j].token != log[i].token
    {
      assert TakenOk(log, j);
      assert log[i - 1].token != log[j - 1].token;
    }
  }

  lemma SameSecond(t: Time, u: Time)
    requires Unix(t) <= Unix(u)
    ensures t < u + SECOND
  {
  }

  /** In every run a claim is accepted only for the token issued last. */
  lemma OnlyLatest(run: seq<Action>, c: Claim, t: Time)
    requires t >= Run(START, run).clock && Acceptable(Run(START, run).db, c, t)
    ensures var log := Run(START, run).log;
            log != [] && log[|log| - 1].Issued? && log[|log| - 1].token == c.token
  {
    RunOk(START, run);
  }

  /** A token that `Ensure` hands out can be claimed at that moment, with the node's own key. */
  lemma HandedOutIsOpen(run: seq<Action>, i: Identity, token: Token, stored: bool, c: Claim, t: Time)
    requires t >= Run(START, run).clock && i.private != ""
    requires var (db, a) := Ensure(Run(START, run).db, i, token, t, stored);
             a.Bundle? && a.token == c.token && PUBLIC_KEY in db.kv && db.kv[PUBLIC_KEY] == c.certificateKey
    requires !c.blank && c.wellFormed
    ensures Acceptable(Ensure(Run(START, run).db, i, token, t, stored).0, c, t)
  {
    Later(t, t + TOKEN_TTL);
    var slot := Run(START, run).db.slot;
    if slot.Some? && slot.value.expires * SECOND > t {
      Later(t, slot.value.expires * SECOND);
    }
  }

  lemma Later(t: Time, u: Time)
    requires t <= u
    ensures Unix(t) <= Unix(u)
  {
  }

  // ---- Written out --------------------------------------------------------

  lemma ClaimKeysDiffer()
    ensures CONTROLLER_URL != CONTROLLER_KEY && CONTROLLER_URL != CERTIFICATE && CONTROLLER_URL != CONTROLLER_CA
    ensures CONTROLLER_KEY != CERTIFICATE && CONTROLLER_KEY != CONTROLLER_CA && CERTIFICATE != CONTROLLER_CA
    ensures QUOTA_KEY != COMPLIANCE_KEY
    ensures {QUOTA_KEY, COMPLIANCE_KEY} !! {CONTROLLER_URL, CONTROLLER_KEY, CERTIFICATE, CONTROLLER_CA}
  {
    assert |CONTROLLER_URL| == 14 && |CONTROLLER_KEY| == 21 && |CERTIFICATE| == 16 && |CONTROLLER_CA| == 13;
    assert |QUOTA_KEY| == 16 && |COMPLIANCE_KEY| == 21;
    assert QUOTA_KEY[0] == 'q' && CERTIFICATE[0] == 'n';
    assert COMPLIANCE_KEY[2] == 'm' && CONTROLLER_KEY[2] == 'n';
  }

  /** The value of a key after a claim. */
  function After(kv: map<string, string>, c: Claim, saved: bool, key: string): Option<string>
  {
    if key == "controller_url" then Some(c.url)
    else if key == "controller_public_key" then Some(c.controllerKey)
    else if key == "node_certificate" then Some(c.certificate)
    else if key == "controller_ca" then Some(c.ca)
    else if key == "quota_public_key" && saved && c.quotaKey != "" then Some(c.quotaKey)
    else if key == "compliance_public_key" && saved && c.complianceKey != "" then Some(c.complianceKey)
    else if key in kv then Some(kv[key]) else None
  }

  /** A claim is accepted for a non-blank, well-formed request with the node's own key and the
      current token, unclaimed and not past its second of expiry. It then marks the token and
      stores each field under its key; otherwise nothing changes. */
  lemma ClaimExact(db: Db, c: Claim, now: Time, saved: bool, key: string)
    ensures var d := ClaimNode(db, c, now, saved);
            if !c.blank && c.wellFormed && "node_public_key" in db.kv && db.kv["node_public_key"] == c.certificateKey
               && db.slot.Some? && db.slot.value.token == c.token && db.slot.value.claimed.None?
               && now / 1_000_000_000 <= db.slot.value.expires
            then
              && d.slot == Some(Slot(c.token, db.slot.value.expires, Some(now / 1_000_000_000)))
              && (key in d.kv <==> After(db.kv, c, saved, key).Some?)
              && (key in d.kv ==> Some(d.kv[key]) == After(db.kv, c, saved, key))
            else d == db
  {
    ClaimKeysDiffer();
  }

  /** The identity goes under its three keys, and no other key changes. */
  lemma IdentityExact(kv: map<string, string>, i: Identity)
    ensures var w := Written(kv, i);
            && w.Keys == kv.Keys + {"node_id", "node_public_key", "node_private_key"}
            && w["node_id"] == i.id && w["node_public_key"] == i.public && w["node_private_key"] == i.private
            && (forall k :: k in kv && k !in {"node_id", "node_public_key", "node_private_key"} ==> w[k] == kv[k])
  {
    KeysDiffer();
  }

  /** The answer of `Ensure` where the identity is whole or absent: nothing for a claimed node,
      the current token while it lasts, else the new one for 24 hours, or an error if that cannot
      be stored. A new identity is written in every case. */
  lemma EnsureExact(db: Db, i: Identity, token: Token, now: Time, stored: bool)
    requires i.private != "" && (Complete(db.kv) || Absent(db.kv))
    ensures var kv := if Complete(db.kv) then db.kv else Written(db.kv, i);
            Ensure(db, i, token, now, stored)
            == match db.slot
               case Some(Slot(_, _, Some(_))) => (Db(kv, db.slot), AlreadyClaimed)
               case Some(Slot(current, expires, None)) =>
                 if now < expires * 1_000_000_000 then (Db(kv, db.slot), Bundle(current))
                 else if stored then (Db(kv, Some(Slot(token, (now + 86_400_000_000_000) / 1_000_000_000, None))), Bundle(token))
                 else (Db(kv, db.slot), Error)
               case None =>
                 if stored then (Db(kv, Some(Slot(token, (now + 86_400_000_000_000) / 1_000_000_000, None))), Bundle(token))
                 else (Db(kv, None), Error)
  {
    WrittenComplete(db.kv, i);
  }

  /** Reissuing replaces the token at once, whatever the old one was. */
  lemma ReenrollExact(db: Db, i: Identity, token: Token, now: Time, stored: bool)
    ensures Reenroll(db, i, token, now, stored)
            == if !Complete(db.kv) && !Absent(db.kv) then (db, Error)
               else
                 var kv := if Complete(db.kv) then db.kv else Written(db.kv, i);
                 if stored then (Db(kv, Some(Slot(token, (now + 86_400_000_000_000) / 1_000_000_000, None))), Bundle(token))
                 else (Db(kv, db.slot), Error)
  {
  }

  /** A token stays open for its whole day, if it is neither replaced nor claimed. */
  lemma OpenForADay(db: Db, i: Identity, token: Token, issued: Time, now: Time)
    requires Complete(db.kv) && issued <= now <= issued + 86_400_000_000_000
    ensures Open(Reenroll(db, i, token, issued, true).0, token, now)
  {
    Later(now, issued + TOKEN_TTL);
  }

  /** What each action of a run leaves in the store; a new token or key that is not new, or a
      private key that is empty, cannot happen. */
  lemma StepExact(s: State, a: Action)
    requires s.clock <= a.t
    ensures Step(s, a).clock == a.t
    ensures Step(s, a).db
            == match a
               case DoEnsure(i, token, stored, t) =>
                 if i.private != "" && !Used(s.log, token) then Ensure(s.db, i, token, t, stored).0 else s.db
               case DoReenroll(i, token, stored, t) =>
                 if i.private != "" && !Used(s.log, token) then Reenroll(s.db, i, token, t, stored).0 else s.db
               case DoClaim(c, saved, t) => ClaimNode(s.db, c, t, saved)
  {
  }
}
